/** sm.py: a state machine driven by handler functions. Each state name maps
    to a handler (or to None for a state that is only ever ended in); an
    update feeds a value to the current state's handler, which names the
    next state and an output. */
module HandlerSm {
  import opened Common

  /** What update returns: the handler's output and whether the new state is
      an end state, or the exception it raises. */
  datatype Reply = Reply(output: string, atEnd: bool) | Raised(fault: Fault)

  class StateMachine<V> {
    var handlers: map<string, Option<V -> (string, string)>>
    var startState: Option<string>
    var currentState: Option<string>
    var endStates: seq<string>

    constructor ()
      ensures handlers == map[] && startState == None && currentState == None && endStates == []
    {
      handlers := map[];
      startState := None;
      currentState := None;
      endStates := [];
    }

    /** add_state: store or overwrite the handler; record the name as an end
        state only when asked to. */
    method AddState(name: string, handler: Option<V -> (string, string)>, endState: bool := false)
      modifies this
      ensures handlers == old(handlers)[name := handler]
      ensures endStates == if endState then old(endStates) + [name] else old(endStates)
      ensures startState == old(startState) && currentState == old(currentState)
    {
      handlers := handlers[name := handler];
      if endState {
        endStates := endStates + [name];
      }
    }

    /** set_start: the start state and the current state both become `name`. */
    method SetStart(name: string)
      modifies this
      ensures startState == Some(name) && currentState == Some(name)
      ensures handlers == old(handlers) && endStates == old(endStates)
    {
      startState := Some(name);
      currentState := startState;
    }

    /** update: look up the current state's handler (KeyError when there is
        none, TypeError when it is None), move to the state it names, and
        report its output and whether that state is an end state. Only the
        current state changes. */
    method Update(value: V) returns (r: Reply)
      modifies this
      ensures handlers == old(handlers) && startState == old(startState) && endStates == old(endStates)
      ensures old(currentState).None? || old(currentState).value !in handlers ==>
        r == Raised(KeyError) && currentState == old(currentState)
      ensures old(currentState).Some? && old(currentState).value in handlers && handlers[old(currentState).value].None? ==>
        r == Raised(TypeError) && currentState == old(currentState)
      ensures old(currentState).Some? && old(currentState).value in handlers && handlers[old(currentState).value].Some? ==>
        var result := handlers[old(currentState).value].value(value);
        currentState == Some(result.0) && r == Reply(result.1, result.0 in endStates)
    {
      if currentState.None? || currentState.value !in handlers {
        return Raised(KeyError);
      }
      var handler := handlers[currentState.value];
      if handler.None? {
        return Raised(TypeError);
      }
      var result := handler.value(value);
      currentState := Some(result.0);
      r := Reply(result.1, currentState.value in endStates);
    }
  }

  /** handler1: leave state1 for state2, saying "going", exactly on "go". */
  function Handler1(input: string): (r: (string, string))
    ensures r.0 == "state2" <==> input == "go"
    ensures r.0 == "state1" <==> input != "go"
    ensures r.1 == if r.0 == "state2" then "going" else ""
  {
    if input == "go" then ("state2", "going") else ("state1", "")
  }

  /** handler2: leave state2 for end, saying "stopping", exactly on "stop". */
  function Handler2(input: string): (r: (string, string))
    ensures r.0 == "end" <==> input == "stop"
    ensures r.0 == "state2" <==> input != "stop"
    ensures r.1 == if r.0 == "end" then "stopping" else ""
  {
    if input == "stop" then ("end", "stopping") else ("state2", "")
  }

  /** The example machine: state1 and state2 with the two handlers, end as a
      handler-less end state, starting in state1. Input that is neither "go"
      nor "stop" keeps it where it is; "go" then "stop" reach end with the
      end flag set, and one more update calls None. */
  method ExampleRun() returns (idle: Reply, first: Reply, second: Reply, last: Option<string>, third: Reply)
    ensures idle == Reply("", false)
    ensures first == Reply("going", false)
    ensures second == Reply("stopping", true)
    ensures last == Some("end")
    ensures third == Raised(TypeError)
  {
    var m := new StateMachine<string>();
    m.AddState("state1", Some(Handler1));
    m.AddState("state2", Some(Handler2));
    m.AddState("end", None, true);
    m.SetStart("state1");
    idle := m.Update("wait");
    first := m.Update("go");
    second := m.Update("stop");
    last := m.currentState;
    third := m.Update("go");
  }
}
