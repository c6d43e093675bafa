/** test/sm.py: the same handler-driven state machine under other names,
    whose update returns the new state with the output instead of an end
    flag, and its one usable example handler. */
module TestHandlerSm {
  import opened Common

  /** What update returns: the new current state and the handler's output,
      or the exception it raises. */
  datatype Reply = Moved(current: string, output: string) | Raised(fault: Fault)

  class StateMachine<V> {
    var handlers: map<string, Option<V -> (string, string)>>
    var start: Option<string>
    var current: Option<string>
    var ends: seq<string>

    constructor ()
      ensures handlers == map[] && start == None && current == None && ends == []
    {
      handlers := map[];
      start := None;
      current := None;
      ends := [];
    }

    /** addState: store or overwrite the handler; record the name as an end
        state only when asked to. */
    method AddState(name: string, handler: Option<V -> (string, string)>, endState: bool := false)
      modifies this
      ensures handlers == old(handlers)[name := handler]
      ensures ends == if endState then old(ends) + [name] else old(ends)
      ensures start == old(start) && current == old(current)
    {
      handlers := handlers[name := handler];
      if endState {
        ends := ends + [name];
      }
    }

    /** setStart: the start state and the current state both become `name`. */
    method SetStart(name: string)
      modifies this
      ensures start == Some(name) && current == Some(name)
      ensures handlers == old(handlers) && ends == old(ends)
    {
      start := Some(name);
      current := start;
    }

    /** update: look up the current state's handler (KeyError when there is
        none, TypeError when it is None), move to the state it names, and
        return that state with the handler's output. Only the current state
        changes. */
    method Update(value: V) returns (r: Reply)
      modifies this
      ensures handlers == old(handlers) && start == old(start) && ends == old(ends)
      ensures old(current).None? || old(current).value !in handlers ==>
        r == Raised(KeyError) && current == old(current)
      ensures old(current).Some? && old(current).value in handlers && handlers[old(current).value].None? ==>
        r == Raised(TypeError) && current == old(current)
      ensures old(current).Some? && old(current).value in handlers && handlers[old(current).value].Some? ==>
        var result := handlers[old(current).value].value(value);
        current == Some(result.0) && r == Moved(result.0, result.1)
    {
      if current.None? || current.value !in handlers {
        return Raised(KeyError);
      }
      var handler := handlers[current.value];
      if handler.None? {
        return Raised(TypeError);
      }
      var result := handler.value(value);
      current := Some(result.0);
      r := Moved(result.0, result.1);
    }
  }

  /** The Python values the name `input` can be bound to: in test/sm.py it
      is never rebound, so it is the builtin function, which is not equal
      to any string. */
  datatype PyValue = BuiltinFunction | Str(s: string)

  /** What the module-level name `input` refers to. */
  const InputBinding: PyValue := BuiltinFunction

  /** idleHandler's body with the value of the global `input` made
      explicit: it moves to state2 saying "going" when that value equals
      "go", and otherwise stays in state1 saying nothing. Its own argument
      is never read. */
  function IdleHandlerWith(input: PyValue, stateInput: bool): (r: (string, string))
    ensures r == ("state2", "going") <==> input == Str("go")
    ensures r == ("state1", "") <==> input != Str("go")
  {
    if input == Str("go") then ("state2", "going") else ("state1", "")
  }

  /** idleHandler as written: the comparison is with the builtin `input`,
      not with the handler's argument. */
  function IdleHandler(stateInput: bool): (string, string) {
    IdleHandlerWith(InputBinding, stateInput)
  }

  /** idleHandler ignores its argument: since the builtin `input` is never
      equal to "go", it answers ("state1", "") to both values, so it never
      leaves state1. */
  lemma IdleHandlerIgnoresInput()
    ensures InputBinding != Str("go")
    ensures forall a: bool, b: bool :: IdleHandler(a) == IdleHandler(b)
    ensures forall a: bool :: IdleHandler(a) == ("state1", "")
  {
  }

  /** A machine whose start state uses idleHandler stays in that state,
      whatever the operator confirms. */
  method IdleRun() returns (first: Reply, second: Reply, last: Option<string>)
    ensures first == Moved("state1", "")
    ensures second == Moved("state1", "")
    ensures last == Some("state1")
  {
    var m := new StateMachine<bool>();
    m.AddState("state1", Some(IdleHandler));
    m.AddState("end", None, true);
    m.SetStart("state1");
    first := m.Update(true);
    second := m.Update(false);
    last := m.current;
  }
}
