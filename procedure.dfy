/** The task-gated launch procedure of test.py: the RocketStates task
    tables, FireProcedure with its per-stage completion flags, the
    StateMachine that lets the current stage move on only when all of its
    flags are set, and the MainWindow wiring between the two. Widgets,
    labels and styles are not modelled. */
module Procedure {
  import opened Common

  // RocketStates: stage names
  const Idle: string := "Leak Checks:"
  const HighPress: string := "Upper Pressurization:"
  const TankHp: string := "Fuel/Ox Pressurization:"
  const Fire: string := "Initiate Launch:"

  /** RocketStates.states, in procedure order. */
  const Stages: seq<string> := [Idle, HighPress, TankHp, Fire]

  // RocketStates: task identifiers
  const CopvOpen: string := "COPV_O"
  const Kbottle: string := "KBOTTLE"
  const CopvEq: string := "COPV_E"
  const CopvClose: string := "COPV_C"
  const TanksOpen: string := "TANKS"
  const FireInit: string := "FIRE_I"

  /** One entry of a task table: id, description and initial completion flag. */
  datatype TaskEntry = TaskEntry(id: string, desc: string, done: bool)

  const IdleTable: seq<TaskEntry> := [
    TaskEntry(CopvOpen, "-> Open COPV SV until PTs stabilize\n  ->  Acceptable rate = 1 PSI / Min\n", false)]
  const HpTable: seq<TaskEntry> := [
    TaskEntry(Kbottle, "-> Open K-bottle on launch pad", false),
    TaskEntry(CopvEq, "-> Open COPV SV to equalize pressure\n   in COPV", false)]
  const TankHpTable: seq<TaskEntry> := [
    TaskEntry(CopvClose, "-> Close COPV SV", false),
    TaskEntry(TanksOpen, "-> Open tank SVs (3) and validate\n   leak rate", false)]
  const FireTable: seq<TaskEntry> := [
    TaskEntry(FireInit, "-> Start fire sequence\n\n", false)]

  /** Completion flags of one stage, keyed by task id. */
  type Flags = map<string, bool>

  /** FireProcedure.tasks: stage name to that stage's flags. */
  type TaskMap = map<string, Flags>

  /** The table a stage is built from. */
  function TableOf(stage: string): seq<TaskEntry> {
    if stage == Idle then IdleTable
    else if stage == HighPress then HpTable
    else if stage == TankHp then TankHpTable
    else if stage == Fire then FireTable
    else []
  }

  /** Task ids of a table, in table order. */
  function Ids(table: seq<TaskEntry>): (ids: seq<string>)
    ensures |ids| == |table|
    ensures forall i :: 0 <= i < |table| ==> ids[i] == table[i].id
  {
    seq(|table|, i requires 0 <= i < |table| => table[i].id)
  }

  /** The flags a table contributes when its entries are written one after
      another into a dict. */
  function TableFlags(table: seq<TaskEntry>): Flags {
    if table == [] then map[]
    else
      var last := table[|table| - 1];
      TableFlags(table[..|table| - 1])[last.id := last.done]
  }

  /** Every id of a table becomes a key, and every key is an id of the
      table. */
  lemma {:induction false} TableFlagsKeys(table: seq<TaskEntry>)
    ensures TableFlags(table).Keys == set i | 0 <= i < |table| :: table[i].id
  {
    if table != [] {
      var init := table[..|table| - 1];
      var last := table[|table| - 1];
      TableFlagsKeys(init);
      assert TableFlags(table).Keys == TableFlags(init).Keys + {last.id};
      assert forall i :: 0 <= i < |init| ==> table[i] == init[i];
      assert (set i | 0 <= i < |table| :: table[i].id) == (set i | 0 <= i < |init| :: init[i].id) + {last.id};
    }
  }

  /** Each key holds the flag of the LAST entry with that id, as successive
      dict updates leave it. */
  lemma {:induction false} TableFlagsLastWins(table: seq<TaskEntry>, i: nat)
    requires i < |table|
    requires forall j :: i < j < |table| ==> table[j].id != table[i].id
    ensures table[i].id in TableFlags(table)
    ensures TableFlags(table)[table[i].id] == table[i].done
  {
    var init := table[..|table| - 1];
    if i < |init| {
      assert table[i] == init[i];
      assert forall j :: i < j < |init| ==> init[j] == table[j];
      TableFlagsLastWins(init, i);
    }
  }

  /** Writing two entries in turn. */
  lemma TableFlagsOfPair(a: TaskEntry, b: TaskEntry)
    ensures TableFlags([a, b]) == map[a.id := a.done][b.id := b.done]
  {
    assert [a, b][..1] == [a];
    assert [a][..0] == [];
    assert TableFlags([a]) == map[a.id := a.done];
    assert TableFlags([a, b]) == TableFlags([a])[b.id := b.done];
  }

  /** The flag maps FireProcedure's constructor builds. */
  const InitialTasks: TaskMap := map[
    Idle := map[CopvOpen := false],
    HighPress := map[Kbottle := false, CopvEq := false],
    TankHp := map[CopvClose := false, TanksOpen := false],
    Fire := map[FireInit := false]]

  /** The initial maps are what the four tables contribute: each stage holds
      exactly the ids of its table, every one pending. */
  lemma InitialTasksFollowTables()
    ensures InitialTasks.Keys == set s | s in Stages
    ensures forall s :: s in InitialTasks ==> InitialTasks[s] == TableFlags(TableOf(s))
    ensures forall s, k :: s in InitialTasks && k in InitialTasks[s] ==> !InitialTasks[s][k]
  {
    TableFlagsOfTables();
    forall s | s in InitialTasks
      ensures InitialTasks[s] == TableFlags(TableOf(s))
      ensures forall k :: k in InitialTasks[s] ==> !InitialTasks[s][k]
    {
      assert s == Idle || s == HighPress || s == TankHp || s == Fire;
    }
  }

  /** What each of the four tables contributes. */
  lemma TableFlagsOfTables()
    ensures TableFlags(IdleTable) == map[CopvOpen := false]
    ensures TableFlags(HpTable) == map[Kbottle := false, CopvEq := false]
    ensures TableFlags(TankHpTable) == map[CopvClose := false, TanksOpen := false]
    ensures TableFlags(FireTable) == map[FireInit := false]
  {
    TableFlagsOfPair(HpTable[0], HpTable[1]);
    assert HpTable == [HpTable[0], HpTable[1]];
    TableFlagsOfPair(TankHpTable[0], TankHpTable[1]);
    assert TankHpTable == [TankHpTable[0], TankHpTable[1]];
    assert IdleTable[..0] == [];
    assert FireTable[..0] == [];
  }

  /** The flags a map holds for `stage`, or none when it has no entry yet. */
  function StageFlags(tasks: TaskMap, stage: string): Flags {
    if stage in tasks then tasks[stage] else map[]
  }

  /** The ids every query looks up are present: each stage has a map that
      holds at least the ids of its table. */
  ghost predicate Covers(tasks: TaskMap) {
    && Idle in tasks && CopvOpen in tasks[Idle]
    && HighPress in tasks && Kbottle in tasks[HighPress] && CopvEq in tasks[HighPress]
    && TankHp in tasks && CopvClose in tasks[TankHp] && TanksOpen in tasks[TankHp]
    && Fire in tasks && FireInit in tasks[Fire]
  }

  /** Every flag of a stage is set. */
  predicate AllDone(flags: Flags) {
    forall k :: k in flags ==> flags[k]
  }

  /** The rule the four confirmation queries follow: the first task of
      `order` whose flag is still false, or None when all of them are set. */
  function NextTask(flags: Flags, order: seq<string>): (t: Option<string>)
    requires forall i :: 0 <= i < |order| ==> order[i] in flags
    ensures t.None? <==> forall i :: 0 <= i < |order| ==> flags[order[i]]
    ensures t.Some? ==>
      exists i :: 0 <= i < |order| && order[i] == t.value && !flags[t.value] &&
        forall j :: 0 <= j < i ==> flags[order[j]]
    decreases |order|
  {
    if order == [] then None
    else if !flags[order[0]] then Some(order[0])
    else NextTask(flags, order[1..])
  }

  /** changeStatus's effect on the flags. A stage label only restyles its
      header. Any other label is written into the current stage's map BEFORE
      the label widget is looked up, so an unknown id is inserted even though
      that lookup then raises KeyError (which changeStatus swallows). With no
      current stage, tasks[None] raises KeyError first and nothing is written. */
  function Marked(tasks: TaskMap, current: Option<string>, lbl: string, status: bool): (r: TaskMap)
    ensures r.Keys == tasks.Keys
    ensures forall s :: s in tasks && current != Some(s) ==> r[s] == tasks[s]
    ensures lbl in Stages || current.None? ==> r == tasks
    ensures lbl !in Stages && current.Some? && current.value in tasks ==>
      && r[current.value].Keys == tasks[current.value].Keys + {lbl}
      && r[current.value][lbl] == status
      && forall k :: k in tasks[current.value] && k != lbl ==> r[current.value][k] == tasks[current.value][k]
    ensures (current.Some? && current.value in tasks && lbl in tasks[current.value] &&
             tasks[current.value][lbl] == status) ==> r == tasks
    ensures Covers(tasks) ==> Covers(r)
  {
    if lbl !in Stages && current.Some? && current.value in tasks then
      var flags := tasks[current.value];
      assert lbl in flags && flags[lbl] == status ==> flags[lbl := status] == flags;
      assert tasks[current.value := flags] == tasks;
      tasks[current.value := flags[lbl := status]]
    else
      tasks
  }

  /** The queries a stage can be wired to. */
  datatype Confirm = IdleConfirm | HighPressConfirm | TankHpConfirm | FireConfirm

  class FireProcedure {
    /** The stage being worked on; None once the last stage has been left. */
    var currentStage: Option<string>
    var tasks: TaskMap

    ghost predicate Valid()
      reads this
    {
      Covers(tasks)
    }

    /** Each stage holds exactly the ids of its table, every one pending. */
    constructor ()
      ensures Valid()
      ensures currentStage == Some(Idle)
      ensures tasks == InitialTasks
    {
      currentStage := Some(Idle);
      tasks := map[];
      new;
      InitialTasksFollowTables();
      assert TableOf(Idle) == IdleTable && TableOf(HighPress) == HpTable;
      assert TableOf(TankHp) == TankHpTable && TableOf(Fire) == FireTable;
      ghost var empty: Flags := map[];
      assert forall m: Flags :: empty + m == m;
      AddStage(Idle, IdleTable);
      AddStage(HighPress, HpTable);
      AddStage(TankHp, TankHpTable);
      AddStage(Fire, FireTable);
    }

    /** addStage without its widgets: write a table's ids and initial flags
        into the stage's map, creating that map with the first entry. An
        empty table creates no map. */
    method AddStage(name: string, table: seq<TaskEntry>)
      modifies this
      ensures currentStage == old(currentStage)
      ensures tasks == if table == [] then old(tasks)
                       else old(tasks)[name := StageFlags(old(tasks), name) + TableFlags(table)]
    {
      var i := 0;
      while i < |table|
        invariant 0 <= i <= |table|
        invariant currentStage == old(currentStage)
        invariant tasks == if i == 0 then old(tasks)
                           else old(tasks)[name := StageFlags(old(tasks), name) + TableFlags(table[..i])]
      {
        var t := table[i];
        ghost var before := StageFlags(old(tasks), name);
        assert table[..i + 1][..i] == table[..i];
        ghost var merged := before + TableFlags(table[..i + 1]);
        assert merged == (before + TableFlags(table[..i]))[t.id := t.done];
        assert i == 0 ==> before + TableFlags(table[..i]) == before;
        if name in tasks {
          tasks := tasks[name := tasks[name][t.id := t.done]];
        } else {
          tasks := tasks[name := map[t.id := t.done]];
        }
        assert tasks[name] == merged;
        i := i + 1;
      }
      assert table[..|table|] == table;
    }

    /** changeStatus: set the flag of `label` in the current stage. */
    method ChangeStatus(lbl: string, status: bool := true)
      modifies this
      ensures currentStage == old(currentStage)
      ensures tasks == Marked(old(tasks), currentStage, lbl, status)
    {
      if lbl !in Stages && currentStage.Some? && currentStage.value in tasks {
        tasks := tasks[currentStage.value := tasks[currentStage.value][lbl := status]];
      }
    }

    /** idleTasks: COPV_O while it is pending, else NULL. */
    function IdleTasks(): (r: (Option<string>, string))
      reads this
      requires Valid()
      ensures r.0 == NextTask(tasks[Idle], Ids(IdleTable))
    {
      if !tasks[Idle][CopvOpen] then (Some(CopvOpen), "Confirm COPV open/Acceptable leak rate?")
      else (None, "No more tasks, advance stage to continue.")
    }

    /** highPressTasks: KBOTTLE while pending, else COPV_E while pending, else NULL. */
    function HighPressTasks(): (r: (Option<string>, string))
      reads this
      requires Valid()
      ensures r.0 == NextTask(tasks[HighPress], Ids(HpTable))
    {
      if !tasks[HighPress][Kbottle] then (Some(Kbottle), "Confirm K-bottle has been opened?")
      else if !tasks[HighPress][CopvEq] then (Some(CopvEq), "Confirm COPV pressure equalization?")
      else (None, "No more tasks, advance stage to continue.")
    }

    /** tankHighPressTasks: COPV_C while pending, else TANKS while pending, else NULL. */
    function TankHighPressTasks(): (r: (Option<string>, string))
      reads this
      requires Valid()
      ensures r.0 == NextTask(tasks[TankHp], Ids(TankHpTable))
    {
      if !tasks[TankHp][CopvClose] then (Some(CopvClose), "Confirm COPV SV is closed?")
      else if !tasks[TankHp][TanksOpen] then (Some(TanksOpen), "Confirm top 3 SVs open/Acceptable leak rate?")
      else (None, "No more tasks, advance stage to continue.")
    }

    /** fireTasks: FIRE_I while it is pending, else NULL. */
    function FireTasks(): (r: (Option<string>, string))
      reads this
      requires Valid()
      ensures r.0 == NextTask(tasks[Fire], Ids(FireTable))
    {
      if !tasks[Fire][FireInit] then (Some(FireInit), "Confirm begin fire sequence?")
      else (None, "No more tasks.")
    }

    /** Calls the query a stage is wired to. */
    function Confirms(c: Confirm): (Option<string>, string)
      reads this
      requires Valid()
    {
      match c
      case IdleConfirm => IdleTasks()
      case HighPressConfirm => HighPressTasks()
      case TankHpConfirm => TankHighPressTasks()
      case FireConfirm => FireTasks()
    }
  }

  /** StateMachine.State: a stage's configured successor and its query. */
  datatype StageState = StageState(next: Option<string>, confirms: Confirm)

  /** What StateMachine.update gives back: False, the stage just left, or a
      KeyError raised by a lookup. */
  datatype Gate = Blocked | Advanced(last: string) | Raised

  class StateMachine {
    var states: map<string, StageState>
    /** The procedure whose currentStage is this machine's `current`. */
    const procedure: FireProcedure
    const start: Option<string>

    constructor (procedure: FireProcedure)
      ensures this.procedure == procedure
      ensures states == map[]
      ensures start == procedure.currentStage
    {
      this.procedure := procedure;
      states := map[];
      start := procedure.currentStage;
    }

    /** addState: register or replace a stage's successor and query. */
    method AddState(name: string, next: Option<string>, confirms: Confirm)
      modifies this
      ensures states == old(states)[name := StageState(next, confirms)]
    {
      states := states[name := StageState(next, confirms)];
    }

    /** update: move to the configured successor only when every flag of the
        current stage is set; otherwise report Blocked and change nothing. */
    method Update() returns (r: Gate)
      modifies procedure
      ensures procedure.tasks == old(procedure.tasks)
      ensures var cur := old(procedure.currentStage);
        if cur.None? || cur.value !in procedure.tasks then r == Raised
        else if !AllDone(procedure.tasks[cur.value]) then r == Blocked
        else if cur.value !in states then r == Raised
        else r == Advanced(cur.value)
      ensures r.Advanced? ==> procedure.currentStage == states[r.last].next
      ensures !r.Advanced? ==> procedure.currentStage == old(procedure.currentStage)
    {
      var cur := procedure.currentStage;
      if cur.None? || cur.value !in procedure.tasks {
        return Raised;  // tasks[current] raises KeyError
      }
      var flags := procedure.tasks[cur.value];
      var unchecked := flags.Keys;
      while unchecked != {}
        invariant unchecked <= flags.Keys
        invariant forall k :: k in flags && k !in unchecked ==> flags[k]
        decreases unchecked
      {
        var k :| k in unchecked;
        if !flags[k] {
          return Blocked;
        }
        unchecked := unchecked - {k};
      }
      if cur.value !in states {
        return Raised;  // states[current] raises KeyError
      }
      procedure.currentStage := states[cur.value].next;
      r := Advanced(cur.value);
    }
  }

  /** The stage wiring of MainWindow.__init__: the linear next-relation
      IDLE -> HIGH_PRESS -> TANK_HP -> FIRE -> None and each stage's query. */
  const Wiring: map<string, StageState> := map[
    Idle := StageState(Some(HighPress), IdleConfirm),
    HighPress := StageState(Some(TankHp), HighPressConfirm),
    TankHp := StageState(Some(Fire), TankHpConfirm),
    Fire := StageState(None, FireConfirm)]

  /** The wiring follows RocketStates.states in order and ends in None. */
  lemma WiringIsLinear()
    ensures Wiring.Keys == set s | s in Stages
    ensures forall i :: 0 <= i < |Stages| ==>
      Wiring[Stages[i]].next == if i + 1 < |Stages| then Some(Stages[i + 1]) else None
  {
  }

  /** The query order of each stage is the order of its table. */
  lemma IdsOfTables()
    ensures Ids(IdleTable) == [CopvOpen]
    ensures Ids(HpTable) == [Kbottle, CopvEq]
    ensures Ids(TankHpTable) == [CopvClose, TanksOpen]
    ensures Ids(FireTable) == [FireInit]
  {
  }

  /** For a stage whose map holds exactly the ids the query walks through,
      the query offers no task exactly when every flag is set: the gate of
      update and the "no more tasks" answer of the query agree. */
  lemma GateMatchesQuery(flags: Flags, order: seq<string>)
    requires flags.Keys == set k | k in order
    ensures forall i :: 0 <= i < |order| ==> order[i] in flags
    ensures NextTask(flags, order).None? <==> AllDone(flags)
  {
    if NextTask(flags, order).None? {
      forall k | k in flags
        ensures flags[k]
      {
        var i :| 0 <= i < |order| && order[i] == k;
      }
    }
  }

  /** The tasks of a stage not yet confirmed. */
  function PendingSet(flags: Flags): set<string> {
    set k | k in flags && !flags[k]
  }

  /** Progress: confirming the task a query offers removes exactly that
      task from the stage's pending tasks. */
  lemma {:induction false} ConfirmingShrinksPending(flags: Flags, order: seq<string>)
    requires forall i :: 0 <= i < |order| ==> order[i] in flags
    requires NextTask(flags, order).Some?
    ensures var t := NextTask(flags, order).value;
      t in PendingSet(flags) && PendingSet(flags[t := true]) == PendingSet(flags) - {t}
      && |PendingSet(flags[t := true])| == |PendingSet(flags)| - 1
  {
    var t := NextTask(flags, order).value;
    assert t in PendingSet(flags);
    assert PendingSet(flags[t := true]) == PendingSet(flags) - {t};
  }

  /** A stage's flags after k presses of the task button, each confirming
      the task the query offers; a press when nothing is offered changes
      nothing. */
  function Confirmations(flags: Flags, order: seq<string>, k: nat): (r: Flags)
    requires forall i :: 0 <= i < |order| ==> order[i] in flags
    ensures r.Keys == flags.Keys
    decreases k
  {
    if k == 0 then flags
    else match NextTask(flags, order)
      case None => flags
      case Some(t) => Confirmations(flags[t := true], order, k - 1)
  }

  /** No pending task means every flag is set. */
  lemma AllDoneIffNonePending(flags: Flags)
    ensures AllDone(flags) <==> PendingSet(flags) == {}
  {
    if !AllDone(flags) {
      var k :| k in flags && !flags[k];
      assert k in PendingSet(flags);
    }
  }

  /** A stage whose map holds exactly its query's ids, with p tasks
      pending, passes update's gate after k confirmations of offered tasks
      exactly when k >= p: it can be left after p confirmations and no
      sooner. */
  lemma {:induction false} ConfirmationsReachGate(flags: Flags, order: seq<string>, k: nat)
    requires flags.Keys == set x | x in order
    ensures forall i :: 0 <= i < |order| ==> order[i] in flags
    ensures AllDone(Confirmations(flags, order, k)) <==> k >= |PendingSet(flags)|
    decreases k
  {
    GateMatchesQuery(flags, order);
    AllDoneIffNonePending(flags);
    if k > 0 && NextTask(flags, order).Some? {
      var t := NextTask(flags, order).value;
      ConfirmingShrinksPending(flags, order);
      assert flags[t := true].Keys == flags.Keys;
      ConfirmationsReachGate(flags[t := true], order, k - 1);
    }
  }

  /** The task a stage's query offers is one of that stage's ids, never a
      stage name. */
  lemma OfferedTaskIsTaskId(s: string, flags: Flags)
    requires s in Wiring
    requires forall i :: 0 <= i < |Ids(TableOf(s))| ==> Ids(TableOf(s))[i] in flags
    ensures var t := NextTask(flags, Ids(TableOf(s))); t.Some? ==> t.value in flags && t.value !in Stages
  {
    IdsOfTables();
  }

  /** The console of test.py: the procedure, its state machine and the two
      buttons. */
  class MainWindow {
    const procedure: FireProcedure
    const sm: StateMachine

    /** Reachable states: the wiring is in place, the current stage is a
        wired stage or None, and each stage holds exactly its table's ids
        (the buttons only ever mark ids a query offered). */
    ghost predicate Valid()
      reads this, procedure, sm
    {
      && sm.procedure == procedure
      && procedure.Valid()
      && sm.states == Wiring
      && (procedure.currentStage.Some? ==> procedure.currentStage.value in Wiring)
      && procedure.tasks[Idle].Keys == {CopvOpen}
      && procedure.tasks[HighPress].Keys == {Kbottle, CopvEq}
      && procedure.tasks[TankHp].Keys == {CopvClose, TanksOpen}
      && procedure.tasks[Fire].Keys == {FireInit}
    }

    constructor ()
      ensures Valid()
      ensures fresh(procedure) && fresh(sm)
      ensures procedure.currentStage == Some(Idle) && sm.start == Some(Idle)
      ensures procedure.tasks == InitialTasks
    {
      var p := new FireProcedure();
      var m := new StateMachine(p);
      m.AddState(Idle, Some(HighPress), IdleConfirm);
      m.AddState(HighPress, Some(TankHp), HighPressConfirm);
      m.AddState(TankHp, Some(Fire), TankHpConfirm);
      m.AddState(Fire, None, FireConfirm);
      procedure := p;
      sm := m;
    }

    /** The stage's query, by the wiring, names the first pending task of
        its table. */
    lemma WiredQuery(s: string)
      requires Valid() && s in Wiring
      ensures procedure.Confirms(Wiring[s].confirms).0 == NextTask(procedure.tasks[s], Ids(TableOf(s)))
    {
    }

    /** updateStage: ask the machine to advance; on success restyle the stage
        just left (a stage lbl, so no flag changes). The stage advances
        exactly when the query has no task left to offer; once every stage
        has been left, the lookup of tasks[None] raises. */
    method UpdateStage() returns (r: Gate)
      requires Valid()
      modifies procedure
      ensures Valid()
      ensures procedure.tasks == old(procedure.tasks)
      ensures old(procedure.currentStage).None? <==> r == Raised
      ensures old(procedure.currentStage).Some? ==>
        var s := old(procedure.currentStage).value;
        && (r == Blocked <==> NextTask(procedure.tasks[s], Ids(TableOf(s))).Some?)
        && (r.Advanced? ==> r.last == s && procedure.currentStage == Wiring[s].next)
      ensures !r.Advanced? ==> procedure.currentStage == old(procedure.currentStage)
    {
      if procedure.currentStage.Some? {
        var s := procedure.currentStage.value;
        IdsOfTables();
        GateMatchesQuery(procedure.tasks[s], Ids(TableOf(s)));
      }
      r := sm.Update();
      if r.Advanced? {
        procedure.ChangeStatus(r.last);
      }
    }

    /** updateTask: ask the current stage's query for its next task and, when
        the operator confirms (`confirmed` stands for the dialog's answer)
        and a task was offered, mark it complete. Once every stage has been
        left, states[None] raises and None is returned. */
    method UpdateTask(confirmed: bool) returns (prompt: Option<(Option<string>, string)>)
      requires Valid()
      modifies procedure
      ensures Valid()
      ensures procedure.currentStage == old(procedure.currentStage)
      ensures old(procedure.currentStage).None? ==> prompt.None? && procedure.tasks == old(procedure.tasks)
      ensures old(procedure.currentStage).Some? ==>
        var s := old(procedure.currentStage).value;
        var next := NextTask(old(procedure.tasks)[s], Ids(TableOf(s)));
        && prompt.Some? && prompt.value.0 == next
        && procedure.tasks == if confirmed && next.Some?
                              then old(procedure.tasks)[s := old(procedure.tasks)[s][next.value := true]]
                              else old(procedure.tasks)
    {
      if procedure.currentStage.None? {
        return None;
      }
      var s := procedure.currentStage.value;
      WiredQuery(s);
      var q := procedure.Confirms(sm.states[s].confirms);
      prompt := Some(q);
      if confirmed && q.0.Some? {
        OfferedTaskIsTaskId(s, procedure.tasks[s]);
        ghost var flags := procedure.tasks[s];
        procedure.ChangeStatus(q.0.value);
        assert procedure.tasks[s].Keys == flags.Keys;
      }
    }
  }
}
