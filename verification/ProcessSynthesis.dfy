/** The synthesis of one process over all the Supvisors instances (supvisors/process.py). */
module ProcessSynthesis {
  import opened SupvisorsTypes
  import opened ProcessStates

  datatype Info = Info(state: ProcessState, expected: bool, localTime: int, eventTime: int)

  /** `order` is the order in which the keys of `infos` were inserted. */
  datatype Status = Status(
    infos: map<Identifier, Info>,
    order: seq<Identifier>,
    running: set<Identifier>,
    state: ProcessState,
    expectedExit: bool,
    forced: Option<ProcessState>)

  const NEW_STATUS := Status(map[], [], {}, Unknown, true, None)

  predicate Stopped(s: Status) {
    InStoppedStates(s.state)
  }

  function Displayed(s: Status): ProcessState {
    if s.forced.Some? then s.forced.value else s.state
  }

  /** The running state of several instances: RUNNING, then BACKOFF, STARTING and STOPPING. */
  function RunningState(states: set<ProcessState>): ProcessState {
    if ProcessState.Running in states then ProcessState.Running
    else if Backoff in states then Backoff
    else if ProcessState.Starting in states then ProcessState.Starting
    else if ProcessState.Stopping in states then ProcessState.Stopping
    else Unknown
  }

  function StateAt(s: Status, i: Identifier): ProcessState {
    if i in s.infos then s.infos[i].state else Unknown
  }

  /** The first of the entries that have been refreshed last. */
  function MostRecent(infos: map<Identifier, Info>, order: seq<Identifier>): (r: Identifier)
    requires order != [] && forall i :: i in order ==> i in infos
    ensures r in order
    decreases |order|
  {
    if |order| == 1 then order[0]
    else
      var n := |order| - 1;
      var best := MostRecent(infos, order[..n]);
      if infos[order[n]].localTime > infos[best].localTime then order[n] else best
  }

  predicate AnyStopping(s: Status) {
    exists i :: i in s.infos && s.infos[i].state.Stopping?
  }

  /** The dictionary and its keys. */
  ghost predicate Keyed(s: Status) {
    && (forall i :: i in s.order <==> i in s.infos)
    && (forall a, b :: 0 <= a < b < |s.order| ==> s.order[a] != s.order[b])
  }

  /** The set of running instances after new information. */
  function RunningAfter(s: Status, i: Identifier): set<Identifier> {
    if InStoppedStates(StateAt(s, i)) then s.running - {i}
    else if !InRunningStates(StateAt(s, i)) then s.running
    else if Stopped(s) then {i}
    else s.running + {i}
  }

  /** The synthetic state for a set of running instances. */
  ghost function Synthesis(s: Status): (ProcessState, bool)
    requires Keyed(s) && s.infos != map[] && forall i :: i in s.running ==> i in s.infos
  {
    if |s.running| > 1 then (RunningState(set i | i in s.running :: StateAt(s, i)), s.expectedExit)
    else if s.running != {} then
      var i :| i in s.running;
      (s.infos[i].state, true)
    else if AnyStopping(s) then (ProcessState.Stopping, true)
    else
      assert s.order != [];
      var i := MostRecent(s.infos, s.order);
      (s.infos[i].state, s.infos[i].expected)
  }

  /** update_status: the running set, then the synthetic state. */
  ghost function AfterStatus(s: Status, i: Identifier): Status
    requires Keyed(s) && i in s.infos && forall j :: j in s.running ==> j in s.infos
  {
    var s' := s.(running := RunningAfter(s, i));
    s'.(state := Synthesis(s').0, expectedExit := Synthesis(s').1)
  }

  ghost predicate Usable(s: Status) {
    Keyed(s) && forall j :: j in s.running ==> j in s.infos
  }

  /** A forced state is kept when the information added is STOPPED, the default in Supervisor. */
  ghost function AfterAdd(s: Status, i: Identifier, info: Info): Status
    requires Usable(s)
  {
    var s' := s.(infos := s.infos[i := info], order := if i in s.infos then s.order else s.order + [i],
                 forced := if info.state.Stopped? then s.forced else None);
    AfterStatus(s', i)
  }

  ghost function AfterUpdate(s: Status, i: Identifier, info: Info): Status
    requires Usable(s) && i in s.infos
  {
    AfterStatus(s.(infos := s.infos[i := info], forced := None), i)
  }

  /** The instance is lost: FATAL if the process was running there. */
  ghost function AfterInvalidation(s: Status, i: Identifier, now: int): Status
    requires Usable(s)
  {
    if i in s.running then AfterUpdate(s, i, Info(Fatal, false, now, s.infos[i].eventTime)) else s
  }

  function Without(order: seq<Identifier>, i: Identifier): (r: seq<Identifier>)
    decreases |order|
  {
    if order == [] then []
    else Without(order[..|order| - 1], i) + if order[|order| - 1] == i then [] else [order[|order| - 1]]
  }

  /** The synthetic state is not evaluated again. */
  function AfterRemoval(s: Status, i: Identifier): Status
    requires i in s.infos
  {
    s.(infos := s.infos - {i}, order := Without(s.order, i))
  }

  /** A forced event is dismissed when an event has been received since. */
  function AfterForced(s: Status, i: Identifier, state: ProcessState, time: int): Status {
    if i in s.infos && s.infos[i].eventTime > time then s else s.(forced := Some(state))
  }

  // ---- The synthesis invariant ----

  ghost predicate RunningIsRight(s: Status) {
    && (forall i :: i in s.infos && InRunningStates(s.infos[i].state) ==> i in s.running)
    && (forall i :: i in s.running ==> i in s.infos && (InRunningStates(s.infos[i].state) || s.infos[i].state.Stopping?))
  }

  ghost predicate StoppedIsRight(s: Status) {
    Stopped(s) <==> s.running == {} && !AnyStopping(s)
  }

  ghost predicate Consistent(s: Status) {
    Keyed(s) && RunningIsRight(s) && StoppedIsRight(s)
  }

  /** Replacing the running set, as done when the process is stopped, is adding to it. */
  lemma {:induction false} ReplacingIsAdding(s: Status, i: Identifier)
    requires Consistent(s)
    ensures Stopped(s) ==> {i} == s.running + {i}
  {
  }

  lemma {:induction false} TwoElements(r: set<Identifier>)
    ensures |r| > 1 <==> exists a, b :: a in r && b in r && a != b
    ensures |r| <= 1 && r != {} ==> exists a :: r == {a}
  {
    if r != {} {
      var a :| a in r;
      assert |r - {a}| == |r| - 1;
      if |r| > 1 {
        var b :| b in r - {a};
      } else {
        assert r == {a};
      }
    }
  }

  lemma {:induction false} RunningSynthesis(s: Status)
    requires Keyed(s) && RunningIsRight(s) && s.running != {}
    ensures !InStoppedStates(Synthesis(s).0)
    ensures RunningState(set i | i in s.running :: StateAt(s, i)) != Unknown
  {
    TwoElements(s.running);
    var i :| i in s.running;
    assert StateAt(s, i) in (set i | i in s.running :: StateAt(s, i));
  }

  lemma {:induction false} StoppedSynthesis(s: Status)
    requires Keyed(s) && s.infos != map[] && RunningIsRight(s) && s.running == {}
    ensures InStoppedStates(Synthesis(s).0) <==> !AnyStopping(s)
  {
    if !AnyStopping(s) {
      var i :| i in s.infos;
      assert i in s.order;
      assert MostRecent(s.infos, s.order) in s.infos;
    }
  }

  /** The synthetic state is in the stopped states exactly when nothing runs or stops, and the
      choice among several running states never falls back to UNKNOWN. */
  lemma {:induction false} SynthesisIsRight(s: Status)
    requires Keyed(s) && s.infos != map[] && RunningIsRight(s)
    ensures InStoppedStates(Synthesis(s).0) <==> s.running == {} && !AnyStopping(s)
    ensures |s.running| > 1 ==> RunningState(set i | i in s.running :: StateAt(s, i)) != Unknown
  {
    if s.running != {} {
      RunningSynthesis(s);
    } else {
      StoppedSynthesis(s);
    }
  }

  /** The invariant is kept by new information on an instance, provided that it held before. */
  lemma {:induction false} StatusKeepsConsistent(s: Status, s0: Status, i: Identifier, info: Info)
    requires Consistent(s0) && Keyed(s) && s.infos == s0.infos[i := info] && s.running == s0.running && s.state == s0.state
    ensures Consistent(AfterStatus(s, i))
  {
    var s' := s.(running := RunningAfter(s, i));
    ReplacingIsAdding(s0, i);
    assert RunningIsRight(s');
    SynthesisIsRight(s');
    var r := AfterStatus(s, i);
    assert r.running == s'.running && r.infos == s'.infos;
  }

  lemma {:induction false} AddKeepsConsistent(s: Status, i: Identifier, info: Info)
    requires Consistent(s)
    ensures Consistent(AfterAdd(s, i, info))
  {
    var s' := s.(infos := s.infos[i := info], order := if i in s.infos then s.order else s.order + [i],
                 forced := if info.state.Stopped? then s.forced else None);
    assert Keyed(s');
    StatusKeepsConsistent(s', s, i, info);
  }

  lemma {:induction false} UpdateKeepsConsistent(s: Status, i: Identifier, info: Info)
    requires Consistent(s) && i in s.infos
    ensures Consistent(AfterUpdate(s, i, info))
  {
    var s' := s.(infos := s.infos[i := info], forced := None);
    assert Keyed(s');
    StatusKeepsConsistent(s', s, i, info);
  }

  lemma {:induction false} WithoutHas(order: seq<Identifier>, i: Identifier)
    ensures forall j :: j in Without(order, i) <==> j in order && j != i
    decreases |order|
  {
    if order != [] {
      var n := |order| - 1;
      WithoutHas(order[..n], i);
      assert forall j :: j in order <==> j in order[..n] || j == order[n];
    }
  }

  lemma {:induction false} WithoutDiffers(order: seq<Identifier>, i: Identifier)
    requires forall a, b :: 0 <= a < b < |order| ==> order[a] != order[b]
    ensures forall a, b :: 0 <= a < b < |Without(order, i)| ==> Without(order, i)[a] != Without(order, i)[b]
    decreases |order|
  {
    if order != [] {
      var n := |order| - 1;
      var r := Without(order[..n], i);
      WithoutDiffers(order[..n], i);
      WithoutHas(order[..n], i);
      forall a | 0 <= a < |r| ensures r[a] != order[n] {
        assert r[a] in order[..n];
      }
    }
  }

  /** Another entry tells that the process is not stopped. */
  ghost predicate StopsElsewhere(s: Status, i: Identifier) {
    s.running != {} || exists j :: j in s.infos && j != i && s.infos[j].state.Stopping?
  }

  /** The removal of an entry keeps the invariant exactly when the process does not run there, and
      either the entry is stopped or another one tells that the process is not. */
  lemma {:induction false} RemovalKeepsConsistent(s: Status, i: Identifier)
    requires Consistent(s) && i in s.infos
    ensures Consistent(AfterRemoval(s, i)) <==>
            i !in s.running && (InStoppedStates(s.infos[i].state) || StopsElsewhere(s, i))
  {
    WithoutHas(s.order, i);
    WithoutDiffers(s.order, i);
    var s' := AfterRemoval(s, i);
    assert Keyed(s');
    assert RunningIsRight(s') <==> i !in s.running;
    assert AnyStopping(s') <==> exists j :: j in s.infos && j != i && s.infos[j].state.Stopping?;
  }

  // ---- What the synthetic state is ----

  ghost predicate SomeRunningIn(s: Status, state: ProcessState) {
    exists i :: i in s.running && StateAt(s, i) == state
  }

  /** With running instances, RUNNING comes before BACKOFF, STARTING and STOPPING. */
  lemma {:induction false} RunningPriority(s: Status)
    requires Keyed(s) && s.infos != map[] && RunningIsRight(s) && s.running != {}
    ensures var state := Synthesis(s).0;
            && (state.Running? <==> SomeRunningIn(s, ProcessState.Running))
            && (state.Backoff? <==> SomeRunningIn(s, Backoff) && !SomeRunningIn(s, ProcessState.Running))
            && (state.Starting? <==> SomeRunningIn(s, ProcessState.Starting)
                                     && !SomeRunningIn(s, Backoff) && !SomeRunningIn(s, ProcessState.Running))
            && (state.Stopping? <==> forall i :: i in s.running ==> StateAt(s, i).Stopping?)
  {
    TwoElements(s.running);
    var states := set i | i in s.running :: StateAt(s, i);
    var i :| i in s.running;
    assert StateAt(s, i) in states;
    if |s.running| == 1 {
      assert s.running == {i};
      assert Synthesis(s).0 == s.infos[i].state;
    } else {
      assert forall t :: t in states <==> SomeRunningIn(s, t);
    }
  }

  /** `n` is the place of the first of the entries that have been refreshed last. */
  ghost predicate IsLatest(infos: map<Identifier, Info>, order: seq<Identifier>, n: nat) {
    && n < |order| && (forall i :: i in order ==> i in infos)
    && (forall l :: 0 <= l < |order| ==> infos[order[l]].localTime <= infos[order[n]].localTime)
    && (forall l :: 0 <= l < n ==> infos[order[l]].localTime < infos[order[n]].localTime)
  }

  lemma {:induction false} MostRecentIsLatest(infos: map<Identifier, Info>, order: seq<Identifier>) returns (n: nat)
    requires order != [] && forall i :: i in order ==> i in infos
    ensures IsLatest(infos, order, n) && MostRecent(infos, order) == order[n]
    decreases |order|
  {
    n := 0;
    if |order| > 1 {
      var last := |order| - 1;
      n := MostRecentIsLatest(infos, order[..last]);
      if infos[order[last]].localTime > infos[order[n]].localTime {
        n := last;
      }
    }
  }

  /** Without any running instance, the process is STOPPING if it stops somewhere; otherwise it has the
      state, and the expectation, of the entry that has been refreshed last. */
  lemma {:induction false} StoppedState(s: Status) returns (n: nat)
    requires Keyed(s) && s.infos != map[] && s.running == {}
    ensures IsLatest(s.infos, s.order, n)
    ensures Synthesis(s) == if AnyStopping(s) then (ProcessState.Stopping, true)
                            else (s.infos[s.order[n]].state, s.infos[s.order[n]].expected)
  {
    var i :| i in s.infos;
    assert i in s.order;
    n := MostRecentIsLatest(s.infos, s.order);
  }

  /** An exit is expected as long as the process runs on one instance or stops; it is left as it was when
      it runs on several ones. */
  lemma {:induction false} ExpectedExactly(s: Status)
    requires Keyed(s) && s.infos != map[] && RunningIsRight(s) && (s.running != {} || AnyStopping(s))
    ensures Synthesis(s).1 == if exists a, b :: a in s.running && b in s.running && a != b then s.expectedExit else true
  {
    TwoElements(s.running);
  }

  /** A forced state is taken exactly when no later event is known from its instance. */
  lemma {:induction false} ForcedExactly(s: Status, i: Identifier, state: ProcessState, time: int)
    ensures AfterForced(s, i, state, time).forced ==
            if i in s.infos && time < s.infos[i].eventTime then s.forced else Some(state)
  {
  }

  /** New information is always followed by the evaluation. */
  lemma {:induction false} EvaluatedAfterNews(s: Status, i: Identifier, info: Info)
    requires Consistent(s)
    ensures var s' := AfterAdd(s, i, info);
            s'.state == Synthesis(s'.(state := s.state, expectedExit := s.expectedExit)).0 && Consistent(s')
    ensures i in s.infos ==>
              var s' := AfterUpdate(s, i, info);
              s'.state == Synthesis(s'.(state := s.state, expectedExit := s.expectedExit)).0 && Consistent(s')
  {
    AddKeepsConsistent(s, i, info);
    if i in s.infos {
      UpdateKeepsConsistent(s, i, info);
    }
  }

  /** A forced state is displayed until information other than STOPPED is loaded, or any event comes
      from an instance that is known. */
  lemma {:induction false} ForcedUntilNews(s: Status, op: Op)
    requires Consistent(s) && s.forced.Some? && !op.Force?
    ensures Displayed(Perform(s, op)) ==
            if (op.Add? && !op.info.state.Stopped?) || (op.Update? && op.i in s.infos) || (op.Invalidate? && op.i in s.running)
            then Perform(s, op).state else s.forced.value
  {
  }

  // ---- Runs ----

  datatype Op =
    | Add(i: Identifier, info: Info)
    | Update(i: Identifier, info: Info)
    | Invalidate(i: Identifier, now: int)
    | Remove(i: Identifier)
    | Force(i: Identifier, state: ProcessState, time: int)

  /** An event about an unknown instance raises KeyError, before any change. */
  ghost function Perform(s: Status, op: Op): Status
    requires Consistent(s)
  {
    match op
    case Add(i, info) => AfterAdd(s, i, info)
    case Update(i, info) => if i in s.infos then AfterUpdate(s, i, info) else s
    case Invalidate(i, now) => AfterInvalidation(s, i, now)
    case Remove(i) => if i in s.infos then AfterRemoval(s, i) else s
    case Force(i, state, time) => AfterForced(s, i, state, time)
  }

  /** Only stopped entries are removed. */
  predicate Expected(s: Status, op: Op) {
    op.Remove? && op.i in s.infos ==> InStoppedStates(s.infos[op.i].state)
  }

  lemma {:induction false} PerformKeepsConsistent(s: Status, op: Op)
    requires Consistent(s) && Expected(s, op)
    ensures Consistent(Perform(s, op))
  {
    match op
    case Add(i, info) => AddKeepsConsistent(s, i, info);
    case Update(i, info) =>
      if i in s.infos {
        UpdateKeepsConsistent(s, i, info);
      }
    case Invalidate(i, now) =>
      if i in s.running {
        UpdateKeepsConsistent(s, i, Info(Fatal, false, now, s.infos[i].eventTime));
      }
    case Remove(i) =>
      if i in s.infos {
        RemovalKeepsConsistent(s, i);
      }
    case Force(_, _, _) =>
  }

  /** The states that a run goes through. */
  ghost predicate IsRun(states: seq<Status>, ops: seq<Op>) {
    && |states| == |ops| + 1 && states[0] == NEW_STATUS
    && forall k :: 0 <= k < |ops| ==> Follows(states, ops, k)
  }

  ghost predicate Follows(states: seq<Status>, ops: seq<Op>, k: nat)
    requires k + 1 < |states| && k < |ops|
  {
    Consistent(states[k]) ==> Expected(states[k], ops[k]) && states[k + 1] == Perform(states[k], ops[k])
  }

  /** The invariant holds over every run. */
  lemma {:induction false} RunKeepsConsistent(states: seq<Status>, ops: seq<Op>, k: nat)
    requires IsRun(states, ops) && k <= |ops|
    ensures Consistent(states[k])
    decreases k
  {
    if k > 0 {
      RunKeepsConsistent(states, ops, k - 1);
      assert Follows(states, ops, k - 1);
      PerformKeepsConsistent(states[k - 1], ops[k - 1]);
    }
  }

  /** Over every run: replacing the running set of a stopped process by one instance is adding this
      instance, and the choice among the running states never falls back to UNKNOWN. */
  lemma {:induction false} RunningIsNeverUnknown(states: seq<Status>, ops: seq<Op>, k: nat)
    requires IsRun(states, ops) && k <= |ops|
    ensures var s := states[k];
            && (Stopped(s) ==> forall i :: {i} == s.running + {i})
            && (s.running != {} ==> RunningState(set i | i in s.running :: StateAt(s, i)) != Unknown)
  {
    RunKeepsConsistent(states, ops, k);
    var s := states[k];
    if s.running != {} {
      var i :| i in s.running;
      assert StateAt(s, i) in (set i | i in s.running :: StateAt(s, i));
    }
  }

  // ---- The running set, from the history of each instance ----

  /** What one instance has reported: its last state, and if the process is there. */
  datatype Report = Unreported | Reported(state: ProcessState, present: bool)

  function Present(before: Report, state: ProcessState): bool {
    InRunningStates(state) || (!InStoppedStates(state) && before.Reported? && before.present)
  }

  function ReportAfter(before: Report, i: Identifier, op: Op): Report {
    if op.i != i then before
    else match op
      case Add(_, info) => Reported(info.state, Present(before, info.state))
      case Update(_, info) => if before.Reported? then Reported(info.state, Present(before, info.state)) else before
      case Invalidate(_, _) => if before.Reported? && before.present then Reported(Fatal, false) else before
      case Remove(_) => Unreported
      case Force(_, _, _) => before
  }

  /** It only depends on what this instance has sent. */
  function History(i: Identifier, ops: seq<Op>): Report
    decreases |ops|
  {
    if ops == [] then Unreported else ReportAfter(History(i, ops[..|ops| - 1]), i, ops[|ops| - 1])
  }

  ghost predicate Matches(s: Status, i: Identifier, r: Report) {
    && (i in s.infos <==> r.Reported?)
    && (r.Reported? ==> s.infos[i].state == r.state && (i in s.running <==> r.present))
  }

  /** The set of running instances after a new state, once replacing is known to be adding. */
  function RunningWith(running: set<Identifier>, i: Identifier, state: ProcessState): set<Identifier> {
    if InStoppedStates(state) then running - {i} else if InRunningStates(state) then running + {i} else running
  }

  lemma {:induction false} UpdateChanges(s: Status, i: Identifier, info: Info)
    requires Consistent(s) && i in s.infos
    ensures AfterUpdate(s, i, info).infos == s.infos[i := info]
    ensures AfterUpdate(s, i, info).running == RunningWith(s.running, i, info.state)
  {
    ReplacingIsAdding(s, i);
  }

  /** What an operation does to the entries and to the running set. */
  lemma {:induction false} PerformChanges(s: Status, op: Op)
    requires Consistent(s)
    ensures var s' := Perform(s, op);
            match op
            case Add(i, info) => s'.infos == s.infos[i := info] && s'.running == RunningWith(s.running, i, info.state)
            case Update(i, info) =>
              if i in s.infos then s'.infos == s.infos[i := info] && s'.running == RunningWith(s.running, i, info.state)
              else s' == s
            case Invalidate(i, now) =>
              if i in s.running then
                s'.infos == s.infos[i := Info(Fatal, false, now, s.infos[i].eventTime)] && s'.running == s.running - {i}
              else s' == s
            case Remove(i) => s'.infos == s.infos - {i} && s'.running == s.running
            case Force(_, _, _) => s'.infos == s.infos && s'.running == s.running
  {
    match op
    case Add(i, info) =>
    case Update(i, info) =>
      if i in s.infos {
        UpdateChanges(s, i, info);
      }
    case Invalidate(i, now) =>
      if i in s.running {
        UpdateChanges(s, i, Info(Fatal, false, now, s.infos[i].eventTime));
      }
    case Remove(i) => assert i !in s.infos ==> s.infos - {i} == s.infos;
    case Force(_, _, _) =>
  }

  lemma {:induction false} PerformElsewhere(s: Status, op: Op, i: Identifier)
    requires Consistent(s) && op.i != i
    ensures var s' := Perform(s, op);
            && (i in s'.infos <==> i in s.infos) && (i in s.infos ==> s'.infos[i] == s.infos[i])
            && (i in s'.running <==> i in s.running)
  {
    PerformChanges(s, op);
  }

  lemma {:induction false} NewsMatches(s: Status, op: Op, r: Report)
    requires Consistent(s) && Matches(s, op.i, r) && (op.Add? || op.Update?)
    ensures Matches(Perform(s, op), op.i, ReportAfter(r, op.i, op))
  {
    PerformChanges(s, op);
  }

  lemma {:induction false} InvalidationMatches(s: Status, op: Op, r: Report)
    requires Consistent(s) && Matches(s, op.i, r) && op.Invalidate?
    ensures Matches(Perform(s, op), op.i, ReportAfter(r, op.i, op))
  {
    PerformChanges(s, op);
  }

  lemma {:induction false} RemovalMatches(s: Status, op: Op, r: Report)
    requires Consistent(s) && Expected(s, op) && Matches(s, op.i, r) && op.Remove?
    ensures Matches(Perform(s, op), op.i, ReportAfter(r, op.i, op))
  {
  }

  lemma {:induction false} PerformMatches(s: Status, op: Op, i: Identifier, r: Report)
    requires Consistent(s) && Expected(s, op) && Matches(s, i, r)
    ensures Matches(Perform(s, op), i, ReportAfter(r, i, op))
  {
    if op.i != i {
      PerformElsewhere(s, op, i);
    } else if op.Add? || op.Update? {
      NewsMatches(s, op, r);
    } else if op.Invalidate? {
      InvalidationMatches(s, op, r);
    } else if op.Remove? {
      RemovalMatches(s, op, r);
    }
  }

  /** Over every run, an instance is among the running ones exactly when its own history says so:
      the last state it reported, STOPPING apart, is a running one. */
  lemma {:induction false} RunningFromHistories(states: seq<Status>, ops: seq<Op>, k: nat, i: Identifier)
    requires IsRun(states, ops) && k <= |ops|
    ensures Matches(states[k], i, History(i, ops[..k]))
    ensures i in states[k].running <==> History(i, ops[..k]).Reported? && History(i, ops[..k]).present
    decreases k
  {
    RunKeepsConsistent(states, ops, k);
    if k > 0 {
      RunningFromHistories(states, ops, k - 1, i);
      RunKeepsConsistent(states, ops, k - 1);
      assert Follows(states, ops, k - 1);
      assert ops[..k][..k - 1] == ops[..k - 1];
      PerformMatches(states[k - 1], ops[k - 1], i, History(i, ops[..k - 1]));
    }
  }

  // ---- The loss of an instance ----

  /** running_on: the process runs on an instance. */
  predicate RunsOn(s: Status, i: Identifier) {
    InRunningStates(s.state) && i in s.running
  }

  /** When an instance is lost, only the processes that run on it are invalidated. */
  ghost function AfterLoss(s: Status, i: Identifier, now: int): Status
    requires Usable(s)
  {
    if RunsOn(s, i) then AfterInvalidation(s, i, now) else s
  }

  lemma {:induction false} InvalidationStopsExactly(s: Status, i: Identifier, now: int)
    requires Consistent(s)
    ensures Stopped(AfterInvalidation(s, i, now)) <==>
            s.running <= {i} && forall j :: j in s.infos && s.infos[j].state.Stopping? ==> j == i && i in s.running
  {
    var op := Invalidate(i, now);
    PerformChanges(s, op);
    PerformKeepsConsistent(s, op);
    var s' := Perform(s, op);
    if i in s.running {
      assert s.running <= {i} <==> s'.running == {};
      assert forall j :: j in s'.infos <==> j in s.infos;
      assert forall j :: j in s.infos && j != i ==> s'.infos[j] == s.infos[j];
    }
  }

  predicate StopsOnlyOn(s: Status, i: Identifier) {
    forall j :: j in s.infos && s.infos[j].state.Stopping? ==> j == i
  }

  /** After the loss of an instance, the process is stopped exactly when it was already, or when its
      state was a running one, it ran nowhere else, and it was not stopping elsewhere. A process
      that was stopping on the lost instance is left as it is. */
  lemma {:induction false} LossStopsExactly(s: Status, i: Identifier, now: int)
    requires Consistent(s)
    ensures Stopped(AfterLoss(s, i, now)) <==>
            Stopped(s) || (InRunningStates(s.state) && s.running == {i} && StopsOnlyOn(s, i))
    ensures Stopped(s) <==> s.running == {} && !AnyStopping(s)
    ensures Consistent(AfterLoss(s, i, now))
  {
    if RunsOn(s, i) {
      InvalidationStopsExactly(s, i, now);
      PerformKeepsConsistent(s, Invalidate(i, now));
      assert s.running <= {i} <==> s.running == {i};
    }
  }

  /** The state of a process that is stopping on its only instance. */
  lemma {:induction false} StoppingEverywhere(s: Status, i: Identifier, info: Info)
    requires Consistent(s) && s.infos.Keys == {i} && s.running == {i} && info.state.Stopping?
    ensures AfterUpdate(s, i, info).state.Stopping?
  {
    var s' := s.(infos := s.infos[i := info], forced := None);
    assert RunningAfter(s', i) == {i};
    OneInstanceState(s'.(running := {i}), i);
  }

  /** A process that was stopping when its only instance is lost: it stays so, although invalidating
      it would have stopped it. */
  lemma {:induction false} StoppingSurvivesLoss(i: Identifier, started: Info, stopping: Info, now: int) returns (states: seq<Status>)
    requires started.state.Running? && stopping.state.Stopping?
    ensures IsRun(states, [Add(i, started), Update(i, stopping)])
    ensures var s := states[2];
            && Consistent(s) && s.infos.Keys == {i} && s.running == {i} && AfterLoss(s, i, now) == s && !Stopped(s)
            && Stopped(AfterInvalidation(s, i, now))
  {
    var s1 := Perform(NEW_STATUS, Add(i, started));
    AddKeepsConsistent(NEW_STATUS, i, started);
    PerformChanges(NEW_STATUS, Add(i, started));
    var s2 := Perform(s1, Update(i, stopping));
    UpdateKeepsConsistent(s1, i, stopping);
    PerformChanges(s1, Update(i, stopping));
    states := [NEW_STATUS, s1, s2];
    StoppingEverywhere(s1, i, stopping);
    InvalidationStopsExactly(s2, i, now);
  }

  /** The state given by the evaluation when there is one running instance. */
  lemma {:induction false} OneInstanceState(s: Status, i: Identifier)
    requires Keyed(s) && s.infos != map[] && s.running == {i} && i in s.infos
    ensures Synthesis(s).0 == s.infos[i].state
  {
    assert |s.running| == 1;
  }

  /** Neither is a process stopped that was loaded as STOPPING: it is in no running set. */
  lemma {:induction false} LoadedStoppingSurvivesLoss(i: Identifier, info: Info, now: int) returns (states: seq<Status>)
    requires info.state.Stopping?
    ensures IsRun(states, [Add(i, info)])
    ensures var s := states[1];
            && Consistent(s) && s.infos.Keys == {i} && s.running == {}
            && AfterLoss(s, i, now) == AfterInvalidation(s, i, now) == s && !Stopped(s)
  {
    var s1 := Perform(NEW_STATUS, Add(i, info));
    AddKeepsConsistent(NEW_STATUS, i, info);
    PerformChanges(NEW_STATUS, Add(i, info));
    states := [NEW_STATUS, s1];
    assert s1.infos[i].state.Stopping?;
  }
}
