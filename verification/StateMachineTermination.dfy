/** The loop that transitions as much as possible ends, whatever the clock and the jobs do,
    as long as no event comes in. */
module StateMachineTermination {
  import opened SupvisorsTypes
  import opened StateModes
  import opened StateMachine

  // ---- Instances that an evaluation has still to acknowledge ----

  function Pending(k: Config, v: Views): set<Identifier>
    requires k.local in v
  {
    FailedIn(k, v) + CheckedIn(k, v)
  }

  lemma {:induction false} OneAcknowledged(k: Config, v: Views, i: Identifier, s: InstanceState)
    requires ViewsValid(k.local, v) && i in v && !s.Failed? && !s.Checked?
    ensures var w := WithInstanceState(k.local, v, i, s);
            FailedIn(k, w) == FailedIn(k, v) - {i} && CheckedIn(k, w) == CheckedIn(k, v) - {i}
  {
    var w := WithInstanceState(k.local, v, i, s);
    assert w[k.local].instanceStates == v[k.local].instanceStates[i := s];
  }

  lemma {:induction false} FailedAcknowledged(k: Config, v: Views, order: seq<Identifier>)
    requires ViewsValid(k.local, v) && forall i :: i in order ==> i in v
    ensures FailedIn(k, WithoutFailed(k, v, order)) == set i | i in FailedIn(k, v) && i !in order
    ensures CheckedIn(k, WithoutFailed(k, v, order)) == CheckedIn(k, v)
    ensures (forall i :: i in order ==> i !in FailedIn(k, v)) ==> WithoutFailed(k, v, order) == v
    decreases |order|
  {
    if order != [] {
      var i := order[0];
      var v' := if InstanceStateOf(k, v, i).Failed? then WithInstanceState(k.local, v, i, FencedState(k, v, i)) else v;
      OneAcknowledged(k, v, i, FencedState(k, v, i));
      FailedAcknowledged(k, v', order[1..]);
      assert forall j :: j in order <==> j == i || j in order[1..];
    }
  }

  lemma {:induction false} CheckedAcknowledged(k: Config, v: Views, order: seq<Identifier>)
    requires ViewsValid(k.local, v) && forall i :: i in order ==> i in v
    ensures CheckedIn(k, WithoutChecked(k, v, order)) == set i | i in CheckedIn(k, v) && i !in order
    ensures FailedIn(k, WithoutChecked(k, v, order)) == FailedIn(k, v)
    ensures (forall i :: i in order ==> i !in CheckedIn(k, v)) ==> WithoutChecked(k, v, order) == v
    decreases |order|
  {
    if order != [] {
      var i := order[0];
      var v' := if InstanceStateOf(k, v, i).Checked? then WithInstanceState(k.local, v, i, Running) else v;
      OneAcknowledged(k, v, i, Running);
      CheckedAcknowledged(k, v', order[1..]);
      assert forall j :: j in order <==> j == i || j in order[1..];
    }
  }

  /** Either some instance is acknowledged, or nothing changes. */
  lemma {:induction false} InstancesChecked(k: Config, c: Fsm, e: Env)
    requires FsmValid(k, c)
    ensures var c' := CheckInstances(k, c, e);
            || Pending(k, c'.views) < Pending(k, c.views)
            || (&& c' == c.(lost := {}) && FailedIn(k, c.views) == {} && !NewInstances(k, c)
                && (!State(k, c.views).Distribution? ==> CheckedIn(k, c.views) == {}))
    ensures NewInstances(k, c) ==> Pending(k, CheckInstances(k, c, e).views) < Pending(k, c.views)
  {
    var v := WithoutFailed(k, c.views, k.order);
    FailedAcknowledged(k, c.views, k.order);
    CheckedAcknowledged(k, v, k.order);
    assert FailedIn(k, v) == {};
    if State(k, c.views).Distribution? {
      if FailedIn(k, c.views) == {} {
        assert v == c.views;
      } else {
        var i :| i in FailedIn(k, c.views);
        assert i !in Pending(k, v);
      }
    } else {
      var w := WithoutChecked(k, v, k.order);
      assert CheckedIn(k, w) == {};
      assert Pending(k, w) == {};
      if Pending(k, c.views) == {} {
        assert w == v == c.views;
      }
    }
  }

  // ---- Options that cannot make SYNCHRONIZATION and ELECTION oscillate ----

  /** A condition that ends SYNCHRONIZATION excludes the failure that comes back to it. */
  predicate Safe(k: Config) {
    k.strategy.Resync? && !k.user ==>
      && (k.timeout && (k.core || k.strict || k.list) ==> k.Known() == {k.local} && (k.core ==> k.Core() != {}))
      && (k.core && k.strict ==> k.Core() != {} && k.Core() <= k.initial)
      && (k.core && k.list ==> k.Core() != {})
  }

  ghost predicate Resyncs(k: Config, v: Views)
    requires ViewsValid(k.local, v)
  {
    k.strategy.Resync? && FailureSeen(k, StableIdentifiers(k.local, v), {})
  }

  lemma {:induction false} StableContainsLocal(k: Config, v: Views)
    requires ViewsValid(k.local, v) && v.Keys == k.Known() && LocalRunning(k, v)
    ensures var s := StableIdentifiers(k.local, v);
            (s == {} || k.local in s) && s <= k.Known() && (k.Known() == {k.local} ==> s == {k.local})
  {
    var s := StableIdentifiers(k.local, v);
    assert k.local in Peers(k.local, v);
    if s != {} {
      assert AgreedOn(k.local, v, s);
      assert s == StableRunning(v[k.local].instanceStates);
    }
    if k.Known() == {k.local} {
      assert AgreedOn(k.local, v, {k.local});
    }
  }

  lemma {:induction false} FullSubset(a: set<Identifier>, b: set<Identifier>)
    requires a <= b && |a| == |b|
    ensures a == b
  {
    assert b == a + (b - a);
    assert |b - a| == 0;
  }

  /** The instances that the first option set, in the order core, strict and list, expects. */
  function Expected(k: Config): set<Identifier> {
    if k.core then k.Core() else if k.strict then k.initial else if k.list then k.Known() else {}
  }

  predicate Expects(k: Config) {
    k.core || k.strict || k.list
  }

  /** Past SYNCHRONIZATION and without the USER option, a strategy other than CONTINUE takes over
      exactly when the expected instances are not all among those that are stable and running. */
  lemma {:induction false} StrategyAppliesExactly(k: Config, c: Fsm)
    requires FsmValid(k, c) && LocalRunning(k, c.views) && !k.user
    ensures var s := StableIdentifiers(k.local, c.views);
            SynchronizedCheck(k, c).Some? <==>
            !k.strategy.Continue? && Expects(k) && (Expected(k) == {} || !(Expected(k) <= s))
  {
    var s := StableIdentifiers(k.local, c.views);
    StableContainsLocal(k, c.views);
    if AllRunning(k, s) {
      FullSubset(s, k.Known());
    }
    assert k.Known() <= s ==> s == k.Known();
  }

  lemma {:induction false} SyncExcludesResync(k: Config, v: Views, timedOut: bool)
    requires Safe(k) && ViewsValid(k.local, v) && v.Keys == k.Known() && LocalRunning(k, v)
    ensures !(SyncReached(k, v, StableIdentifiers(k.local, v), true) && Resyncs(k, v))
  {
    var s := StableIdentifiers(k.local, v);
    StableContainsLocal(k, v);
    if AllRunning(k, s) {
      FullSubset(s, k.Known());
    }
  }

  // ---- The measure ----

  /** The Master is agreed: from here the state machine only goes forward. */
  ghost predicate Passed(k: Config, v: Views, target: FsmState)
    requires ViewsValid(k.local, v)
  {
    && IsWorking(target) && LocalRunning(k, v) && MasterAgreed(k.local, v)
    && (k.strategy.Continue? || !FailureSeen(k, StableIdentifiers(k.local, v), {}))
    && (IsMaster(k, v) || (target.Distribution? && MasterState(k, v) == Some(FsmState.Distribution)))
  }

  predicate WillConciliate(k: Config, c: Fsm)
    requires FsmValid(k, c)
  {
    if IsMaster(k, c.views) then c.conflicts else MasterState(k, c.views) == Some(Conciliation)
  }

  ghost function Rank(k: Config, c: Fsm, target: FsmState): nat
    requires FsmValid(k, c)
  {
    match target
    case Final => 0
    case Restarting => 1
    case ShuttingDown => 1
    case Off => if LocalRunning(k, c.views) then 5 else 1
    case Synchronization => if Resyncs(k, c.views) then 2 else 4
    case Election => 3
    case Distribution => 9
    case Operation => if WillConciliate(k, c) then 8 else 6
    case Conciliation => 7
  }

  /** Entering a state, and what SYNCHRONIZATION does to the Master, change none of the views
      that the stability is computed from. */
  lemma {:induction false} SameStability(k: Config, v: Views, w: Views)
    requires ViewsValid(k.local, v) && ViewsValid(k.local, w) && v.Keys == w.Keys
    requires forall j :: j in v ==> v[j].instanceStates == w[j].instanceStates
    ensures Peers(k.local, v) == Peers(k.local, w)
    ensures StableIdentifiers(k.local, v) == StableIdentifiers(k.local, w)
  {
    var s, t := StableIdentifiers(k.local, v), StableIdentifiers(k.local, w);
    if s != {} {
      assert AgreedOn(k.local, v, s);
      assert AgreedOn(k.local, w, s);
    }
    if t != {} {
      assert AgreedOn(k.local, w, t);
      assert AgreedOn(k.local, v, t);
    }
  }

  lemma {:induction false} StateIsNeutral(k: Config, v: Views, s: FsmState)
    requires ViewsValid(k.local, v)
    ensures var w := WithState(k, v, s);
            && Peers(k.local, v) == Peers(k.local, w)
            && StableIdentifiers(k.local, v) == StableIdentifiers(k.local, w)
            && (MasterAgreed(k.local, v) <==> MasterAgreed(k.local, w))
            && (LocalRunning(k, v) <==> LocalRunning(k, w)) && Pending(k, v) == Pending(k, w)
            && MasterOf(k, v) == MasterOf(k, w)
            && (!IsMaster(k, v) ==> MasterState(k, v) == MasterState(k, w))
  {
    SameStability(k, v, WithState(k, v, s));
  }

  lemma {:induction false} MasterIsNeutral(k: Config, v: Views, m: Identifier)
    requires ViewsValid(k.local, v)
    ensures var w := WithMaster(k, v, m);
            && StableIdentifiers(k.local, v) == StableIdentifiers(k.local, w)
            && (LocalRunning(k, v) <==> LocalRunning(k, w)) && Pending(k, v) == Pending(k, w)
            && State(k, v) == State(k, w)
  {
    SameStability(k, v, WithMaster(k, v, m));
  }

  lemma {:induction false} AcceptIsNeutral(k: Config, v: Views, choice: Identifier)
    requires ViewsValid(k.local, v)
    ensures var w := WithAccepted(k, v, choice);
            && StableIdentifiers(k.local, v) == StableIdentifiers(k.local, w)
            && (LocalRunning(k, v) <==> LocalRunning(k, w)) && Pending(k, v) == Pending(k, w)
            && State(k, v) == State(k, w)
  {
    if MasterIdentifiers(k.local, v) - {NO_MASTER} != {} {
      MasterIsNeutral(k, v, Accepted(k.mapper, k.local, v, choice));
    }
  }

  predicate Lower(a: (nat, nat), b: (nat, nat)) {
    a.0 < b.0 || (a.0 == b.0 && a.1 < b.1)
  }

  ghost function Measure(k: Config, c: Fsm, target: FsmState): (nat, nat)
    requires FsmValid(k, c)
  {
    (if Passed(k, c.views, target) then 0 else 1, Rank(k, c, target))
  }

  /** The evaluation, in a working state, of a context in which no instance is pending. */
  lemma {:induction false} WorkingDescends(k: Config, c: Fsm, e: Env)
    requires FsmValid(k, c) && c.lost == {} && IsWorking(State(k, c.views))
    ensures var next := WorkingNext(k, c, e);
            Moves(k, c, next) ==> Lower(Measure(k, c, next.value), Measure(k, c, State(k, c.views)))
  {
  }

  lemma {:induction false} ElectedHasPassed(k: Config, c: Fsm)
    requires FsmValid(k, c) && c.lost == {} && LocalRunning(k, c.views) && SynchronizedCheck(k, c).None?
    ensures var d := Elected(k, c);
            if d.1.Distribution? then d.0 == c && Passed(k, c.views, FsmState.Distribution) else d.1.Election?
  {
  }

  lemma {:induction false} ElectionDescends(k: Config, c: Fsm, e: Env)
    requires FsmValid(k, c) && c.lost == {} && State(k, c.views).Election?
    ensures var d := Decide(k, c, e);
            Moves(k, d.0, d.1) ==> Lower(Measure(k, d.0, d.1.value), Measure(k, c, FsmState.Election))
  {
    if SynchronizedCheck(k, c).None? {
      ElectedHasPassed(k, c);
      assert !Passed(k, c.views, FsmState.Election);
    }
  }

  lemma {:induction false} SynchronizationDescends(k: Config, c: Fsm, e: Env)
    requires FsmValid(k, c) && Safe(k) && c.lost == {} && State(k, c.views).Synchronization?
    ensures var d := Decide(k, c, e);
            Moves(k, d.0, d.1) ==> Lower(Measure(k, d.0, d.1.value), Measure(k, c, Synchronization))
  {
    if LocalRunning(k, c.views) {
      AcceptIsNeutral(k, c.views, e.accepted);
      var d := Decide(k, c, e);
      SyncExcludesResync(k, d.0.views, e.timedOut);
    }
  }

  lemma {:induction false} DecideDescends(k: Config, c: Fsm, e: Env)
    requires FsmValid(k, c) && Safe(k) && c.lost == {}
    ensures var d := Decide(k, c, e);
            && Pending(k, d.0.views) == Pending(k, c.views)
            && (Moves(k, d.0, d.1) ==> Lower(Measure(k, d.0, d.1.value), Measure(k, c, State(k, c.views))))
  {
    match State(k, c.views)
    case Synchronization =>
      AcceptIsNeutral(k, c.views, e.accepted);
      SynchronizationDescends(k, c, e);
    case Election =>
      if LocalRunning(k, c.views) && Stable(k.local, c.views) {
        assert k.local in Peers(k.local, c.views);
        MasterIsNeutral(k, c.views, Selected(k.mapper, k.local, c.views));
      }
      ElectionDescends(k, c, e);
    case Off =>
    case Final =>
    case Restarting =>
    case ShuttingDown =>
    case _ => WorkingDescends(k, c, e);
  }

  lemma {:induction false} DecideKeepsPending(k: Config, c: Fsm, e: Env)
    requires FsmValid(k, c)
    ensures Pending(k, Decide(k, c, e).0.views) == Pending(k, c.views)
  {
    match State(k, c.views)
    case Synchronization => AcceptIsNeutral(k, c.views, e.accepted);
    case Election =>
      if LocalRunning(k, c.views) && Stable(k.local, c.views) {
        assert k.local in Peers(k.local, c.views);
        MasterIsNeutral(k, c.views, Selected(k.mapper, k.local, c.views));
      }
    case _ =>
  }

  lemma {:induction false} MeasureIsNeutral(k: Config, c: Fsm, s: FsmState)
    requires FsmValid(k, c)
    ensures Measure(k, Entered(k, c, s).(lost := {}), s) == Measure(k, c, s)
  {
    StateIsNeutral(k, c.views, s);
  }

  /** One iteration: an instance is acknowledged, or the measure of the suggestion decreases. */
  lemma {:induction false} IterationDescends(k: Config, c: Fsm, next: Option<FsmState>, e: Env)
    requires FsmValid(k, c) && Safe(k) && Moves(k, c, next)
    ensures var d := Next(k, Entered(k, c, next.value), e);
            || Pending(k, d.0.views) < Pending(k, c.views)
            || (Pending(k, d.0.views) == Pending(k, c.views)
                && (Moves(k, d.0, d.1) ==> Lower(Measure(k, d.0, d.1.value), Measure(k, c, next.value))))
  {
    var c1 := Entered(k, c, next.value);
    StateIsNeutral(k, c.views, next.value);
    InstancesChecked(k, c1, e);
    var c2 := CheckInstances(k, c1, e);
    if Pending(k, c2.views) < Pending(k, c1.views) {
      DecideKeepsPending(k, c2, e);
    } else {
      MeasureIsNeutral(k, c, next.value);
      DecideDescends(k, c2, e);
    }
  }

  ghost function Remaining(k: Config, c: Fsm, next: Option<FsmState>): (nat, nat)
    requires FsmValid(k, c)
  {
    if Moves(k, c, next) then (1 + Measure(k, c, next.value).0, Measure(k, c, next.value).1) else (0, 0)
  }

  lemma {:induction false} RemainingDescends(k: Config, c: Fsm, next: Option<FsmState>, e: Env)
    requires FsmValid(k, c) && Safe(k) && Moves(k, c, next)
    ensures var d := Next(k, Entered(k, c, next.value), e);
            || Pending(k, d.0.views) < Pending(k, c.views)
            || (Pending(k, d.0.views) == Pending(k, c.views) && Lower(Remaining(k, d.0, d.1), Remaining(k, c, next)))
  {
    IterationDescends(k, c, next, e);
  }

  lemma {:induction false} Prepend<T(!new), E(!new)>(leads: (T, E, T) -> bool, p: T, run: seq<T>, env: nat -> E, start: nat)
    requires Chained(leads, run, env, start + 1) && leads(p, env(start), run[0])
    ensures Chained(leads, [p] + run, env, start)
  {
    forall j: nat ensures Linked(leads, [p] + run, env, start, j) {
      if j > 0 {
        assert Linked(leads, run, env, start + 1, j - 1);
      }
    }
  }

  lemma {:induction false} Append<T(!new), E(!new)>(leads: (T, E, T) -> bool, run: seq<T>, p: T, env: nat -> E, start: nat)
    requires Chained(leads, run, env, start) && leads(run[|run| - 1], env(start + |run| - 1), p)
    ensures Chained(leads, run + [p], env, start)
  {
    forall j: nat ensures Linked(leads, run + [p], env, start, j) {
      assert Linked(leads, run, env, start, j);
    }
  }

  lemma {:induction false} RunPrepends(k: Config, p: Turn, run: seq<Turn>, env: nat -> Env, start: nat)
    requires IsRun(k, run, env, start + 1) && LeadsTo(k, p, env(start), run[0])
    ensures IsRun(k, [p] + run, env, start)
  {
    Prepend(Leads(k), p, run, env, start);
  }

  /** Within one call, with the events frozen, the loop ends for Master and Slave alike,
      whatever the clock and the jobs do. */
  lemma {:induction false} LoopEnds(k: Config, c: Fsm, next: Option<FsmState>, env: nat -> Env, start: nat)
    returns (run: seq<Turn>)
    requires FsmValid(k, c) && Safe(k)
    ensures IsRun(k, run, env, start) && run[0] == Turn(c, next) && Stops(k, run[|run| - 1])
    decreases Pending(k, c.views), Remaining(k, c, next).0, Remaining(k, c, next).1
  {
    if Moves(k, c, next) {
      var d := Next(k, Entered(k, c, next.value), env(start));
      RemainingDescends(k, c, next, env(start));
      var rest := LoopEnds(k, d.0, d.1, env, start + 1);
      RunPrepends(k, Turn(c, next), rest, env, start);
      run := [Turn(c, next)] + rest;
    } else {
      run := [Turn(c, next)];
    }
  }

  // ---- Options that are not safe make the loop spin ----

  /** The local view of an instance that sees `running` and nothing else. */
  function SteadyStates(k: Config, running: set<Identifier>, other: InstanceState): InstanceStates {
    map i | i in k.order :: if i in running then Running else other
  }

  function SteadyViews(k: Config, running: set<Identifier>, other: InstanceState): Views {
    map i | i in k.order :: FRESH.(state := FsmState.Election, instanceStates := SteadyStates(k, running, other))
  }

  /** The instances to run, and the state of the others, that make the loop spin. */
  ghost function SpinningViews(k: Config): Views {
    if k.timeout then SteadyViews(k, {k.local}, Checking)
    else if k.strict then SteadyViews(k, k.initial, Stopped)
    else SteadyViews(k, k.Known(), Stopped)
  }

  lemma {:induction false} SteadyIsValid(k: Config, running: set<Identifier>, other: InstanceState)
    requires k.local in running && running <= k.Known() && !other.Running? && !other.Failed? && !other.Checked?
    ensures var v := SteadyViews(k, running, other);
            && FsmValid(k, Fsm(v, {}, false, [])) && LocalRunning(k, v) && Pending(k, v) == {}
            && (other.Stopped? || running == k.Known() ==> StableIdentifiers(k.local, v) == running)
            && (other.Checking? && running != k.Known() ==> StableIdentifiers(k.local, v) == {})
  {
    var v := SteadyViews(k, running, other);
    var states := SteadyStates(k, running, other);
    assert v.Keys == k.Known() == states.Keys;
    assert RunningIn(states) == running;
    if other.Stopped? || running == k.Known() {
      assert AgreedOn(k.local, v, running);
    } else if other.Checking? {
      var i :| i in k.Known() && i !in running;
      assert StableRunning(states) == {};
      assert AgreedOn(k.local, v, {});
    }
  }

  lemma {:induction false} NothingPending(k: Config, c: Fsm, e: Env)
    requires FsmValid(k, c) && Pending(k, c.views) == {} && c.lost == {}
    ensures Next(k, c, e) == Decide(k, c, e)
  {
    InstancesChecked(k, c, e);
  }

  ghost predicate Oscillates(k: Config, v: Views)
    requires ViewsValid(k.local, v)
  {
    && !k.user && LocalRunning(k, v) && Pending(k, v) == {} && State(k, v).Election?
    && SyncReached(k, v, StableIdentifiers(k.local, v), true) && Resyncs(k, v)
  }

  lemma {:induction false} ToElection(k: Config, c: Fsm, e: Env)
    requires FsmValid(k, c) && c.lost == {} && Oscillates(k, c.views) && (k.timeout ==> e.timedOut)
    ensures var c' := c.(views := WithState(k, c.views, Synchronization));
            Next(k, Entered(k, c, Synchronization), e) == (c', Some(FsmState.Election))
  {
    var c' := c.(views := WithState(k, c.views, Synchronization));
    assert c.sent + SentOnExit(FsmState.Election) == c.sent;
    assert Entered(k, c, Synchronization) == c';
    StateIsNeutral(k, c.views, Synchronization);
    NothingPending(k, c', e);
    assert Decide(k, c', e) == (c', Some(FsmState.Election));
  }

  lemma {:induction false} BackToSynchronization(k: Config, c: Fsm, e: Env)
    requires FsmValid(k, c) && c.lost == {} && Oscillates(k, c.views) && (k.timeout ==> e.timedOut)
    ensures var c' := c.(views := WithState(k, c.views, Synchronization));
            Next(k, Entered(k, c', FsmState.Election), e) == (c, Some(Synchronization))
  {
    var c' := c.(views := WithState(k, c.views, Synchronization));
    assert c'.sent + SentOnExit(Synchronization) == c.sent;
    assert Entered(k, c', FsmState.Election) == c;
    NothingPending(k, c, e);
    assert Decide(k, c, e) == (c, Some(Synchronization));
  }

  lemma {:induction false} UnsafeOscillates(k: Config)
    requires !Safe(k)
    ensures var v := SpinningViews(k);
            FsmValid(k, Fsm(v, {}, false, [])) && Oscillates(k, v)
  {
    var running, other := if k.timeout then {k.local} else if k.strict then k.initial else k.Known(), if k.timeout then Checking else Stopped;
    SteadyIsValid(k, running, other);
    assert SpinningViews(k) == SteadyViews(k, running, other);
  }

  lemma {:induction false} LeadsToElection(k: Config, c: Fsm, e: Env)
    requires FsmValid(k, c) && c.lost == {} && Oscillates(k, c.views) && (k.timeout ==> e.timedOut)
    ensures LeadsTo(k, Turn(c, Some(Synchronization)), e,
                    Turn(c.(views := WithState(k, c.views, Synchronization)), Some(FsmState.Election)))
  {
    ToElection(k, c, e);
  }

  lemma {:induction false} LeadsToSynchronization(k: Config, c: Fsm, e: Env)
    requires FsmValid(k, c) && c.lost == {} && Oscillates(k, c.views) && (k.timeout ==> e.timedOut)
    ensures LeadsTo(k, Turn(c.(views := WithState(k, c.views, Synchronization)), Some(FsmState.Election)), e,
                    Turn(c, Some(Synchronization)))
  {
    BackToSynchronization(k, c, e);
  }

  /** Two points that lead to each other make an endless run. */
  lemma {:induction false} Alternate<P(!new), E(!new)>(leads: (P, E, P) -> bool, p: P, q: P, env: nat -> E) returns (run: nat -> P)
    requires forall e :: leads(p, e, q) && leads(q, e, p)
    ensures run(0) == p && forall i: nat :: leads(run(i), env(i), run(i + 1))
  {
    run := (i: nat) => if i % 2 == 0 then p else q;
    forall i: nat ensures leads(run(i), env(i), run(i + 1)) {
      assert leads(p, env(i), q) && leads(q, env(i), p);
      assert (i + 1) % 2 == 1 - i % 2;
    }
  }

  lemma {:induction false} UnsafeSpins(k: Config, env: nat -> Env) returns (run: nat -> Turn)
    requires !Safe(k) && forall i :: k.timeout ==> env(i).timedOut
    ensures run(0) == Turn(Fsm(SpinningViews(k), {}, false, []), Some(Synchronization)) && Spins(k, run, env)
  {
    var c := Fsm(SpinningViews(k), {}, false, []);
    UnsafeOscillates(k);
    var p, q := Turn(c, Some(Synchronization)), Turn(c.(views := WithState(k, c.views, Synchronization)), Some(FsmState.Election));
    var leads := (a: Turn, e: Env, b: Turn) => (k.timeout ==> e.timedOut) ==> LeadsTo(k, a, e, b);
    forall e ensures leads(p, e, q) && leads(q, e, p) {
      if k.timeout ==> e.timedOut {
        LeadsToElection(k, c, e);
        LeadsToSynchronization(k, c, e);
      }
    }
    run := Alternate(leads, p, q, env);
    forall i: nat ensures LeadsTo(k, run(i), env(i), run(i + 1)) {
      assert leads(run(i), env(i), run(i + 1));
    }
  }

  /** A safe loop stops, so it cannot spin. */
  lemma {:induction false} SafeNeverSpins(k: Config, run: nat -> Turn, env: nat -> Env, i: nat)
    requires Safe(k)
    ensures !Spins(k, run, env)
    decreases if FsmValid(k, run(i).fsm) then Pending(k, run(i).fsm.views) else {},
              if FsmValid(k, run(i).fsm) then Remaining(k, run(i).fsm, run(i).next).0 else 0,
              if FsmValid(k, run(i).fsm) then Remaining(k, run(i).fsm, run(i).next).1 else 0
  {
    if Spins(k, run, env) {
      assert LeadsTo(k, run(i), env(i), run(i + 1));
      RemainingDescends(k, run(i).fsm, run(i).next, env(i));
      SafeNeverSpins(k, run, env, i + 1);
    }
  }

  /** The safe options are exactly those with which the loop always ends. */
  lemma {:induction false} SpinsExactlyWhenUnsafe(k: Config)
    ensures (exists run, env :: Spins(k, run, env)) <==> !Safe(k)
  {
    if Safe(k) {
      forall run, env ensures !Spins(k, run, env) {
        SafeNeverSpins(k, run, env, 0);
      }
    } else {
      var env := (i: nat) => Env(true, false, false, NO_MASTER, false);
      var run := UnsafeSpins(k, env);
    }
  }

  // ---- The options that Supvisors accepts ----

  /** check_options: TIMEOUT forces the CONTINUE strategy. */
  function Forced(k: RawConfig): RawConfig {
    if k.timeout then k.(strategy := Continue) else k
  }

  /** The core instances are known, and declared if STRICT. */
  predicate CoreIsExpected(k: Config) {
    k.core && (k.strict || k.list) ==> k.Core() != {} && (k.strict ==> k.Core() <= k.initial)
  }

  /** Once the strategy has been forced, the loop can spin exactly with RESYNC, without USER, and with
      core instances that are not expected. */
  lemma {:induction false} SpinsOnceForcedExactly(k: Config)
    requires Forced(k) == k
    ensures (exists run, env :: Spins(k, run, env)) <==> k.strategy.Resync? && !k.user && !CoreIsExpected(k)
  {
    SpinsExactlyWhenUnsafe(k);
    assert Safe(k) <==> (k.strategy.Resync? && !k.user ==> CoreIsExpected(k));
  }

  const DECLARED: Identifier := Id("declared")
  const DISCOVERED: Identifier := Id("discovered")

  /** STRICT and CORE with RESYNC, and a core instance that is known but not declared. */
  const UNDECLARED_CORE: RawConfig :=
    Config(DECLARED, [DECLARED, DISCOVERED], {DECLARED}, Mapper([DISCOVERED], (i: Identifier) => i.name),
           true, false, false, true, false, Resync, false)

  /** Forcing CONTINUE is not enough: these options are left as they are, and the loop spins once the
      declared instance is alone, whatever the clock and the jobs do. */
  lemma {:induction false} ForcingIsNotEnough(env: nat -> Env) returns (k: Config, run: nat -> Turn)
    ensures k == UNDECLARED_CORE && Forced(k) == k && !Safe(k) && !k.timeout
    ensures run(0) == Turn(Fsm(SteadyViews(k, {DECLARED}, Stopped), {}, false, []), Some(Synchronization)) && Spins(k, run, env)
  {
    assert UNDECLARED_CORE.Core() == {DISCOVERED} by {
      assert DISCOVERED in UNDECLARED_CORE.mapper.core;
    }
    k := UNDECLARED_CORE;
    run := UnsafeSpins(k, env);
  }
}
