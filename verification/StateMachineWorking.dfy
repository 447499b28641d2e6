/** What holds a state of the state machine, and what drives it out (supvisors/statemachine.py): the
    progress of the jobs and the conflicts for the Master, the state of the Master for a Slave. */
module StateMachineWorking {
  import opened SupvisorsTypes
  import opened StateModes
  import opened StateMachine
  import opened StateMachineTermination
  import opened StateMachineEndings

  /** The instances are acknowledged, and the checks of the states past ELECTION pass. */
  ghost predicate ChecksPass(k: Config, c: Fsm) {
    FsmValid(k, c) && MasterSlaveCheck(k, c).None?
  }

  /** The suggestion of a turn makes the state machine go on. */
  ghost predicate Goes(k: Config, q: Turn) {
    FsmValid(k, q.fsm) && Moves(k, q.fsm, q.next)
  }

  /** The turn `q` is the evaluation of the state that `p` suggested. */
  ghost predicate Evaluates(k: Config, p: Turn, e: Env, q: Turn) {
    && LeadsTo(k, p, e, q) && ChecksPass(k, q.fsm)
    && !NewInstances(k, Entered(k, p.fsm, p.next.value))
  }

  /** The evaluation of the states that leave their context as it is. */
  lemma {:induction false} DecidesFrom(k: Config, p: Turn, e: Env, q: Turn)
    requires LeadsTo(k, p, e, q) && !NewInstances(k, Entered(k, p.fsm, p.next.value))
    requires !p.next.value.Synchronization? && !p.next.value.Election?
    ensures State(k, q.fsm.views) == p.next.value && Decide(k, q.fsm, e) == (q.fsm, q.next)
  {
    var c := Entered(k, p.fsm, p.next.value);
    var v := WithoutFailed(k, c.views, k.order);
    WithoutFailedKeepsState(k, c.views, k.order);
    WithoutCheckedKeepsState(k, v, k.order);
    var c' := CheckInstances(k, c, e);
    assert State(k, c'.views) == p.next.value;
    assert Decide(k, c', e).0 == c';
  }

  // ---- The Master ----

  /** The Master leaves DISTRIBUTION exactly when no start is in progress, OPERATION exactly when no
      job is in progress and a process conflicts, CONCILIATION exactly when no job is in progress and
      no process conflicts. */
  lemma {:induction false} MasterDecides(k: Config, c: Fsm, e: Env)
    requires ChecksPass(k, c) && IsMaster(k, c.views) && IsWorking(State(k, c.views))
    ensures var next := Decide(k, c, e).1;
            var busy := e.starting || e.stopping;
            && (State(k, c.views).Distribution? ==>
                  (Moves(k, c, next) <==> !e.starting) && (Moves(k, c, next) ==> next == Some(Operation)))
            && (State(k, c.views).Operation? ==>
                  (Moves(k, c, next) <==> !busy && c.conflicts) && (Moves(k, c, next) ==> next == Some(Conciliation)))
            && (State(k, c.views).Conciliation? ==>
                  (Moves(k, c, next) <==> !busy && !c.conflicts) && (Moves(k, c, next) ==> next == Some(Operation)))
  {
  }

  /** And this over the turns of any run. */
  lemma {:induction false} MasterLeavesExactly(k: Config, p: Turn, e: Env, q: Turn)
    requires Evaluates(k, p, e, q) && IsMaster(k, q.fsm.views)
    ensures p.next == Some(FsmState.Distribution) ==>
              (Goes(k, q) <==> !e.starting) && (Goes(k, q) ==> q.next == Some(Operation))
    ensures p.next == Some(Operation) ==>
              (Goes(k, q) <==> !e.starting && !e.stopping && q.fsm.conflicts) && (Goes(k, q) ==> q.next == Some(Conciliation))
    ensures p.next == Some(Conciliation) ==>
              (Goes(k, q) <==> !e.starting && !e.stopping && !q.fsm.conflicts) && (Goes(k, q) ==> q.next == Some(Operation))
  {
    if IsWorking(p.next.value) {
      DecidesFrom(k, p, e, q);
      MasterDecides(k, q.fsm, e);
    }
  }

  lemma {:induction false} MasterEnds(k: Config, c: Fsm, e: Env)
    requires ChecksPass(k, c) && IsMaster(k, c.views) && IsEnding(State(k, c.views))
    ensures Decide(k, c, e).1 == Some(if e.stopping then State(k, c.views) else Final)
  {
  }

  /** The Master leaves an ending state exactly when no stop is in progress. */
  lemma {:induction false} MasterEndsExactly(k: Config, p: Turn, e: Env, q: Turn)
    requires Evaluates(k, p, e, q) && IsMaster(k, q.fsm.views)
    requires p.next == Some(Restarting) || p.next == Some(ShuttingDown)
    ensures (Goes(k, q) <==> !e.stopping) && (Goes(k, q) ==> q.next == Some(Final))
  {
    DecidesFrom(k, p, e, q);
    MasterEnds(k, q.fsm, e);
  }

  // ---- The Slaves ----

  lemma {:induction false} SlaveDecides(k: Config, c: Fsm, e: Env)
    requires ChecksPass(k, c) && !IsMaster(k, c.views)
    ensures IsWorking(State(k, c.views)) ==> Decide(k, c, e).1 == MasterState(k, c.views)
    ensures IsEnding(State(k, c.views)) ==>
              Decide(k, c, e).1 == Some(if MasterState(k, c.views) == Some(State(k, c.views)) then State(k, c.views) else Final)
  {
  }

  /** In a working state, a Slave suggests the state of its Master; in an ending state, it goes to
      FINAL exactly when its Master is not in the same one. */
  lemma {:induction false} SlaveFollowsExactly(k: Config, p: Turn, e: Env, q: Turn)
    requires Evaluates(k, p, e, q) && !IsMaster(k, q.fsm.views)
    ensures IsWorking(p.next.value) ==> q.next == MasterState(k, q.fsm.views)
    ensures p.next == Some(Restarting) || p.next == Some(ShuttingDown) ==>
              (Goes(k, q) <==> MasterState(k, q.fsm.views) != p.next) && (Goes(k, q) ==> q.next == Some(Final))
  {
    if IsWorking(p.next.value) || IsEnding(p.next.value) {
      DecidesFrom(k, p, e, q);
      SlaveDecides(k, q.fsm, e);
    }
  }

  lemma {:induction false} FailedEnds(k: Config, c: Fsm, e: Env)
    requires FsmValid(k, c) && !ChecksPass(k, c) && IsEnding(State(k, c.views))
    ensures Decide(k, c, e).1 == Some(Final)
  {
  }

  /** When the checks fail, an ending state goes to FINAL, and new instances drive OPERATION and
      CONCILIATION back to ELECTION. */
  lemma {:induction false} FailedChecksEnd(k: Config, p: Turn, e: Env, q: Turn)
    requires LeadsTo(k, p, e, q)
    ensures (p.next == Some(Restarting) || p.next == Some(ShuttingDown)) && !ChecksPass(k, q.fsm) ==> q.next == Some(Final)
    ensures NewInstances(k, Entered(k, p.fsm, p.next.value)) ==> q.next == Some(FsmState.Election)
  {
    if IsEnding(p.next.value) {
      DecidesFrom(k, p, e, q);
      if !ChecksPass(k, q.fsm) {
        FailedEnds(k, q.fsm, e);
      }
    }
  }

  /** Whatever instances come or go, a working state goes back to ELECTION when the Master is not agreed. */
  lemma {:induction false} DisagreementElects(k: Config, c: Fsm, e: Env)
    requires FsmValid(k, c) && IsWorking(State(k, c.views)) && SynchronizedCheck(k, c).None?
    ensures !MasterAgreed(k.local, c.views) ==> Decide(k, c, e).1 == Some(FsmState.Election)
  {
  }

  /** The checked instances become running at once, except in DISTRIBUTION, where they wait; OPERATION
      and CONCILIATION leave for ELECTION when there are some. */
  lemma {:induction false} CheckedInstances(k: Config, c: Fsm, e: Env)
    requires FsmValid(k, c)
    ensures var c' := CheckInstances(k, c, e);
            && CheckedIn(k, c'.views) == (if State(k, c.views).Distribution? then CheckedIn(k, c.views) else {})
            && FailedIn(k, c'.views) == {} && c'.lost == FailedIn(k, c.views)
            && c'.conflicts == if FailedIn(k, c.views) == {} then c.conflicts else e.conflictsLeft
    ensures State(k, c.views).Operation? || State(k, c.views).Conciliation? ==>
              (NewInstances(k, c) <==> CheckedIn(k, c.views) != {})
    ensures CheckedIn(k, c.views) != {} && (State(k, c.views).Operation? || State(k, c.views).Conciliation?) ==>
              Next(k, c, e).1 == Some(FsmState.Election)
  {
    var v := WithoutFailed(k, c.views, k.order);
    FailedAcknowledged(k, c.views, k.order);
    CheckedAcknowledged(k, v, k.order);
  }

  /** With USER, SYNCHRONIZATION takes the Master of a peer, if there is one; without, it changes
      nothing. */
  lemma {:induction false} UserMasterIsAccepted(k: Config, c: Fsm, e: Env)
    requires FsmValid(k, c) && State(k, c.views).Synchronization? && LocalRunning(k, c.views)
    ensures var c' := Decide(k, c, e).0;
            var masters := MasterIdentifiers(k.local, c.views) - {NO_MASTER};
            && (!k.user || masters == {} ==> c' == c)
            && (k.user && masters != {} ==> MasterOf(k, c'.views) in masters)
  {
  }

  // ---- Whole calls ----

  /** No instance is pending, and the checks pass for the local instance. */
  ghost predicate Quiet(k: Config, c: Fsm) {
    ChecksPass(k, c) && Pending(k, c.views) == {} && c.lost == {} && !IsEnding(State(k, c.views))
  }

  /** Entering a working state keeps the context quiet. */
  lemma {:induction false} QuietTurn(k: Config, c: Fsm, s: FsmState, e: Env, q: Turn)
    requires Quiet(k, c) && IsWorking(s) && LeadsTo(k, Turn(c, Some(s)), e, q)
    ensures q.fsm == c.(views := WithState(k, c.views, s)) && Quiet(k, q.fsm) && Evaluates(k, Turn(c, Some(s)), e, q)
    ensures IsMaster(k, q.fsm.views) <==> IsMaster(k, c.views)
    ensures !IsMaster(k, c.views) ==> MasterState(k, q.fsm.views) == MasterState(k, c.views)
  {
    var c' := c.(views := WithState(k, c.views, s));
    assert c.sent + [] == c.sent;
    assert Entered(k, c, s) == c';
    StateIsNeutral(k, c.views, s);
    InstancesChecked(k, c', e);
    assert MasterSlaveCheck(k, c') == MasterSlaveCheck(k, c);
    NothingPending(k, c', e);
  }

  /** The environment of a whole call. */
  ghost predicate IsSteady(env: nat -> Env, e: Env) {
    forall i: nat :: env(i) == e
  }

  lemma {:induction false} NextTurn(k: Config, run: seq<Turn>, env: nat -> Env, start: nat, e: Env, j: nat)
    requires IsRun(k, run, env, start) && IsSteady(env, e) && j < |run| && Stops(k, run[|run| - 1])
    ensures j + 1 < |run| ==> LeadsTo(k, run[j], e, run[j + 1])
    ensures j + 1 == |run| <==> Stops(k, run[j])
  {
    assert Linked(Leads(k), run, env, start, j);
    assert env(start + j) == e;
  }

  /** One turn in a working state. */
  lemma {:induction false} WorkingTurn(k: Config, run: seq<Turn>, env: nat -> Env, start: nat, e: Env, j: nat, s: FsmState)
    requires IsRun(k, run, env, start) && IsSteady(env, e) && Stops(k, run[|run| - 1]) && j < |run|
    requires Quiet(k, run[j].fsm) && IsWorking(s)
    requires run[j].next == Some(s) && Moves(k, run[j].fsm, run[j].next)
    ensures j + 1 < |run| && Quiet(k, run[j + 1].fsm)
    ensures IsMaster(k, run[j + 1].fsm.views) <==> IsMaster(k, run[j].fsm.views)
    ensures !IsMaster(k, run[j].fsm.views) ==> MasterState(k, run[j + 1].fsm.views) == MasterState(k, run[j].fsm.views)
    ensures State(k, run[j + 1].fsm.views) == s && run[j + 1].fsm.conflicts == run[j].fsm.conflicts
    ensures j + 2 == |run| <==> !Goes(k, run[j + 1])
    ensures Decide(k, run[j + 1].fsm, e) == (run[j + 1].fsm, run[j + 1].next)
  {
    NextTurn(k, run, env, start, e, j);
    QuietTurn(k, run[j].fsm, s, e, run[j + 1]);
    NextTurn(k, run, env, start, e, j + 1);
    DecidesFrom(k, run[j], e, run[j + 1]);
  }

  /** Where a whole call takes the Master that goes to a working state: it distributes as long as
      processes are being started, and conciliates when no job remains and a process conflicts. */
  lemma {:induction false} MasterStopsIn(k: Config, run: seq<Turn>, env: nat -> Env, start: nat, e: Env, c: Fsm)
    requires IsRun(k, run, env, start) && IsSteady(env, e) && Stops(k, run[|run| - 1])
    requires run[0] == Turn(c, Some(FsmState.Distribution)) && Quiet(k, c) && IsMaster(k, c.views) && Moves(k, c, run[0].next)
    ensures State(k, run[|run| - 1].fsm.views) ==
            if e.starting then FsmState.Distribution else if e.stopping || !c.conflicts then Operation else Conciliation
  {
    WorkingTurn(k, run, env, start, e, 0, FsmState.Distribution);
    MasterDecides(k, run[1].fsm, e);
    if !e.starting {
      WorkingTurn(k, run, env, start, e, 1, Operation);
      MasterDecides(k, run[2].fsm, e);
      if !e.stopping && c.conflicts {
        WorkingTurn(k, run, env, start, e, 2, Conciliation);
        MasterDecides(k, run[3].fsm, e);
      }
    }
  }

  /** A whole call takes a Slave to the working state of its Master, if the table allows it. */
  lemma {:induction false} SlaveStopsIn(k: Config, run: seq<Turn>, env: nat -> Env, start: nat, e: Env, c: Fsm)
    requires IsRun(k, run, env, start) && IsSteady(env, e) && Stops(k, run[|run| - 1])
    requires Quiet(k, c) && !IsMaster(k, c.views) && run[0] == Turn(c, MasterState(k, c.views)) && Moves(k, c, run[0].next)
    requires IsWorking(run[0].next.value)
    ensures State(k, run[|run| - 1].fsm.views) == MasterState(k, c.views).value
  {
    WorkingTurn(k, run, env, start, e, 0, run[0].next.value);
    SlaveDecides(k, run[1].fsm, e);
  }

  // ---- The table, read by its targets ----

  /** From where each state can be entered. */
  lemma {:induction false} EnteredFrom(from: FsmState)
    ensures Allowed(from, Off) <==> from.Synchronization? || from.Election? || IsWorking(from)
    ensures Allowed(from, Synchronization) <==> from.Off? || from.Election? || from.Operation? || from.Conciliation?
    ensures Allowed(from, FsmState.Election) <==> from.Synchronization? || from.Distribution? || from.Operation?
    ensures Allowed(from, FsmState.Distribution) <==> from.Election?
    ensures Allowed(from, Operation) <==> from.Distribution? || from.Conciliation?
    ensures Allowed(from, Conciliation) <==> from.Operation?
    ensures Allowed(from, Restarting) <==> IsWorking(from)
    ensures Allowed(from, ShuttingDown) <==> IsWorking(from) || from.Election?
    ensures Allowed(from, Final) <==> IsEnding(from)
  {
  }

  // ---- The beginning ----

  /** OFF lasts until the local instance is RUNNING; a loss of it leads back to OFF from any state up
      to CONCILIATION. */
  lemma {:induction false} OffExactly(k: Config, c: Fsm, e: Env)
    requires FsmValid(k, c)
    ensures State(k, c.views).Off? ==> Decide(k, c, e).1 == Some(if LocalRunning(k, c.views) then Synchronization else Off)
    ensures !LocalRunning(k, c.views) && !IsEnding(State(k, c.views)) && !State(k, c.views).Final? ==>
              Decide(k, c, e).1 == Some(Off)
  {
  }

  /** The sets of instances that the options wait for. */
  function Awaited(k: Config): set<set<Identifier>> {
    (if k.strict then {k.initial} else {}) + (if k.list then {k.Known()} else {}) + (if k.core then {k.Core()} else {})
  }

  /** SYNCHRONIZATION ends exactly when all instances of an awaited set are stable and running, when
      time is out, or when the user has a running Master. */
  lemma {:induction false} SynchronizationEndsExactly(k: Config, c: Fsm, e: Env)
    requires FsmValid(k, c) && State(k, c.views).Synchronization? && LocalRunning(k, c.views)
    ensures var d := Decide(k, c, e);
            var stable := StableIdentifiers(k.local, c.views);
            d.1 == Some(if (exists x :: x in Awaited(k) && x != {} && x <= stable) || (k.timeout && e.timedOut)
                           || (k.user && MasterOf(k, d.0.views) in d.0.views && MasterOf(k, d.0.views) != NO_MASTER
                               && InstanceStateOf(k, d.0.views, MasterOf(k, d.0.views)).Running?)
                        then FsmState.Election else Synchronization)
  {
    AwaitedExactly(k, StableIdentifiers(k.local, c.views), c.views);
  }

  lemma {:induction false} AwaitedExactly(k: Config, stable: set<Identifier>, v: Views)
    requires ViewsValid(k.local, v) && v.Keys == k.Known() && LocalRunning(k, v) && stable == StableIdentifiers(k.local, v)
    ensures (exists x :: x in Awaited(k) && x != {} && x <= stable) <==>
            (k.strict && InitialRunning(k, stable)) || (k.list && AllRunning(k, stable)) || (k.core && CoreRunning(k, stable))
  {
    StableContainsLocal(k, v);
    if AllRunning(k, stable) {
      FullSubset(stable, k.Known());
    }
    assert k.Known() <= stable ==> stable == k.Known();
    assert k.strict ==> k.initial in Awaited(k);
    assert k.list ==> k.Known() in Awaited(k);
    assert k.core ==> k.Core() in Awaited(k);
  }

  /** With the USER option, a strategy other than CONTINUE applies exactly when instances are lost. */
  lemma {:induction false} UserStrategyExactly(k: Config, c: Fsm)
    requires FsmValid(k, c) && LocalRunning(k, c.views) && k.user
    ensures SynchronizedCheck(k, c) ==
            if c.lost == {} || k.strategy.Continue? then None
            else Some(if k.strategy.Resync? then Synchronization else ShuttingDown)
  {
  }

  // ---- What becomes of the failed instances ----

  /** The Master of `v` is known, in a working state, and not among those that have been handled. */
  predicate FencingMaster(k: Config, v: Views, handled: seq<Identifier>)
    requires ViewsValid(k.local, v)
  {
    var m := MasterOf(k, v);
    m in v && IsWorking(v[m].state) && !(m in handled && InstanceStateOf(k, v, m).Failed?)
  }

  /** One instance is handled. */
  function Handled(k: Config, v: Views, f: Identifier): (r: Views)
    requires ViewsValid(k.local, v) && f in v
    ensures ViewsValid(k.local, r) && r.Keys == v.Keys
    ensures forall i :: i in v && i != f ==> InstanceStateOf(k, r, i) == InstanceStateOf(k, v, i)
  {
    if InstanceStateOf(k, v, f).Failed? then WithInstanceState(k.local, v, f, FencedState(k, v, f)) else v
  }

  lemma {:induction false} OthersUntouched(k: Config, v: Views, order: seq<Identifier>, i: Identifier)
    requires ViewsValid(k.local, v) && i in v && i !in order && (forall j :: j in order ==> j in v)
    ensures InstanceStateOf(k, WithoutFailed(k, v, order), i) == InstanceStateOf(k, v, i)
    decreases |order|
  {
    if order != [] {
      OthersUntouched(k, Handled(k, v, order[0]), order[1..], i);
    }
  }

  /** Handling one instance, for the Master seen by the next ones. */
  lemma {:induction false} OneHandled(k: Config, v: Views, f: Identifier, others: seq<Identifier>)
    requires ViewsValid(k.local, v) && NO_MASTER !in v && f in v && f !in others
    ensures FencingMaster(k, Handled(k, v, f), others) <==> FencingMaster(k, v, [f] + others)
  {
    var m := MasterOf(k, v);
    assert m in [f] + others <==> m == f || m in others;
    HandledMaster(k, v, f);
  }

  lemma {:induction false} HandledMaster(k: Config, v: Views, f: Identifier)
    requires ViewsValid(k.local, v) && f in v
    ensures var m := MasterOf(k, v);
            if m == f && InstanceStateOf(k, v, f).Failed? then MasterOf(k, Handled(k, v, f)) == NO_MASTER
            else MasterOf(k, Handled(k, v, f)) == m && (m in v ==> Handled(k, v, f)[m].state == v[m].state)
  {
  }

  lemma {:induction false} HandledFirst(k: Config, v: Views, order: seq<Identifier>)
    requires ViewsValid(k.local, v) && order != [] && forall j :: j in order ==> j in v
    ensures WithoutFailed(k, v, order) == WithoutFailed(k, Handled(k, v, order[0]), order[1..])
  {
  }

  lemma {:induction false} FirstFenced(k: Config, v: Views, f: Identifier, others: seq<Identifier>)
    requires ViewsValid(k.local, v) && f in v && f !in others && (forall j :: j in others ==> j in v) && InstanceStateOf(k, v, f).Failed?
    ensures InstanceStateOf(k, WithoutFailed(k, Handled(k, v, f), others), f) ==
            if f != k.local && k.autoFence && FencingMaster(k, v, []) then Isolated else Stopped
  {
    OthersUntouched(k, Handled(k, v, f), others, f);
  }

  /** A FAILED instance becomes ISOLATED exactly when auto-fencing is set, it is a remote one, and the
      Master is in a working state and has not just been invalidated itself; otherwise STOPPED. */
  lemma {:induction false} FencedExactly(k: Config, v: Views, order: seq<Identifier>, n: nat)
    requires ViewsValid(k.local, v) && NO_MASTER !in v && n < |order| && (forall j :: j in order ==> j in v)
    requires (forall a, b :: 0 <= a < b < |order| ==> order[a] != order[b]) && InstanceStateOf(k, v, order[n]).Failed?
    ensures InstanceStateOf(k, WithoutFailed(k, v, order), order[n]) ==
            if order[n] != k.local && k.autoFence && FencingMaster(k, v, order[..n]) then Isolated else Stopped
    decreases |order|
  {
    var f, others := order[0], order[1..];
    HandledFirst(k, v, order);
    assert f !in others;
    if n == 0 {
      assert order[..0] == [];
      FirstFenced(k, v, f, others);
    } else {
      var before := others[..n - 1];
      assert others[n - 1] == order[n] && order[..n] == [f] + before;
      FencedExactly(k, Handled(k, v, f), others, n - 1);
      OneHandled(k, v, f, before);
    }
  }
}
