/** The FiniteStateMachine object of supvisors/statemachine.py: its methods are proved against
    the functions of module StateMachine, and its loop against their iteration. */
module FiniteStateMachine {
  import opened SupvisorsTypes
  import opened StateModes
  import opened StateMachine
  import opened StateMachineTermination
  import opened StateMachineEndings
  import M = SupvisorsStateModes

  class FiniteStateMachine {
    const config: Config
    const modes: M.SupvisorsStateModes
    /** The instances invalidated by the last evaluation. */
    var lost: set<Identifier>
    /** Some process runs on several instances. */
    var conflicts: bool
    /** The requests sent to the local Supervisor. */
    var sent: seq<Ending>
    /** The number of evaluations so far, which stands for the time. */
    var clock: nat

    ghost function View(): Fsm
      reads this, modes
    {
      Fsm(modes.modes, lost, conflicts, sent)
    }

    ghost predicate Valid()
      reads this, modes
    {
      modes.local == config.local && modes.mapper == config.mapper && FsmValid(config, View())
    }

    constructor (config: Config, modes: M.SupvisorsStateModes, conflicts: bool)
      requires modes.local == config.local && modes.mapper == config.mapper
      requires modes.Valid() && modes.modes.Keys == config.Known() && modes.modes[config.local].state.Off?
      ensures Valid() && View() == Fsm(modes.modes, {}, conflicts, []) && clock == 0
      ensures this.config == config && this.modes == modes
    {
      this.config, this.modes, this.conflicts := config, modes, conflicts;
      lost, sent, clock := {}, [], 0;
    }

    method Invalidate(id: Identifier)
      requires Valid() && id in modes.modes && id != NO_MASTER
      requires InstanceStateOf(config, modes.modes, id).Failed?
      modifies modes
      ensures Valid()
      ensures modes.modes == WithInstanceState(config.local, old(modes.modes), id, FencedState(config, old(modes.modes), id))
    {
      var master := modes.modes[config.local].master;
      if id == config.local {
        modes.UpdateInstanceState(id, InstanceState.Stopped);
      } else if config.autoFence && master in modes.modes && IsWorking(modes.modes[master].state) {
        modes.UpdateInstanceState(id, Isolated);
      } else {
        modes.UpdateInstanceState(id, InstanceState.Stopped);
      }
    }

    /** Declares the FAILED instances as STOPPED or ISOLATED. */
    method InvalidateFailed(conflictsLeft: bool)
      requires Valid()
      modifies this`lost, this`conflicts, modes
      ensures Valid() && modes.modes == WithoutFailed(config, old(modes.modes), config.order)
      ensures lost == FailedIn(config, old(modes.modes))
      ensures conflicts == if lost != {} then conflictsLeft else old(conflicts)
    {
      ghost var v := modes.modes;
      var i := 0;
      lost := {};
      while i < |config.order|
        invariant 0 <= i <= |config.order| && Valid() && conflicts == old(conflicts)
        invariant modes.modes == WithoutFailed(config, v, config.order[..i])
        invariant lost == FailedIn(config, v) * Listed(config.order[..i])
      {
        var id := config.order[i];
        StepWithoutFailed(config, v, config.order, i);
        if modes.modes[config.local].instanceStates[id] == Failed {
          Invalidate(id);
          lost := lost + {id};
        }
        i := i + 1;
      }
      assert config.order[..i] == config.order;
      if lost != {} {
        conflicts := conflictsLeft;
      }
    }

    /** Declares the CHECKED instances as RUNNING, and returns them. */
    method ActivateChecked() returns (activated: set<Identifier>)
      requires Valid()
      modifies modes
      ensures Valid() && modes.modes == WithoutChecked(config, old(modes.modes), config.order)
      ensures activated == CheckedIn(config, old(modes.modes))
    {
      ghost var v := modes.modes;
      var i := 0;
      activated := {};
      while i < |config.order|
        invariant 0 <= i <= |config.order| && Valid()
        invariant modes.modes == WithoutChecked(config, v, config.order[..i])
        invariant activated == CheckedIn(config, v) * Listed(config.order[..i])
      {
        var id := config.order[i];
        StepWithoutChecked(config, v, config.order, i);
        if modes.modes[config.local].instanceStates[id] == Checked {
          modes.UpdateInstanceState(id, InstanceState.Running);
          activated := activated + {id};
        }
        i := i + 1;
      }
      assert config.order[..i] == config.order;
    }

    /** Acknowledges the failed and the checked instances; `fromScratch` tells that the working
        state has to be left because of new instances. */
    method AcknowledgeInstances(e: Env) returns (fromScratch: bool)
      requires Valid()
      modifies this`lost, this`conflicts, modes
      ensures Valid() && View() == CheckInstances(config, old(View()), e)
      ensures fromScratch <==> NewInstances(config, old(View()))
    {
      fromScratch := false;
      ghost var v := modes.modes;
      InvalidateFailed(e.conflictsLeft);
      var state := modes.modes[config.local].state;
      WithoutFailedKeepsState(config, v, config.order);
      if state != FsmState.Distribution {
        var activated := ActivateChecked();
        fromScratch := (state == Operation || state == Conciliation) && activated != {};
      }
    }

    /** The local instance, and the initial conditions when the Master is supposed to be elected. */
    method CheckSynchronized() returns (suggestion: Option<FsmState>)
      requires Valid() && modes.stableIdentifiers == StableIdentifiers(config.local, modes.modes)
      ensures suggestion == SynchronizedCheck(config, View())
    {
      if modes.modes[config.local].instanceStates[config.local] != InstanceState.Running {
        return Some(Off);
      }
      var stable := modes.stableIdentifiers;
      var failure := if config.user then lost != {}
                     else if config.core then !CoreRunning(config, stable)
                     else if config.strict then !InitialRunning(config, stable)
                     else config.list && !AllRunning(config, stable);
      if failure {
        if config.strategy == Resync {
          return Some(Synchronization);
        }
        if config.strategy == FailureStrategy.Shutdown {
          return Some(ShuttingDown);
        }
      }
      return None;
    }

    method CheckMasterSlave() returns (suggestion: Option<FsmState>)
      requires Valid() && modes.stableIdentifiers == StableIdentifiers(config.local, modes.modes)
      ensures suggestion == MasterSlaveCheck(config, View())
    {
      suggestion := CheckSynchronized();
      if suggestion == None {
        var agreed := modes.CheckMaster();
        if !agreed {
          return Some(FsmState.Election);
        }
      }
    }

    method GetMasterState() returns (state: Option<FsmState>)
      requires Valid()
      ensures state == MasterState(config, modes.modes)
    {
      var master := modes.modes[config.local].master;
      state := if master in modes.modes then Some(modes.modes[master].state) else None;
    }

    /** check_end_sync_user. */
    method CheckEndSyncUser(e: Env) returns (reached: bool)
      requires Valid()
      modifies modes`modes, modes`published
      ensures Valid()
      ensures modes.modes == if config.user then WithAccepted(config, old(modes.modes), e.accepted) else old(modes.modes)
      ensures reached <==> config.user && MasterRunning(config, modes.modes)
    {
      reached := false;
      if config.user {
        modes.AcceptMaster(e.accepted);
        var master := modes.modes[config.local].master;
        reached := master != NO_MASTER && master in modes.modes
                   && modes.modes[config.local].instanceStates[master] == InstanceState.Running;
      }
    }

    /** The other check_end_sync methods. */
    method CheckEndSync(timedOut: bool, userSync: bool) returns (reached: bool)
      requires Valid() && (userSync <==> config.user && MasterRunning(config, modes.modes))
      ensures reached <==> SyncReached(config, modes.modes, modes.stableIdentifiers, timedOut)
    {
      var stable := modes.stableIdentifiers;
      var strictSync := config.strict && InitialRunning(config, stable);
      var listSync := config.list && AllRunning(config, stable);
      var timeoutSync := config.timeout && timedOut;
      var coreSync := config.core && CoreRunning(config, stable);
      reached := strictSync || listSync || timeoutSync || coreSync || userSync;
    }

    method EvaluateSynchronization(e: Env) returns (next: FsmState)
      requires Valid() && modes.stableIdentifiers == StableIdentifiers(config.local, modes.modes)
      requires State(config, modes.modes).Synchronization?
      modifies modes`modes, modes`published
      ensures Valid() && (View(), Some(next)) == Decide(config, old(View()), e)
    {
      if modes.modes[config.local].instanceStates[config.local] != InstanceState.Running {
        return Off;
      }
      var userSync := CheckEndSyncUser(e);
      var reached := CheckEndSync(e.timedOut, userSync);
      next := if reached then FsmState.Election else Synchronization;
    }

    method EvaluateElection(ghost e: Env) returns (next: FsmState)
      requires Valid() && modes.stableIdentifiers == StableIdentifiers(config.local, modes.modes)
      requires State(config, modes.modes).Election?
      modifies modes`modes, modes`published
      ensures Valid() && (View(), Some(next)) == Decide(config, old(View()), e)
    {
      var suggestion := CheckSynchronized();
      if suggestion != None {
        return suggestion.value;
      }
      next := FsmState.Election;
      if modes.stableIdentifiers != {} {
        var agreed := modes.CheckMaster();
        var masterState := GetMasterState();
        if agreed && (modes.modes[config.local].master == config.local || masterState == Some(FsmState.Distribution)) {
          return FsmState.Distribution;
        }
        assert config.local in Peers(config.local, modes.modes);
        modes.SelectMaster();
      }
    }

    method EvaluateWorking(e: Env) returns (next: Option<FsmState>)
      requires Valid() && modes.stableIdentifiers == StableIdentifiers(config.local, modes.modes)
      requires IsWorking(State(config, modes.modes))
      ensures next == WorkingNext(config, View(), e)
    {
      next := CheckMasterSlave();
      if next == None {
        if modes.modes[config.local].master != config.local {
          next := GetMasterState();
        } else {
          match modes.modes[config.local].state
          case Distribution => next := Some(if e.starting then FsmState.Distribution else Operation);
          case Operation =>
            next := Some(if !e.starting && !e.stopping && conflicts then Conciliation else Operation);
          case _ =>
            next := Some(if e.starting || e.stopping then Conciliation else if !conflicts then Operation else Conciliation);
        }
      }
    }

    method EvaluateEnding(e: Env) returns (next: FsmState)
      requires Valid() && modes.stableIdentifiers == StableIdentifiers(config.local, modes.modes)
      ensures next == EndingNext(config, View(), e)
    {
      var state := modes.modes[config.local].state;
      var suggestion := CheckMasterSlave();
      if suggestion != None {
        return Final;
      }
      if modes.modes[config.local].master == config.local {
        return if e.stopping then state else Final;
      }
      var masterState := GetMasterState();
      return if masterState == Some(state) then state else Final;
    }

    /** The evaluation of the current state. */
    method Next(e: Env) returns (next: Option<FsmState>)
      requires Valid()
      modifies this`lost, this`conflicts, this`clock, modes
      ensures Valid() && (View(), next) == StateMachine.Next(config, old(View()), e)
      ensures clock == old(clock) + 1
    {
      clock := clock + 1;
      var fromScratch := AcknowledgeInstances(e);
      if fromScratch {
        return Some(FsmState.Election);
      }
      modes.EvaluateStability();
      match modes.modes[config.local].state
      case Off =>
        var running := modes.modes[config.local].instanceStates[config.local] == InstanceState.Running;
        next := Some(if running then Synchronization else Off);
      case Synchronization =>
        var suggestion := EvaluateSynchronization(e);
        next := Some(suggestion);
      case Election =>
        var suggestion := EvaluateElection(e);
        next := Some(suggestion);
      case Restarting =>
        var suggestion := EvaluateEnding(e);
        next := Some(suggestion);
      case ShuttingDown =>
        var suggestion := EvaluateEnding(e);
        next := Some(suggestion);
      case Final => next := None;
      case _ => next := EvaluateWorking(e);
    }

    /** Leaves the current state, and enters another one. */
    method Enter(state: FsmState)
      requires Valid()
      modifies this`sent, modes`modes, modes`published
      ensures Valid() && View() == Entered(config, old(View()), state)
    {
      sent := sent + SentOnExit(modes.modes[config.local].state);
      modes.SetState(state);
    }

    /** One turn of the loop. */
    method Transition(target: FsmState, e: Env, ghost run: seq<Turn>, ghost env: nat -> Env, ghost start: nat)
      returns (next: Option<FsmState>)
      requires Valid() && Safe(config) && Allowed(State(config, modes.modes), target)
      requires IsRun(config, run, env, start) && run[|run| - 1] == Turn(View(), Some(target))
      requires start + |run| == clock + 1 && e == env(clock)
      modifies this`lost, this`conflicts, this`sent, this`clock, modes
      ensures Valid() && clock == old(clock) + 1
      ensures IsRun(config, run + [Turn(View(), next)], env, start)
      ensures Closer(config, run[|run| - 1], Turn(View(), next))
    {
      ghost var turn := Advance(config, run, env, start, View(), target, e);
      Enter(target);
      next := Next(e);
    }

    /** Transitions as much as possible; evaluation number `i` reads the environment `env(i)`. */
    method SetState(suggestion: Option<FsmState>, env: nat -> Env) returns (ghost run: seq<Turn>)
      requires Valid() && Safe(config)
      modifies this`lost, this`conflicts, this`sent, this`clock, modes
      ensures Valid()
      ensures IsRun(config, run, env, old(clock)) && run[0] == Turn(old(View()), suggestion)
      ensures Stops(config, run[|run| - 1]) && run[|run| - 1].fsm == View()
    {
      var next := suggestion;
      run := [Turn(View(), next)];
      while next != None && next.value != modes.modes[config.local].state
        invariant Valid() && clock == old(clock) + |run| - 1
        invariant IsRun(config, run, env, old(clock)) && run[0] == Turn(old(View()), suggestion)
        invariant run[|run| - 1] == Turn(View(), next)
        decreases Pending(config, View().views), Remaining(config, View(), next).0, Remaining(config, View(), next).1
      {
        if !Allowed(modes.modes[config.local].state, next.value) {
          break;
        }
        next := Transition(next.value, env(clock), run, env, old(clock));
        run := run + [Turn(View(), next)];
      }
    }
  }

  ghost predicate Closer(k: Config, p: Turn, q: Turn) {
    && FsmValid(k, p.fsm) && FsmValid(k, q.fsm)
    && (|| Pending(k, q.fsm.views) < Pending(k, p.fsm.views)
        || (Pending(k, q.fsm.views) == Pending(k, p.fsm.views)
            && Lower(Remaining(k, q.fsm, q.next), Remaining(k, p.fsm, p.next))))
  }

  /** The next turn extends the run, and is closer to the end. */
  lemma {:induction false} Advance(k: Config, run: seq<Turn>, env: nat -> Env, start: nat, c: Fsm, target: FsmState, e: Env)
    returns (turn: Turn)
    requires IsRun(k, run, env, start) && run[|run| - 1] == Turn(c, Some(target)) && e == env(start + |run| - 1)
    requires FsmValid(k, c) && Safe(k) && Allowed(State(k, c.views), target)
    ensures (turn.fsm, turn.next) == StateMachine.Next(k, Entered(k, c, target), e)
    ensures IsRun(k, run + [turn], env, start) && Closer(k, run[|run| - 1], turn)
  {
    RemainingDescends(k, c, Some(target), e);
    var d := StateMachine.Next(k, Entered(k, c, target), e);
    turn := Turn(d.0, d.1);
    assert LeadsTo(k, Turn(c, Some(target)), e, turn);
    Append(Leads(k), run, turn, env, start);
  }

  // ---- One more instance in the scans ----

  function Listed(order: seq<Identifier>): set<Identifier> {
    set i | i in order
  }

  lemma {:induction false} WithoutFailedAppend(k: Config, v: Views, order: seq<Identifier>, i: Identifier)
    requires ViewsValid(k.local, v) && i in v && forall j :: j in order ==> j in v
    ensures var w := WithoutFailed(k, v, order);
            WithoutFailed(k, v, order + [i]) ==
            if InstanceStateOf(k, w, i).Failed? then WithInstanceState(k.local, w, i, FencedState(k, w, i)) else w
    decreases |order|
  {
    if order != [] {
      var j := order[0];
      var v' := if InstanceStateOf(k, v, j).Failed? then WithInstanceState(k.local, v, j, FencedState(k, v, j)) else v;
      assert (order + [i])[1..] == order[1..] + [i];
      WithoutFailedAppend(k, v', order[1..], i);
    } else {
      assert [i][1..] == [];
    }
  }

  lemma {:induction false} StepWithoutFailed(k: Config, v: Views, order: seq<Identifier>, n: nat)
    requires ViewsValid(k.local, v) && n < |order| && forall j :: j in order ==> j in v
    ensures var w := WithoutFailed(k, v, order[..n]);
            var lost := FailedIn(k, v) * Listed(order[..n]);
            && (InstanceStateOf(k, w, order[n]).Failed? <==> order[n] in FailedIn(k, v) - lost)
            && WithoutFailed(k, v, order[..n + 1]) ==
               (if InstanceStateOf(k, w, order[n]).Failed?
                then WithInstanceState(k.local, w, order[n], FencedState(k, w, order[n])) else w)
            && FailedIn(k, v) * Listed(order[..n + 1]) ==
               (if order[n] in FailedIn(k, v) - lost then lost + {order[n]} else lost)
  {
    assert order[..n + 1] == order[..n] + [order[n]];
    WithoutFailedAppend(k, v, order[..n], order[n]);
    FailedAcknowledged(k, v, order[..n]);
    var w := WithoutFailed(k, v, order[..n]);
    assert InstanceStateOf(k, w, order[n]).Failed? <==> order[n] in FailedIn(k, w);
  }

  lemma {:induction false} WithoutCheckedAppend(k: Config, v: Views, order: seq<Identifier>, i: Identifier)
    requires ViewsValid(k.local, v) && i in v && forall j :: j in order ==> j in v
    ensures var w := WithoutChecked(k, v, order);
            WithoutChecked(k, v, order + [i]) ==
            if InstanceStateOf(k, w, i).Checked? then WithInstanceState(k.local, w, i, Running) else w
    decreases |order|
  {
    if order != [] {
      var j := order[0];
      var v' := if InstanceStateOf(k, v, j).Checked? then WithInstanceState(k.local, v, j, Running) else v;
      assert (order + [i])[1..] == order[1..] + [i];
      WithoutCheckedAppend(k, v', order[1..], i);
    } else {
      assert [i][1..] == [];
    }
  }

  lemma {:induction false} StepWithoutChecked(k: Config, v: Views, order: seq<Identifier>, n: nat)
    requires ViewsValid(k.local, v) && n < |order| && forall j :: j in order ==> j in v
    ensures var w := WithoutChecked(k, v, order[..n]);
            var activated := CheckedIn(k, v) * Listed(order[..n]);
            && (InstanceStateOf(k, w, order[n]).Checked? <==> order[n] in CheckedIn(k, v) - activated)
            && WithoutChecked(k, v, order[..n + 1]) ==
               (if InstanceStateOf(k, w, order[n]).Checked? then WithInstanceState(k.local, w, order[n], Running) else w)
            && CheckedIn(k, v) * Listed(order[..n + 1]) ==
               (if order[n] in CheckedIn(k, v) - activated then activated + {order[n]} else activated)
  {
    assert order[..n + 1] == order[..n] + [order[n]];
    WithoutCheckedAppend(k, v, order[..n], order[n]);
    CheckedAcknowledged(k, v, order[..n]);
    var w := WithoutChecked(k, v, order[..n]);
    assert InstanceStateOf(k, w, order[n]).Checked? <==> order[n] in CheckedIn(k, w);
  }
}
