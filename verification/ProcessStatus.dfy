/** The ProcessStatus object of supvisors/process.py, proved against the functions of module
    ProcessSynthesis. */
module ProcessStatus {
  import opened SupvisorsTypes
  import opened ProcessStates
  import opened ProcessSynthesis

  class ProcessStatus {
    var infoMap: map<Identifier, Info>
    var order: seq<Identifier>
    var runningIdentifiers: set<Identifier>
    var state: ProcessState
    var expectedExit: bool
    var forcedState: Option<ProcessState>

    ghost function View(): Status
      reads this
    {
      Status(infoMap, order, runningIdentifiers, state, expectedExit, forcedState)
    }

    ghost predicate Valid()
      reads this
    {
      Consistent(View())
    }

    constructor ()
      ensures Valid() && View() == NEW_STATUS
    {
      infoMap, order, runningIdentifiers := map[], [], {};
      state, expectedExit, forcedState := Unknown, true, None;
    }

    method IsAnyStopping() returns (r: bool)
      requires forall i :: i in order <==> i in infoMap
      ensures r <==> AnyStopping(View())
    {
      r := false;
      var n := 0;
      while n < |order|
        invariant 0 <= n <= |order| && !r
        invariant forall l :: 0 <= l < n ==> !infoMap[order[l]].state.Stopping?
      {
        if infoMap[order[n]].state == ProcessState.Stopping {
          return true;
        }
        n := n + 1;
      }
    }

    /** The entry with the greatest local time, the first one when there are several. */
    method LatestInfo() returns (i: Identifier)
      requires order != [] && forall j :: j in order ==> j in infoMap
      ensures i == MostRecent(infoMap, order)
    {
      i := order[0];
      assert order[..1] == [order[0]];
      var n := 1;
      while n < |order|
        invariant 1 <= n <= |order| && i in order && i == MostRecent(infoMap, order[..n])
      {
        assert order[..n + 1][..n] == order[..n];
        if infoMap[order[n]].localTime > infoMap[i].localTime {
          i := order[n];
        }
        n := n + 1;
      }
      assert order[..n] == order;
    }

    /** The running set, then the synthetic state, from new information on an instance. */
    method UpdateStatus(i: Identifier)
      requires Usable(View()) && i in infoMap
      modifies this`runningIdentifiers, this`state, this`expectedExit
      ensures View() == AfterStatus(old(View()), i)
    {
      var newState := infoMap[i].state;
      if InStoppedStates(newState) {
        runningIdentifiers := runningIdentifiers - {i};
      } else if InRunningStates(newState) {
        if InStoppedStates(state) {
          runningIdentifiers := {i};
        } else {
          runningIdentifiers := runningIdentifiers + {i};
        }
      }
      ghost var s := View();
      TwoElements(runningIdentifiers);
      if |runningIdentifiers| > 1 {
        var states := set j | j in runningIdentifiers :: infoMap[j].state;
        assert states == set j | j in runningIdentifiers :: StateAt(s, j);
        state := RunningState(states);
      } else if runningIdentifiers != {} {
        var j :| j in runningIdentifiers;
        state := infoMap[j].state;
        expectedExit := true;
      } else {
        var stopping := IsAnyStopping();
        if stopping {
          state, expectedExit := ProcessState.Stopping, true;
        } else {
          assert i in order;
          var j := LatestInfo();
          state, expectedExit := infoMap[j].state, infoMap[j].expected;
        }
      }
    }

    method AddInfo(i: Identifier, info: Info)
      requires Valid()
      modifies this
      ensures Valid() && View() == AfterAdd(old(View()), i, info)
    {
      AddKeepsConsistent(View(), i, info);
      if i !in infoMap {
        order := order + [i];
      }
      infoMap := infoMap[i := info];
      if info.state != ProcessState.Stopped {
        forcedState := None;
      }
      UpdateStatus(i);
    }

    /** Raises KeyError when there is no information from this instance. */
    method UpdateInfo(i: Identifier, info: Info) returns (ok: bool)
      requires Valid()
      modifies this
      ensures Valid() && (ok <==> i in old(infoMap))
      ensures View() == if i in old(infoMap) then AfterUpdate(old(View()), i, info) else old(View())
      ensures ok ==> Displayed(View()) == state
    {
      if i !in infoMap {
        return false;
      }
      UpdateKeepsConsistent(View(), i, info);
      infoMap := infoMap[i := info];
      forcedState := None;
      UpdateStatus(i);
      return true;
    }

    /** `failure` tells that the process does not run anywhere anymore. */
    method InvalidateIdentifier(i: Identifier, now: int) returns (failure: bool)
      requires Valid()
      modifies this
      ensures Valid() && View() == AfterInvalidation(old(View()), i, now)
      ensures runningIdentifiers == old(runningIdentifiers) - {i}
      ensures failure <==> i in old(runningIdentifiers) && runningIdentifiers == {}
    {
      failure := false;
      if i in runningIdentifiers {
        var ok := UpdateInfo(i, Info(Fatal, false, now, infoMap[i].eventTime));
        failure := runningIdentifiers == {};
      }
    }

    method RunningOn(i: Identifier) returns (r: bool)
      ensures r <==> RunsOn(View(), i)
    {
      var running := state == ProcessState.Running || state == Backoff || state == ProcessState.Starting;
      r := running && i in runningIdentifiers;
    }

    /** `last` tells that the process is not defined anywhere anymore. Nothing is evaluated again, so
        the status may not be right when the process is not stopped there. */
    method RemoveIdentifier(i: Identifier) returns (last: bool)
      requires Valid() && i in infoMap
      modifies this`infoMap, this`order
      ensures Valid() <==> i !in runningIdentifiers && (InStoppedStates(old(infoMap)[i].state) || StopsElsewhere(old(View()), i))
      ensures View() == AfterRemoval(old(View()), i)
      ensures last <==> infoMap == map[]
    {
      RemovalKeepsConsistent(View(), i);
      infoMap := infoMap - {i};
      order := Without(order, i);
      last := infoMap == map[];
    }

    /** The forced event is dismissed when more recent information has been received. */
    method ForceState(i: Identifier, forced: ProcessState, time: int) returns (applied: bool)
      requires Valid()
      modifies this`forcedState
      ensures Valid() && View() == AfterForced(old(View()), i, forced, time)
      ensures applied <==> (i in infoMap ==> infoMap[i].eventTime <= time)
      ensures applied ==> Displayed(View()) == forced
      ensures !applied ==> Displayed(View()) == old(Displayed(View()))
    {
      applied := i !in infoMap || infoMap[i].eventTime <= time;
      if applied {
        forcedState := Some(forced);
      }
    }
  }

  /** What the loss of an instance does to one process, in invalidate_failed; `failure` tells that
      the process belongs to the failed ones. */
  method LoseInstance(p: ProcessStatus, i: Identifier, now: int) returns (failure: bool)
    requires p.Valid()
    modifies p
    ensures p.Valid() && p.View() == AfterLoss(old(p.View()), i, now)
    ensures failure <==> InRunningStates(old(p.state)) && old(p.runningIdentifiers) == {i}
  {
    failure := false;
    var running := p.RunningOn(i);
    if running {
      failure := p.InvalidateIdentifier(i, now);
    }
  }
}
