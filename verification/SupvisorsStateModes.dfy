/** The SupvisorsStateModes object of supvisors/statemodes.py: every method is proved against
    the specification functions of module StateModes. The StateModes objects held by its
    dictionary are represented by their payloads. */
module SupvisorsStateModes {
  import opened SupvisorsTypes
  import opened StateModes

  /** Collects the Running instances, giving up on the first unstable one. */
  method GetStableRunningIdentifiers(states: InstanceStates) returns (stable: set<Identifier>)
    ensures stable == StableRunning(states)
  {
    stable := {};
    var left := states.Keys;
    while left != {}
      invariant left <= states.Keys
      invariant forall i :: i in states && i !in left ==> IsStable(states[i])
      invariant stable == set i | i in states && i !in left && states[i].Running?
      decreases left
    {
      var i :| i in left;
      if !IsStable(states[i]) {
        return {};
      }
      if states[i].Running? {
        stable := stable + {i};
      }
      left := left - {i};
    }
  }

  class SupvisorsStateModes {
    const local: Identifier
    const mapper: Mapper
    /** The modes of every instance; the local one is always up to date. */
    var modes: Views
    var stableIdentifiers: set<Identifier>
    var updateMark: bool
    /** The snapshots sent to the other instances, oldest first. */
    var published: seq<Modes>

    ghost predicate Valid()
      reads this
    {
      ViewsValid(local, modes)
    }

    /** Publishes the local modes. */
    method PublishStatus()
      requires Valid()
      modifies this`published
      ensures published == old(published) + [modes[local]]
    {
      published := published + [modes[local]];
    }

    method DeferredPublishStatus()
      requires Valid()
      modifies this`published, this`updateMark
      ensures !updateMark
      ensures published == old(published) + if old(updateMark) then [modes[local]] else []
    {
      if updateMark {
        PublishStatus();
        updateMark := false;
      }
    }

    /** Declares a Master, and publishes it when it is a new one. */
    method SetMaster(id: Identifier)
      requires Valid()
      modifies this`published, this`modes
      ensures Valid() && modes == old(modes)[local := old(modes)[local].(master := id)]
      ensures published == old(published) + if old(modes)[local].master != id then [modes[local]] else []
    {
      if modes[local].master != id {
        modes := modes[local := modes[local].(master := id)];
        PublishStatus();
      }
    }

    /** Enters a FSM state, and publishes it when it is a new one. */
    method SetState(state: FsmState)
      requires Valid()
      modifies this`published, this`modes
      ensures Valid() && modes == old(modes)[local := old(modes)[local].(state := state)]
      ensures published == old(published) + if old(modes)[local].state != state then [modes[local]] else []
    {
      if modes[local].state != state {
        modes := modes[local := modes[local].(state := state)];
        PublishStatus();
      }
    }

    method UpdateInstanceState(id: Identifier, s: InstanceState)
      requires Valid() && id in modes && id != NO_MASTER
      modifies this`published, this`updateMark, this`modes
      ensures Valid() && modes == WithInstanceState(local, old(modes), id, s)
      ensures published == old(published) +
                           if modes[local].master != old(modes)[local].master then [modes[local]] else []
      ensures updateMark == (old(updateMark) || published == old(published))
    {
      var own := modes[local];
      modes := modes[local := own.(instanceStates := own.instanceStates[id := s])];
      if (s.Stopped? || s.Isolated?) && id != local {
        modes := modes[id := FRESH];
      }
      if !s.Running? && id == modes[local].master {
        SetMaster(NO_MASTER);
      } else {
        updateMark := true;
      }
    }

    method OnInstanceStateEvent(id: Identifier, event: Modes)
      requires Valid() && id in modes
      modifies this`modes
      ensures Valid() && modes == if id != local then old(modes)[id := event] else old(modes)
    {
      if id != local {
        modes := modes[id := event];
      }
    }

    method IsRunning(id: Identifier) returns (r: bool)
      requires Valid() && id in modes
      ensures r <==> id in Peers(local, modes)
    {
      r := modes[local].instanceStates[id].Running?;
    }

    /** Compares the stable sets of all peers with the first of them. */
    method EvaluateStability()
      requires Valid()
      modifies this`stableIdentifiers
      ensures stableIdentifiers == StableIdentifiers(local, modes)
    {
      var left := modes.Keys;
      var first: Option<set<Identifier>> := None;
      var same := true;
      while left != {}
        invariant left <= modes.Keys
        invariant first.None? ==> forall j :: j in Peers(local, modes) ==> j in left
        invariant first.Some? ==> exists j :: j in Peers(local, modes) && j !in left
                                              && StableRunning(modes[j].instanceStates) == first.value
        invariant same && first.Some? ==> forall j :: j in Peers(local, modes) && j !in left
                                                      ==> StableRunning(modes[j].instanceStates) == first.value
        invariant !same ==> exists j, k :: j in Peers(local, modes) && k in Peers(local, modes)
                                           && StableRunning(modes[j].instanceStates) != StableRunning(modes[k].instanceStates)
        decreases left
      {
        var i :| i in left;
        left := left - {i};
        var running := IsRunning(i);
        if running {
          var stable := GetStableRunningIdentifiers(modes[i].instanceStates);
          if first.None? {
            first := Some(stable);
          } else if stable != first.value {
            same := false;
          }
        }
      }
      if first.Some? && same {
        assert AgreedOn(local, modes, first.value);
        stableIdentifiers := first.value;
      } else {
        stableIdentifiers := {};
      }
    }

    method GetMasterIdentifiers() returns (masters: set<Identifier>)
      requires Valid()
      ensures masters == MasterIdentifiers(local, modes)
    {
      masters := {};
      var left := modes.Keys;
      while left != {}
        invariant left <= modes.Keys
        invariant forall j :: j in Peers(local, modes) && j !in left ==> modes[j].master in masters
        invariant forall m :: m in masters ==> exists j :: j in Peers(local, modes) && modes[j].master == m
        decreases left
      {
        var i :| i in left;
        left := left - {i};
        var running := IsRunning(i);
        if running {
          masters := masters + {modes[i].master};
        }
      }
    }

    method CheckMaster() returns (ok: bool)
      requires Valid()
      ensures ok <==> MasterAgreed(local, modes)
    {
      var masters := GetMasterIdentifiers();
      ok := NO_MASTER !in masters && |masters| <= 1;
      OneElement(masters);
      assert forall j :: j in Peers(local, modes) ==> modes[j].master in masters;
    }

    /** Declares the instance with the lowest nick identifier among the core candidates, or
        among all candidates when none is a core instance. */
    method SelectMaster()
      requires Valid() && mapper.Valid() && Peers(local, modes) != {}
      modifies this`published, this`modes
      ensures Valid()
      ensures modes == old(modes)[local := old(modes)[local].(master := Selected(mapper, local, old(modes)))]
      ensures published == old(published) +
                           if old(modes)[local].master != modes[local].master then [modes[local]] else []
    {
      var masters := GetMasterIdentifiers();
      var candidates := masters - {NO_MASTER};
      if candidates == {} {
        candidates := RunningIn(modes[local].instanceStates);
      }
      var best := BestOf(mapper, candidates);
      SetMaster(best);
    }

    /** Accepts any Master declared by a peer (user synchronization). */
    method AcceptMaster(choice: Identifier)
      requires Valid() && mapper.Valid()
      modifies this`published, this`modes
      ensures Valid()
      ensures modes == if MasterIdentifiers(local, old(modes)) - {NO_MASTER} == {} then old(modes)
                       else old(modes)[local := old(modes)[local].(master := Accepted(mapper, local, old(modes), choice))]
    {
      var masters := GetMasterIdentifiers();
      masters := masters - {NO_MASTER};
      if masters != {} {
        if choice in masters {
          SetMaster(choice);
        } else {
          var id := BestOf(mapper, masters);
          SetMaster(id);
        }
      }
    }
  }

  /** The scan of `min(candidates, key=nick_identifier)`. */
  method LowestNick(c: Mapper, s: set<Identifier>) returns (best: Identifier)
    requires c.Valid() && s != {}
    ensures best in s && forall x :: x in s ==> x == best || StrLess(c.nick(best), c.nick(x))
  {
    best :| best in s;
    var left := s - {best};
    while left != {}
      invariant left <= s && best in s
      invariant forall x :: x in s && x !in left ==> x == best || StrLess(c.nick(best), c.nick(x))
      decreases left
    {
      var i :| i in left;
      left := left - {i};
      StrLessTotal(c.nick(i), c.nick(best));
      if StrLess(c.nick(i), c.nick(best)) {
        forall x | x in s && x !in left ensures x == i || StrLess(c.nick(i), c.nick(x)) {
          if x != i && x != best {
            StrLessTransitive(c.nick(i), c.nick(best), c.nick(x));
          }
        }
        best := i;
      }
    }
  }

  method BestOf(c: Mapper, candidates: set<Identifier>) returns (best: Identifier)
    requires c.Valid() && candidates != {}
    ensures best == Best(c, candidates)
  {
    var coreCandidates := set i | i in c.core && i in candidates;
    var eligible := if coreCandidates != {} then coreCandidates else candidates;
    best := LowestNick(c, eligible);
    CoreFirst(c, candidates, best);
    BestUnique(c, candidates, best, Best(c, candidates));
  }

  /** Choosing the lowest nick identifier among the core candidates, or among all candidates
      when there is no core one, is choosing the best candidate. */
  lemma {:induction false} CoreFirst(c: Mapper, candidates: set<Identifier>, best: Identifier)
    requires c.Valid()
    requires var core := set i | i in c.core && i in candidates;
             var eligible := if core != {} then core else candidates;
             best in eligible && forall x :: x in eligible ==> x == best || StrLess(c.nick(best), c.nick(x))
    ensures IsBest(c, candidates, best)
  {
    var core := set i | i in c.core && i in candidates;
    forall x | x in candidates ensures x == best || Better(c, best, x) {
      if x in c.core {
        assert x in core;
      }
    }
  }

  lemma {:induction false} OneElement(s: set<Identifier>)
    ensures |s| <= 1 <==> forall a, b :: a in s && b in s ==> a == b
  {
    if s != {} {
      var a :| a in s;
      assert |s - {a}| == |s| - 1;
      if |s| <= 1 {
        assert s - {a} == {};
      } else {
        var b :| b in s - {a};
      }
    }
  }
}
