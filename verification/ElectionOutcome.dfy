/** The end of the Master election: the Master leaves ELECTION first, and the Slaves follow it once
    they know (ElectionState in supvisors/statemachine.py). */
module ElectionOutcome {
  import opened SupvisorsTypes
  import opened StateModes
  import opened Election
  import opened ElectionSafety
  import opened ElectionConvergence

  /** The FSM state of `j` as last received by `i`. */
  function StateSeen(s: System, i: Identifier, j: Identifier): FsmState {
    Seen(s, i, j).state
  }

  // ---- The elected Master remains the same for all members ----

  /** `m` is the best of all declared Masters, and all members have declared a Master. */
  ghost predicate IsElected(c: Mapper, s0: System, s: System, r: set<Identifier>, m: Identifier) {
    && SafetyInv(c, s0, s, r)
    && m in r && IsBest(c, AllDeclared(s0, s, r), m) && AllHaveMaster(s, r)
  }

  lemma {:induction false} StepKeepsElected(c: Mapper, s0: System, s: System, e: Event, r: set<Identifier>, m: Identifier)
    requires WellFormed(c, s) && IsElected(c, s0, s, r, m) && InPeriod(r, e)
    ensures IsElected(c, s0, Step(c, s, e), r, m)
  {
    StepKeepsSafety(c, s0, s, e, r);
    if e.at in r && Step(c, s, e) != s {
      var declared := StepDeclares(c, s0, s, e, r);
      assert Member(s0, s, r, e.at);
      GrowingDeclared(s0, s, Step(c, s, e), r, e.at, declared);
      NothingNewDeclared(c, s0, s, Step(c, s, e), r, e.at, declared);
    } else {
      OthersStepKeepsMembers(c, s0, s, e, r);
    }
  }

  /** Whoever declares the elected Master goes on declaring it. */
  lemma {:induction false} ElectedIsKept(c: Mapper, s0: System, s: System, e: Event, r: set<Identifier>, m: Identifier, i: Identifier)
    requires WellFormed(c, s) && IsElected(c, s0, s, r, m) && InPeriod(r, e) && i in r && MasterSeen(s, i, i) == m
    ensures MasterSeen(Step(c, s, e), i, i) == m
  {
    var s' := Step(c, s, e);
    StepKeepsElected(c, s0, s, e, r, m);
    StepImproves(c, s0, s, e, r);
    var own' := MasterSeen(s', i, i);
    if own' != m {
      assert Better(c, own', m);
      assert Member(s0, s', r, i);
      OwnIsDeclared(s0, s', r, i);
      BetterAsymmetric(c, own', m);
    }
  }

  // ---- A Slave waits for its Master ----

  /** No event tells `i` that `m` is in DISTRIBUTION, nor drives `i` out of its election. */
  predicate LeavesWaiting(s: System, e: Event, i: Identifier, m: Identifier) {
    && (e.FsmChange? ==> e.at != i)
    && (e.Receive? && e.at == i && e.from == m ==> !Snapshot(s, e).state.Distribution?)
  }

  ghost predicate AllLeaveWaiting(c: Mapper, s: System, es: seq<Event>, i: Identifier, m: Identifier)
    requires WellFormed(c, s)
    decreases |es|
  {
    es == [] || (LeavesWaiting(s, es[0], i, m) && AllLeaveWaiting(c, Step(c, s, es[0]), es[1..], i, m))
  }

  /** `i` is in ELECTION with the Master `m`, which it does not know to be in DISTRIBUTION. */
  predicate Waits(s: System, i: Identifier, m: Identifier) {
    MasterSeen(s, i, i) == m && StateSeen(s, i, i).Election? && !StateSeen(s, i, m).Distribution?
  }

  lemma {:induction false} ElectionWaits(c: Mapper, i: Identifier, v: Views, m: Identifier)
    requires NodeValid(c, i, v) && v[i].master == m && v[i].state.Election? && i != m
    requires m in v && !v[m].state.Distribution?
    ensures var v' := ElectedView(c, i, v); v'[i].state.Election? && v'[m] == v[m]
  {
  }

  lemma {:induction false} ViewWaits(c: Mapper, v: Views, e: Event, received: Modes, r: set<Identifier>, m: Identifier)
    requires NodeValid(c, e.at, v) && e.at in r && InPeriod(r, e) && m in r && m in v && m != e.at && !e.FsmChange?
    requires v[e.at].master == m && v[e.at].state.Election? && !v[m].state.Distribution?
    requires e.Receive? && e.from == m ==> !received.state.Distribution?
    ensures var v' := ViewAfter(c, v, e, received); v'[e.at].state.Election? && !v'[m].state.Distribution?
  {
    if e.Elect? {
      ElectionWaits(c, e.at, v, m);
    }
  }

  lemma {:induction false} SeenAfterStep(c: Mapper, s: System, e: Event, i: Identifier, j: Identifier)
    requires WellFormed(c, s) && i in s.views && j in s.views[i]
    ensures Step(c, s, e) == s || i != e.at ==> Seen(Step(c, s, e), i, j) == Seen(s, i, j)
    ensures Step(c, s, e) != s && i == e.at ==>
              j in ViewAfter(c, s.views[i], e, Snapshot(s, e))
              && Seen(Step(c, s, e), i, j) == ViewAfter(c, s.views[i], e, Snapshot(s, e))[j]
  {
  }

  lemma {:induction false} StepWaits(c: Mapper, s0: System, s: System, e: Event, r: set<Identifier>, m: Identifier, i: Identifier)
    requires WellFormed(c, s) && IsElected(c, s0, s, r, m) && InPeriod(r, e) && i in r && i != m
    requires Waits(s, i, m) && LeavesWaiting(s, e, i, m)
    ensures Waits(Step(c, s, e), i, m)
  {
    ElectedIsKept(c, s0, s, e, r, m, i);
    assert Member(s0, s, r, i);
    assert m in s.views[i];
    SeenAfterStep(c, s, e, i, i);
    SeenAfterStep(c, s, e, i, m);
    if e.at == i && Step(c, s, e) != s {
      ViewWaits(c, s.views[i], e, Snapshot(s, e), r, m);
    }
  }

  /** Over any run of the period, a Slave stays in ELECTION, with the same Master, as long as it is
      not told that its Master is in DISTRIBUTION. */
  lemma {:induction false} SlaveWaits(c: Mapper, s0: System, s: System, es: seq<Event>, r: set<Identifier>, m: Identifier, i: Identifier)
    requires WellFormed(c, s) && IsElected(c, s0, s, r, m) && i in r && i != m
    requires (forall e :: e in es ==> InPeriod(r, e)) && Waits(s, i, m) && AllLeaveWaiting(c, s, es, i, m)
    ensures Waits(Run(c, s, es), i, m)
    decreases |es|
  {
    if es != [] {
      StepWaits(c, s0, s, es[0], r, m, i);
      StepKeepsElected(c, s0, s, es[0], r, m);
      SlaveWaits(c, s0, Step(c, s, es[0]), es[1..], r, m, i);
    }
  }

  /** It starts in a settled system. */
  lemma {:induction false} SettledIsElected(c: Mapper, s0: System, s: System, r: set<Identifier>) returns (m: Identifier)
    requires c.Valid() && SafetyInv(c, s0, s, r) && Settled(c, s, r)
    ensures IsElected(c, s0, s, r, m)
    ensures forall i {:trigger MasterSeen(s, i, i)} :: i in r ==> MasterSeen(s, i, i) == m && StateSeen(s, i, i).Election?
  {
    m := SettledAgreement(c, s0, s, r);
    assert Member(s0, s, r, m) && MasterSeen(s, m, m) == m;
    OwnIsDeclared(s0, s, r, m);
    var p :| Anchor(c, s0, s, r, p);
    forall i | i in r ensures StateSeen(s, i, i).Election? {
      assert SettledMember(c, s, r, i);
    }
  }

  // ---- A Slave follows its Master ----

  /** A stable Slave whose peers all declare its Master leaves ELECTION exactly when it sees this
      Master in DISTRIBUTION. */
  lemma {:induction false} FollowsExactly(c: Mapper, i: Identifier, v: Views, m: Identifier)
    requires NodeValid(c, i, v) && Electing(i, v) && Stable(i, v) && m in v && m != i && m != NO_MASTER
    requires forall j :: j in Peers(i, v) ==> v[j].master == m
    ensures ElectedView(c, i, v)[i].state == if v[m].state.Distribution? then FsmState.Distribution else FsmState.Election
  {
    assert MasterAgreed(i, v);
  }

  /** The run in which the Master passes, then each of `ids` receives its last snapshot and decides. */
  function Follow(m: Identifier, n: nat, ids: seq<Identifier>): seq<Event>
    decreases |ids|
  {
    if ids == [] then [] else [Receive(ids[0], m, n), Elect(ids[0])] + Follow(m, n, ids[1..])
  }

  /** The Master `m` has passed: its last snapshot tells it, and shows the running set. */
  ghost predicate HasPassed(s: System, r: set<Identifier>, m: Identifier, n: nat) {
    && m in s.published && n < |s.published[m]|
    && s.published[m][n].state.Distribution? && s.published[m][n].master == m
    && StableRunning(s.published[m][n].instanceStates) == r
  }

  /** `i` is ready to follow: only the state of its Master may be out of date. */
  ghost predicate IsReady(c: Mapper, s: System, r: set<Identifier>, m: Identifier, i: Identifier) {
    && i in s.views && i in s.published && NodeValid(c, i, s.views[i]) && Peers(i, s.views[i]) == r && i in r && m in r
    && StateSeen(s, i, i).Election?
    && (forall j :: j in r ==> MasterSeen(s, i, j) == m && StableRunning(Seen(s, i, j).instanceStates) == r)
  }

  lemma {:induction false} ReadyIsStable(c: Mapper, i: Identifier, v: Views, r: set<Identifier>)
    requires NodeValid(c, i, v) && Peers(i, v) == r && i in r
    requires forall j :: j in r ==> StableRunning(v[j].instanceStates) == r
    ensures Stable(i, v)
  {
    assert AgreedOn(i, v, r);
  }

  lemma {:induction false} ToldView(c: Mapper, v: Views, i: Identifier, r: set<Identifier>, m: Identifier, told: Modes)
    requires NodeValid(c, i, v) && Peers(i, v) == r && i in r && m in r && i != m && m != NO_MASTER && v[i].state.Election?
    requires forall j :: j in r ==> v[j].master == m && StableRunning(v[j].instanceStates) == r
    requires told.state.Distribution? && told.master == m && StableRunning(told.instanceStates) == r
    ensures NodeValid(c, i, v[m := told]) && ElectedView(c, i, v[m := told])[i].state.Distribution?
    ensures ElectedView(c, i, v[m := told])[i].master == m
  {
    var v' := v[m := told];
    assert Peers(i, v') == r;
    ReadyIsStable(c, i, v', r);
    FollowsExactly(c, i, v', m);
  }

  /** The two systems agree on what `j` sees and has published. */
  ghost predicate SameAt(s: System, s': System, j: Identifier) {
    && (j in s.views <==> j in s'.views) && (j in s.views ==> s'.views[j] == s.views[j])
    && (j in s.published <==> j in s'.published) && (j in s.published ==> s'.published[j] == s.published[j])
  }

  lemma {:induction false} OnlyItselfChanges(c: Mapper, s: System, e: Event)
    requires WellFormed(c, s)
    ensures forall j :: j != e.at ==> SameAt(s, Step(c, s, e), j)
  {
  }

  lemma {:induction false} Received(c: Mapper, s: System, i: Identifier, m: Identifier, n: nat)
    requires WellFormed(c, s) && i in s.views && m in s.views[i] && m != i && m in s.published && n < |s.published[m]|
    ensures var s' := Step(c, s, Receive(i, m, n)); i in s'.views && s'.views[i] == s.views[i][m := s.published[m][n]]
  {
  }

  lemma {:induction false} HasElected(c: Mapper, s: System, i: Identifier)
    requires WellFormed(c, s) && i in s.views
    ensures var s' := Step(c, s, Elect(i)); i in s'.views && s'.views[i] == ElectedView(c, i, s.views[i])
  {
  }

  lemma {:induction false} StillPassed(s: System, s': System, r: set<Identifier>, m: Identifier, n: nat)
    requires HasPassed(s, r, m, n) && SameAt(s, s', m)
    ensures HasPassed(s', r, m, n)
  {
  }

  /** The two steps of a Slave: it receives the snapshot, then decides. */
  ghost function Followed(c: Mapper, s: System, m: Identifier, n: nat, i: Identifier): (r: System)
    requires WellFormed(c, s)
    ensures WellFormed(c, r)
  {
    Step(c, Step(c, s, Receive(i, m, n)), Elect(i))
  }

  lemma {:induction false} SlaveSees(c: Mapper, s: System, r: set<Identifier>, m: Identifier, n: nat, i: Identifier)
    requires WellFormed(c, s) && HasPassed(s, r, m, n) && IsReady(c, s, r, m, i) && i != m && m != NO_MASTER
    ensures var s' := Followed(c, s, m, n, i);
            i in s'.views && s'.views[i] == ElectedView(c, i, s.views[i][m := s.published[m][n]])
    ensures ElectedView(c, i, s.views[i][m := s.published[m][n]])[i].state.Distribution?
    ensures ElectedView(c, i, s.views[i][m := s.published[m][n]])[i].master == m
  {
    var v := s.views[i];
    forall j | j in r ensures v[j].master == m && StableRunning(v[j].instanceStates) == r {
      assert MasterSeen(s, i, j) == m && Seen(s, i, j) == v[j];
    }
    ToldView(c, v, i, r, m, s.published[m][n]);
    Received(c, s, i, m, n);
    HasElected(c, Step(c, s, Receive(i, m, n)), i);
  }

  lemma {:induction false} OthersSame(c: Mapper, s: System, m: Identifier, n: nat, i: Identifier, j: Identifier)
    requires WellFormed(c, s) && j != i
    ensures SameAt(s, Followed(c, s, m, n, i), j)
  {
    var s1 := Step(c, s, Receive(i, m, n));
    OnlyItselfChanges(c, s, Receive(i, m, n));
    OnlyItselfChanges(c, s1, Elect(i));
    assert SameAt(s, s1, j) && SameAt(s1, Step(c, s1, Elect(i)), j);
  }

  /** A Slave that receives the snapshot leaves ELECTION at its next step. */
  lemma {:induction false} SlaveFollows(c: Mapper, s: System, r: set<Identifier>, m: Identifier, n: nat, i: Identifier)
    requires WellFormed(c, s) && HasPassed(s, r, m, n) && IsReady(c, s, r, m, i) && i != m && m != NO_MASTER
    ensures var s' := Followed(c, s, m, n, i);
            StateSeen(s', i, i).Distribution? && MasterSeen(s', i, i) == m && HasPassed(s', r, m, n)
  {
    SlaveSees(c, s, r, m, n, i);
    OthersSame(c, s, m, n, i, m);
    StillPassed(s, Followed(c, s, m, n, i), r, m, n);
  }

  ghost predicate Distributes(s: System, m: Identifier, i: Identifier) {
    StateSeen(s, i, i).Distribution? && MasterSeen(s, i, i) == m
  }

  lemma {:induction false} FollowedInRun(c: Mapper, s: System, m: Identifier, n: nat, ids: seq<Identifier>)
    requires WellFormed(c, s) && ids != []
    ensures Run(c, s, Follow(m, n, ids)) == Run(c, Followed(c, s, m, n, ids[0]), Follow(m, n, ids[1..]))
  {
    RunConcat(c, s, [Receive(ids[0], m, n), Elect(ids[0])], Follow(m, n, ids[1..]));
    RunOfTwo(c, s, Receive(ids[0], m, n), Elect(ids[0]));
  }

  lemma {:induction false} SlavesFollow(c: Mapper, s: System, r: set<Identifier>, m: Identifier, n: nat, ids: seq<Identifier>, i: Identifier)
    requires WellFormed(c, s) && HasPassed(s, r, m, n) && m != NO_MASTER && m !in ids
    requires (forall j :: j in ids ==> IsReady(c, s, r, m, j)) && forall a, b :: 0 <= a < b < |ids| ==> ids[a] != ids[b]
    ensures i in ids ==> Distributes(Run(c, s, Follow(m, n, ids)), m, i)
    ensures i !in ids ==> SameAt(s, Run(c, s, Follow(m, n, ids)), i)
    decreases |ids|
  {
    if ids != [] {
      var first := ids[0];
      SlaveFollows(c, s, r, m, n, first);
      var s1 := Followed(c, s, m, n, first);
      forall j | j in ids[1..] ensures IsReady(c, s1, r, m, j) {
        OthersSame(c, s, m, n, first, j);
        ReadyStays(c, s, s1, r, m, j);
      }
      FollowedInRun(c, s, m, n, ids);
      SlavesFollow(c, s1, r, m, n, ids[1..], i);
      if i != first {
        OthersSame(c, s, m, n, first, i);
      }
    }
  }

  lemma {:induction false} ReadyStays(c: Mapper, s: System, s': System, r: set<Identifier>, m: Identifier, j: Identifier)
    requires IsReady(c, s, r, m, j) && SameAt(s, s', j)
    ensures IsReady(c, s', r, m, j)
  {
    assert forall l :: Seen(s', j, l) == Seen(s, j, l);
  }

  lemma {:induction false} RunConcat(c: Mapper, s: System, a: seq<Event>, b: seq<Event>)
    requires WellFormed(c, s)
    ensures Run(c, s, a + b) == Run(c, Run(c, s, a), b)
    decreases |a|
  {
    if a == [] {
      assert a + b == b;
    } else {
      assert (a + b)[1..] == a[1..] + b;
      RunConcat(c, Step(c, s, a[0]), a[1..], b);
    }
  }

  /** In a settled system, the Master passes, and publishes it. */
  lemma {:induction false} MasterPasses(c: Mapper, s: System, r: set<Identifier>, m: Identifier)
    requires WellFormed(c, s) && SettledMember(c, s, r, m) && Passes(c, s.views[m], Elect(m))
    ensures var s' := Step(c, s, Elect(m));
            && HasPassed(s', r, m, |LogOf(s, m)|) && StateSeen(s', m, m).Distribution? && MasterSeen(s', m, m) == m
            && (forall j :: j != m ==> SameAt(s, s', j))
  {
    StableSeesPeriod(m, s.views[m], r);
  }

  lemma {:induction false} SettledIsReady(c: Mapper, s: System, r: set<Identifier>, m: Identifier, i: Identifier)
    requires WellFormed(c, s) && Settled(c, s, r) && SettledMember(c, s, r, i) && m in r && i in r
    requires forall j {:trigger MasterSeen(s, j, j)} :: j in r ==> MasterSeen(s, j, j) == m
    ensures IsReady(c, s, r, m, i)
  {
    StableSeesPeriod(i, s.views[i], r);
    forall j | j in r ensures MasterSeen(s, i, j) == m && StableRunning(Seen(s, i, j).instanceStates) == r {
      assert MasterSeen(s, i, j) == MasterSeen(s, j, j);
    }
  }

  /** From a settled system, when the Master decides, and then each Slave receives its snapshot and
      decides, in any order: all members are in DISTRIBUTION with the same Master. */
  lemma {:induction false} AllLeaveElection(c: Mapper, s0: System, s: System, r: set<Identifier>, slaves: seq<Identifier>)
    returns (m: Identifier)
    requires WellFormed(c, s) && SafetyInv(c, s0, s, r) && Settled(c, s, r)
    requires forall a, b :: 0 <= a < b < |slaves| ==> slaves[a] != slaves[b]
    requires forall i {:trigger i in slaves} {:trigger i in r} :: (i in slaves || MasterSeen(s, i, i) == i) <==> i in r
    requires forall i :: i in slaves ==> MasterSeen(s, i, i) != i
    ensures m in r && forall i {:trigger MasterSeen(s, i, i)} :: i in r ==> MasterSeen(s, i, i) == m
    ensures var s' := Run(c, s, [Elect(m)] + Follow(m, |LogOf(s, m)|, slaves));
            forall i {:trigger Distributes(s', m, i)} :: i in r ==> Distributes(s', m, i)
  {
    m := SettledAgreement(c, s0, s, r);
    assert SettledMember(c, s, r, m);
    MasterPasses(c, s, r, m);
    var s1, n := Step(c, s, Elect(m)), |LogOf(s, m)|;
    forall i | i in slaves ensures IsReady(c, s1, r, m, i) {
      assert i in r && SettledMember(c, s, r, i);
      SettledIsReady(c, s, r, m, i);
      ReadyStays(c, s, s1, r, m, i);
    }
    RunConcat(c, s, [Elect(m)], Follow(m, n, slaves));
    assert Run(c, s, [Elect(m)]) == Run(c, s1, [Elect(m)][1..]);
    forall i | i in r ensures Distributes(Run(c, s, [Elect(m)] + Follow(m, n, slaves)), m, i) {
      SlavesFollow(c, s1, r, m, n, slaves, i);
      assert i in slaves || i == m;
    }
  }
}
