/** Progress of the Master election over a period with a fixed running set. */
module ElectionConvergence {
  import opened SupvisorsTypes
  import opened StateModes
  import opened Election
  import opened ElectionSafety

  /** The Masters that would be an improvement for the members of `r`, one pair each. Its size
      is the sum of the ranks of the declared Masters. */
  ghost function Improvements(c: Mapper, s: System, r: set<Identifier>): set<(Identifier, Identifier)> {
    set i, x | i in r && x in r && Improves(c, x, MasterSeen(s, i, i)) :: (i, x)
  }

  predicate Improves(c: Mapper, x: Identifier, own: Identifier) {
    own == NO_MASTER || Better(c, x, own)
  }

  /** The event makes its instance declare another Master. */
  ghost predicate Effective(c: Mapper, s: System, e: Event)
    requires WellFormed(c, s)
  {
    MasterSeen(Step(c, s, e), e.at, e.at) != MasterSeen(s, e.at, e.at)
  }

  ghost function EffectiveCount(c: Mapper, s: System, es: seq<Event>, r: set<Identifier>): nat
    requires WellFormed(c, s)
    decreases |es|
  {
    if es == [] then 0
    else (if es[0].at in r && Effective(c, s, es[0]) then 1 else 0)
         + EffectiveCount(c, Step(c, s, es[0]), es[1..], r)
  }

  /** A step only concerns the Master of the instance where it takes place. */
  lemma {:induction false} MasterAfterStep(c: Mapper, s: System, e: Event, i: Identifier)
    requires WellFormed(c, s)
    ensures i != e.at ==> MasterSeen(Step(c, s, e), i, i) == MasterSeen(s, i, i)
    ensures e.at in s.views ==>
              || MasterSeen(Step(c, s, e), e.at, e.at) == MasterSeen(s, e.at, e.at)
              || MasterSeen(Step(c, s, e), e.at, e.at) == ViewAfter(c, s.views[e.at], e, Snapshot(s, e))[e.at].master
  {
  }

  /** The instance of the event keeps its Master or selects a better one. */
  lemma {:induction false} OwnStepImproves(c: Mapper, s0: System, s: System, e: Event, r: set<Identifier>)
    requires WellFormed(c, s) && SafetyInv(c, s0, s, r) && InPeriod(r, e) && e.at in r
    ensures var own := MasterSeen(s, e.at, e.at);
            var own' := MasterSeen(Step(c, s, e), e.at, e.at);
            own' == own || (own' in r && Improves(c, own', own))
  {
    assert Member(s0, s, r, e.at);
    var v := s.views[e.at];
    MasterAfterStep(c, s, e, e.at);
    ViewInPeriod(c, v, e, Snapshot(s, e), r);
    if Stable(e.at, v) {
      MaySelect(c, s0, s, r, e.at);
    }
    if v[e.at].master != NO_MASTER {
      SelectionNeverWorsens(c, e.at, v);
    }
  }

  /** A member never declares a worse Master than before. */
  lemma {:induction false} StepImproves(c: Mapper, s0: System, s: System, e: Event, r: set<Identifier>)
    requires WellFormed(c, s) && SafetyInv(c, s0, s, r) && InPeriod(r, e)
    ensures forall i {:trigger MasterSeen(s, i, i)} :: i in r ==>
              var own := MasterSeen(s, i, i);
              var own' := MasterSeen(Step(c, s, e), i, i);
              own' == own || (i == e.at && own' in r && Improves(c, own', own))
  {
    forall i | i in r
      ensures var own, own' := MasterSeen(s, i, i), MasterSeen(Step(c, s, e), i, i);
              own' == own || (i == e.at && own' in r && Improves(c, own', own))
    {
      if i == e.at {
        OwnStepImproves(c, s0, s, e, r);
      } else {
        MasterAfterStep(c, s, e, i);
      }
    }
  }

  /** An effective selection strictly shrinks the set of improvements; nothing else changes it. */
  lemma {:induction false} StepShrinks(c: Mapper, s0: System, s: System, e: Event, r: set<Identifier>)
    requires WellFormed(c, s) && SafetyInv(c, s0, s, r) && InPeriod(r, e)
    ensures var before := Improvements(c, s, r);
            var after := Improvements(c, Step(c, s, e), r);
            && after <= before
            && (e.at in r && Effective(c, s, e) ==> |after| < |before|)
            && |after| <= |before|
  {
    var s' := Step(c, s, e);
    var before := Improvements(c, s, r);
    var after := Improvements(c, s', r);
    StepImproves(c, s0, s, e, r);
    forall i, x | (i, x) in after ensures (i, x) in before {
      var own := MasterSeen(s, i, i);
      var own' := MasterSeen(s', i, i);
      if own' != own && own != NO_MASTER {
        assert Better(c, x, own') && Better(c, own', own);
        BetterTransitive(c, x, own', own);
      }
    }
    SubsetSize(after, before);
    if e.at in r && Effective(c, s, e) {
      var own' := MasterSeen(s', e.at, e.at);
      assert (e.at, own') in before;
      if (e.at, own') in after {
        assert Better(c, own', own');
        BetterAsymmetric(c, own', own');
      }
      SubsetSize(after, before - {(e.at, own')});
    }
  }

  lemma {:induction false} SubsetSize<T>(a: set<T>, b: set<T>)
    requires a <= b
    ensures |a| <= |b|
    decreases |a|
  {
    if a != {} {
      var x :| x in a;
      SubsetSize(a - {x}, b - {x});
    }
  }

  /** Convergence, part one: over any run of the period, the number of effective selections is
      bounded by the improvements that are left at its start. */
  lemma {:induction false} BoundedSelections(c: Mapper, s0: System, s: System, es: seq<Event>, r: set<Identifier>)
    requires WellFormed(c, s) && SafetyInv(c, s0, s, r)
    requires forall e :: e in es ==> InPeriod(r, e)
    ensures EffectiveCount(c, s, es, r) + |Improvements(c, Run(c, s, es), r)| <= |Improvements(c, s, r)|
    decreases |es|
  {
    if es != [] {
      StepKeepsSafety(c, s0, s, es[0], r);
      StepShrinks(c, s0, s, es[0], r);
      BoundedSelections(c, s0, Step(c, s, es[0]), es[1..], r);
    }
  }

  /** Member `i` is stable in ELECTION, and its next election step keeps its declared Master. */
  ghost predicate SettledMember(c: Mapper, s: System, r: set<Identifier>, i: Identifier) {
    && i in s.views && NodeValid(c, i, s.views[i]) && Peers(i, s.views[i]) == r
    && s.views[i][i].state == FsmState.Election
    && i in r
    && Stable(i, s.views[i])
    && ElectedView(c, i, s.views[i])[i].master == s.views[i][i].master
  }

  /** Every snapshot has been received and no election step changes a declared Master any more. */
  ghost predicate Settled(c: Mapper, s: System, r: set<Identifier>) {
    && r != {}
    && (forall i, j {:trigger MasterSeen(s, i, j)} :: i in r && j in r ==> MasterSeen(s, i, j) == MasterSeen(s, j, j))
    && (forall i {:trigger SettledMember(c, s, r, i)} :: i in r ==> SettledMember(c, s, r, i))
  }

  /** A settled member declares the Master that it would select. */
  lemma {:induction false} UnchangedIsSelected(c: Mapper, i: Identifier, v: Views)
    requires NodeValid(c, i, v) && Electing(i, v) && Stable(i, v)
    requires ElectedView(c, i, v)[i].master == v[i].master
    ensures v[i].master == Selected(c, i, v)
  {
    if MasterAgreed(i, v) {
      assert v[i].master in MasterIdentifiers(i, v) - {NO_MASTER};
      var m := Selected(c, i, v);
      assert m in MasterIdentifiers(i, v);
    }
  }

  /** Two instances with the same peers and the same view of their Masters have the same candidates. */
  lemma {:induction false} SameCandidates(r: set<Identifier>, i: Identifier, v: Views, j: Identifier, w: Views)
    requires ViewsValid(i, v) && ViewsValid(j, w) && Peers(i, v) == r && Peers(j, w) == r
    requires forall k :: k in r ==> v[k].master == w[k].master
    ensures Candidates(i, v) == Candidates(j, w)
  {
    assert MasterIdentifiers(i, v) == MasterIdentifiers(j, w);
  }

  lemma {:induction false} SettledPair(c: Mapper, s: System, r: set<Identifier>, i: Identifier, j: Identifier)
    requires c.Valid() && Settled(c, s, r) && SettledMember(c, s, r, i) && SettledMember(c, s, r, j)
    ensures MasterSeen(s, i, i) == MasterSeen(s, j, j)
  {
    var v, w := s.views[i], s.views[j];
    UnchangedIsSelected(c, i, v);
    UnchangedIsSelected(c, j, w);
    forall k | k in r ensures v[k].master == w[k].master {
      assert MasterSeen(s, i, k) == MasterSeen(s, j, k);
    }
    SameCandidates(r, i, v, j, w);
    BestUnique(c, Candidates(i, v), MasterSeen(s, i, i), MasterSeen(s, j, j));
  }

  lemma {:induction false} AgreedPasses(c: Mapper, i: Identifier, v: Views, m: Identifier)
    requires NodeValid(c, i, v) && Electing(i, v) && Stable(i, v) && m != NO_MASTER
    requires forall j :: j in Peers(i, v) ==> v[j].master == m
    ensures Passes(c, v, Elect(i)) <==> i == m
  {
    assert MasterAgreed(i, v);
  }

  /** Convergence, part two: once settled, all members declare the same running Master, and this
      Master, and no other member, leaves ELECTION as Master at its next step. */
  lemma {:induction false} SettledAgreement(c: Mapper, s0: System, s: System, r: set<Identifier>) returns (m: Identifier)
    requires c.Valid() && SafetyInv(c, s0, s, r) && Settled(c, s, r)
    ensures m in r
    ensures forall i {:trigger MasterSeen(s, i, i)} :: i in r ==> MasterSeen(s, i, i) == m
    ensures forall i {:trigger SettledMember(c, s, r, i)} :: i in r ==>
              SettledMember(c, s, r, i) && (Passes(c, s.views[i], Elect(i)) <==> i == m)
  {
    var i0 :| i0 in r;
    m := MasterSeen(s, i0, i0);
    assert SettledMember(c, s, r, i0);
    MaySelect(c, s0, s, r, i0);
    UnchangedIsSelected(c, i0, s.views[i0]);
    forall i | i in r ensures MasterSeen(s, i, i) == m {
      assert SettledMember(c, s, r, i);
      SettledPair(c, s, r, i, i0);
    }
    forall i | i in r ensures SettledMember(c, s, r, i) && (Passes(c, s.views[i], Elect(i)) <==> i == m) {
      assert SettledMember(c, s, r, i);
      forall j | j in r ensures s.views[i][j].master == m {
        assert MasterSeen(s, i, j) == MasterSeen(s, j, j);
      }
      AgreedPasses(c, i, s.views[i], m);
    }
  }
}
