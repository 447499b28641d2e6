/** Safety of the Master election: while the running set is fixed, at most one instance passes as
    Master. */
module ElectionSafety {
  import opened SupvisorsTypes
  import opened StateModes
  import opened Election

  /** The last modes of `j` received by `i`. */
  function Seen(s: System, i: Identifier, j: Identifier): Modes {
    if i in s.views && j in s.views[i] then s.views[i][j] else FRESH
  }

  function MasterSeen(s: System, i: Identifier, j: Identifier): Identifier {
    Seen(s, i, j).master
  }

  function LogOf(s: System, i: Identifier): seq<Modes> {
    if i in s.published then s.published[i] else []
  }

  /** The Masters of the entries of a log, from `start` on. */
  function Declared(log: seq<Modes>, start: nat): set<Identifier> {
    set k | start <= k < |log| :: log[k].master
  }

  lemma {:induction false} DeclaredAppend(log: seq<Modes>, start: nat, m: Modes)
    requires start <= |log|
    ensures Declared(log + [m], start) == Declared(log, start) + {m.master}
  {
    var log' := log + [m];
    assert log'[|log|] == m;
    assert forall k :: 0 <= k < |log| ==> log'[k] == log[k];
  }

  /** Every Master that `i` has declared since `s0`, the one of `s0` included. */
  function DeclaredBy(s0: System, s: System, i: Identifier): set<Identifier> {
    {MasterSeen(s0, i, i)} + Declared(LogOf(s, i), |LogOf(s0, i)|)
  }

  /** All Masters declared by the members of `r`. */
  ghost function AllDeclared(s0: System, s: System, r: set<Identifier>): set<Identifier> {
    set i, m | i in r && m in DeclaredBy(s0, s, i) && m != NO_MASTER :: m
  }

  /** The members of `r` see exactly `r` as Running, and keep doing so. */
  predicate InPeriod(r: set<Identifier>, e: Event) {
    e.InstanceChange? && e.at in r ==> e.about !in r && !e.instance.Running?
  }

  ghost predicate Member(s0: System, s: System, r: set<Identifier>, i: Identifier) {
    && i in s.views && i in s.published && ViewsValid(i, s.views[i])
    && Peers(i, s.views[i]) == r
    && MasterSeen(s, i, i) in DeclaredBy(s0, s, i)
    && DeclaredBy(s0, s, i) <= r + {NO_MASTER}
    && (MasterSeen(s, i, i) == NO_MASTER ==> DeclaredBy(s0, s, i) <= {NO_MASTER})
    && |LogOf(s0, i)| <= |LogOf(s, i)|
  }

  /** `p` has only ever declared the best of all declared Masters. */
  ghost predicate Anchor(c: Mapper, s0: System, s: System, r: set<Identifier>, p: Identifier) {
    && p in r
    && MasterSeen(s, p, p) != NO_MASTER
    && IsBest(c, AllDeclared(s0, s, r), MasterSeen(s, p, p))
    && DeclaredBy(s0, s, p) <= {NO_MASTER, MasterSeen(s, p, p)}
  }

  ghost predicate AllHaveMaster(s: System, r: set<Identifier>) {
    forall i {:trigger MasterSeen(s, i, i)} :: i in r ==> MasterSeen(s, i, i) != NO_MASTER
  }

  ghost predicate AllMembers(s0: System, s: System, r: set<Identifier>) {
    forall i {:trigger Member(s0, s, r, i)} :: i in r ==> Member(s0, s, r, i)
  }

  /** A snapshot of `j` is harmless when its Master has been declared since `s0`, or when it shows
      another running set: who holds it is not stable, and neither selects nor passes. */
  predicate Harmless(s0: System, s: System, r: set<Identifier>, j: Identifier, m: Modes) {
    m.master in DeclaredBy(s0, s, j) || StableRunning(m.instanceStates) != r
  }

  ghost predicate SeenIsHarmless(s0: System, s: System, r: set<Identifier>) {
    forall i, j {:trigger Seen(s, i, j)} :: i in r && j in r ==> Harmless(s0, s, r, j, Seen(s, i, j))
  }

  /** So are the snapshots that can still be received. */
  ghost predicate LogIsHarmless(s0: System, s: System, r: set<Identifier>) {
    forall j, n: nat {:trigger LogOf(s, j)[n]} :: j in r && n < |LogOf(s, j)| ==> Harmless(s0, s, r, j, LogOf(s, j)[n])
  }

  ghost predicate Anchored(c: Mapper, s0: System, s: System, r: set<Identifier>) {
    AllDeclared(s0, s, r) == {} || exists p :: Anchor(c, s0, s, r, p)
  }

  /** Whoever has passed since `s0`. */
  ghost predicate PassedIsBest(c: Mapper, s0: System, s: System, r: set<Identifier>) {
    forall k {:trigger s.passed[k]} :: |s0.passed| <= k < |s.passed| && s.passed[k] in r ==>
      IsBest(c, AllDeclared(s0, s, r), s.passed[k]) && AllHaveMaster(s, r)
  }

  ghost predicate SafetyInv(c: Mapper, s0: System, s: System, r: set<Identifier>) {
    && NO_MASTER !in r && AllMembers(s0, s, r)
    && SeenIsHarmless(s0, s, r) && LogIsHarmless(s0, s, r)
    && Anchored(c, s0, s, r) && PassedIsBest(c, s0, s, r)
  }

  lemma {:induction false} ElectionInPeriod(c: Mapper, i: Identifier, v: Views)
    requires NodeValid(c, i, v)
    ensures var v' := ElectedView(c, i, v);
            && Peers(i, v') == Peers(i, v)
            && (v'[i].master == v[i].master
                || (i in Peers(i, v) && Stable(i, v) && v'[i].master == Selected(c, i, v)))
            && (forall j :: j in v && j != i ==> v'[j] == v[j])
  {
  }

  /** A member of the period only changes its declared Master by a selection. */
  lemma {:induction false} ViewInPeriod(c: Mapper, v: Views, e: Event, received: Modes, r: set<Identifier>)
    requires NodeValid(c, e.at, v) && Peers(e.at, v) == r && e.at in r && InPeriod(r, e)
    requires v[e.at].master in r + {NO_MASTER}
    ensures var v' := ViewAfter(c, v, e, received);
            && Peers(e.at, v') == r
            && (v'[e.at].master == v[e.at].master
                || (e.Elect? && Stable(e.at, v) && v'[e.at].master == Selected(c, e.at, v)))
            && (forall j :: j in r && j != e.at ==>
                  v'[j] == v[j] || (e.Receive? && e.from == j && v'[j] == received))
  {
    if e.Elect? {
      ElectionInPeriod(c, e.at, v);
    }
  }

  lemma {:induction false} AdoptDeclared(s0: System, s: System, e: Event, v: Views, passes: bool)
    requires e.at in s.views && e.at in s.published && e.at in v && e.at in s.views[e.at]
    requires MasterSeen(s, e.at, e.at) in DeclaredBy(s0, s, e.at) && |LogOf(s0, e.at)| <= |LogOf(s, e.at)|
    ensures DeclaredBy(s0, Adopt(s, e, v, passes), e.at) == DeclaredBy(s0, s, e.at) + {v[e.at].master}
  {
    DeclaredAppend(s.published[e.at], |LogOf(s0, e.at)|, v[e.at]);
    assert s.published[e.at] + [] == s.published[e.at];
  }

  lemma {:induction false} GrowingDeclared(s0: System, s: System, s': System, r: set<Identifier>, at: Identifier, m: Identifier)
    requires forall i :: i in r && i != at ==> DeclaredBy(s0, s', i) == DeclaredBy(s0, s, i)
    requires at in r && DeclaredBy(s0, s', at) == DeclaredBy(s0, s, at) + {m}
    ensures AllDeclared(s0, s', r) == AllDeclared(s0, s, r) + ({m} - {NO_MASTER})
  {
    forall x | x in AllDeclared(s0, s, r) ensures x in AllDeclared(s0, s', r) {
      var i :| i in r && x in DeclaredBy(s0, s, i) && x != NO_MASTER;
      assert x in DeclaredBy(s0, s', i);
    }
  }

  /** The first declarations come from the running instances; afterwards only declared Masters
      are selected, and the best declared Master is selected again by whoever declares it. */
  lemma {:induction false} SelectionInPeriod(c: Mapper, i: Identifier, v: Views, r: set<Identifier>, all: set<Identifier>)
    requires c.Valid() && ViewsValid(i, v) && Peers(i, v) == r && i in r
    requires all <= r && forall j :: j in r && v[j].master != NO_MASTER ==> v[j].master in all
    ensures Selected(c, i, v) in r
    ensures Selected(c, i, v) in all || (v[i].master == NO_MASTER && IsBest(c, all + {Selected(c, i, v)}, Selected(c, i, v)))
    ensures v[i].master != NO_MASTER && IsBest(c, all, v[i].master) ==> Selected(c, i, v) == v[i].master
  {
    var m := Selected(c, i, v);
    if v[i].master != NO_MASTER {
      SelectionNeverWorsens(c, i, v);
      assert v[i].master in MasterIdentifiers(i, v) - {NO_MASTER};
      assert m in MasterIdentifiers(i, v);
      if IsBest(c, all, v[i].master) && m != v[i].master {
        BetterAsymmetric(c, m, v[i].master);
      }
    }
  }

  /** A stable member agrees on `r` with all members that it sees. */
  lemma {:induction false} StableSeesPeriod(i: Identifier, v: Views, r: set<Identifier>)
    requires ViewsValid(i, v) && Peers(i, v) == r && i in r && Stable(i, v)
    ensures forall j :: j in r ==> StableRunning(v[j].instanceStates) == r
  {
    var agreed := StableIdentifiers(i, v);
    assert AgreedOn(i, v, agreed);
    assert StableRunning(v[i].instanceStates) == agreed;
  }

  /** So all that it sees has been declared since the start of the period. */
  lemma {:induction false} StableIsFresh(c: Mapper, s0: System, s: System, r: set<Identifier>, at: Identifier)
    requires SafetyInv(c, s0, s, r) && at in r && Member(s0, s, r, at) && Stable(at, s.views[at])
    ensures forall j :: j in r ==> s.views[at][j].master in DeclaredBy(s0, s, j)
  {
    StableSeesPeriod(at, s.views[at], r);
    forall j | j in r ensures s.views[at][j].master in DeclaredBy(s0, s, j) {
      assert Harmless(s0, s, r, j, Seen(s, at, j));
    }
  }

  /** An instance that passes as Master sees every member declare it: all members have a Master,
      and it is the anchor's. */
  lemma {:induction false} PassingIsBest(c: Mapper, s0: System, s: System, r: set<Identifier>, at: Identifier)
    requires c.Valid() && SafetyInv(c, s0, s, r) && at in r && Member(s0, s, r, at)
    requires Stable(at, s.views[at]) && MasterAgreed(at, s.views[at]) && MasterSeen(s, at, at) == at
    ensures IsBest(c, AllDeclared(s0, s, r), at) && AllHaveMaster(s, r)
  {
    StableIsFresh(c, s0, s, r, at);
    forall i | i in r ensures at in DeclaredBy(s0, s, i) && at != NO_MASTER {
      assert i in Peers(at, s.views[at]);
    }
    forall i | i in r ensures MasterSeen(s, i, i) != NO_MASTER {
      assert Member(s0, s, r, i);
    }
    assert at in AllDeclared(s0, s, r);
    var p :| Anchor(c, s0, s, r, p);
    assert at in DeclaredBy(s0, s, p);
  }

  /** `m` is a Master that `at` may declare next. */
  ghost predicate MayDeclare(c: Mapper, s0: System, s: System, r: set<Identifier>, at: Identifier, m: Identifier) {
    var own := MasterSeen(s, at, at);
    var all := AllDeclared(s0, s, r);
    m == own || (m != NO_MASTER
                 && (m in all || (own == NO_MASTER && IsBest(c, all + {m}, m)))
                 && (own != NO_MASTER && IsBest(c, all, own) ==> m == own))
  }

  /** From `s` to `s'`, `at` declares `m`. */
  ghost predicate Declares(s0: System, s: System, s': System, r: set<Identifier>, at: Identifier, m: Identifier) {
    && at in r
    && (forall i {:trigger DeclaredBy(s0, s', i)} :: i in r && i != at ==> DeclaredBy(s0, s', i) == DeclaredBy(s0, s, i))
    && DeclaredBy(s0, s', at) == DeclaredBy(s0, s, at) + {m}
    && MasterSeen(s', at, at) == m
    && (forall i {:trigger MasterSeen(s', i, i)} :: i in r && i != at ==> MasterSeen(s', i, i) == MasterSeen(s, i, i))
  }

  lemma {:induction false} AnchorRemains(c: Mapper, s0: System, s: System, s': System, r: set<Identifier>, at: Identifier, m: Identifier, p: Identifier)
    requires Anchor(c, s0, s, r, p) && Declares(s0, s, s', r, at, m) && MayDeclare(c, s0, s, r, at, m)
    requires AllDeclared(s0, s', r) == AllDeclared(s0, s, r)
    ensures Anchor(c, s0, s', r, p)
  {
    if p == at {
      assert m == MasterSeen(s, p, p);
    }
  }

  lemma {:induction false} NewAnchor(c: Mapper, s0: System, s: System, s': System, r: set<Identifier>, at: Identifier, m: Identifier)
    requires Declares(s0, s, s', r, at, m) && Member(s0, s, r, at) && MasterSeen(s, at, at) == NO_MASTER && m != NO_MASTER
    requires IsBest(c, AllDeclared(s0, s', r), m)
    ensures Anchor(c, s0, s', r, at)
  {
  }

  lemma {:induction false} OwnIsDeclared(s0: System, s: System, r: set<Identifier>, i: Identifier)
    requires i in r && Member(s0, s, r, i) && MasterSeen(s, i, i) != NO_MASTER
    ensures MasterSeen(s, i, i) in AllDeclared(s0, s, r)
  {
  }

  lemma {:induction false} DeclarationKeepsAnchor(c: Mapper, s0: System, s: System, s': System, r: set<Identifier>, at: Identifier, m: Identifier)
    requires Anchored(c, s0, s, r) && Declares(s0, s, s', r, at, m) && MayDeclare(c, s0, s, r, at, m) && Member(s0, s, r, at)
    requires AllDeclared(s0, s', r) == AllDeclared(s0, s, r) + ({m} - {NO_MASTER})
    ensures Anchored(c, s0, s', r)
  {
    var all := AllDeclared(s0, s, r);
    if m == NO_MASTER || m in all {
      assert AllDeclared(s0, s', r) == all;
      if all != {} {
        var p :| Anchor(c, s0, s, r, p);
        AnchorRemains(c, s0, s, s', r, at, m, p);
      }
    } else {
      if MasterSeen(s, at, at) != NO_MASTER {
        OwnIsDeclared(s0, s, r, at);
      }
      NewAnchor(c, s0, s, s', r, at, m);
    }
  }

  /** Only the best declared Master passes, once all members have a Master. */
  ghost predicate OnlyBestPasses(c: Mapper, s0: System, s: System, s': System, r: set<Identifier>) {
    && s.passed <= s'.passed
    && forall k {:trigger s'.passed[k]} :: |s.passed| <= k < |s'.passed| && s'.passed[k] in r ==>
         IsBest(c, AllDeclared(s0, s, r), s'.passed[k]) && AllHaveMaster(s, r)
  }

  /** Once all members have a Master, only declared Masters are declared. */
  lemma {:induction false} NothingNewDeclared(c: Mapper, s0: System, s: System, s': System, r: set<Identifier>, at: Identifier, m: Identifier)
    requires Declares(s0, s, s', r, at, m) && MayDeclare(c, s0, s, r, at, m) && Member(s0, s, r, at) && AllHaveMaster(s, r)
    requires AllDeclared(s0, s', r) == AllDeclared(s0, s, r) + ({m} - {NO_MASTER})
    ensures AllDeclared(s0, s', r) == AllDeclared(s0, s, r) && AllHaveMaster(s', r)
  {
    OwnIsDeclared(s0, s, r, at);
    assert m in AllDeclared(s0, s, r);
  }

  lemma {:induction false} DeclarationKeepsPassed(c: Mapper, s0: System, s: System, s': System, r: set<Identifier>, at: Identifier, m: Identifier)
    requires PassedIsBest(c, s0, s, r) && OnlyBestPasses(c, s0, s, s', r)
    requires Declares(s0, s, s', r, at, m) && MayDeclare(c, s0, s, r, at, m) && Member(s0, s, r, at)
    requires AllDeclared(s0, s', r) == AllDeclared(s0, s, r) + ({m} - {NO_MASTER})
    ensures PassedIsBest(c, s0, s', r)
  {
    if AllHaveMaster(s, r) {
      NothingNewDeclared(c, s0, s, s', r, at, m);
    }
    forall k | |s0.passed| <= k < |s'.passed| && s'.passed[k] in r
      ensures IsBest(c, AllDeclared(s0, s', r), s'.passed[k]) && AllHaveMaster(s', r)
    {
      assert k < |s.passed| ==> s'.passed[k] == s.passed[k];
    }
  }

  /** The snapshots that are seen or can be received are those of before, or new declarations. */
  ghost predicate SnapshotsKept(s0: System, s: System, s': System, r: set<Identifier>) {
    && (forall i, j {:trigger Seen(s', i, j)} :: i in r && j in r ==>
          Seen(s', i, j) == Seen(s, i, j) || Harmless(s0, s', r, j, Seen(s', i, j)))
    && (forall j, n: nat {:trigger LogOf(s', j)[n]} :: j in r && n < |LogOf(s', j)| ==>
          (n < |LogOf(s, j)| && LogOf(s', j)[n] == LogOf(s, j)[n]) || Harmless(s0, s', r, j, LogOf(s', j)[n]))
  }

  lemma {:induction false} SnapshotsStayHarmless(s0: System, s: System, s': System, r: set<Identifier>)
    requires SeenIsHarmless(s0, s, r) && LogIsHarmless(s0, s, r) && SnapshotsKept(s0, s, s', r)
    requires forall j {:trigger DeclaredBy(s0, s', j)} :: j in r ==> DeclaredBy(s0, s, j) <= DeclaredBy(s0, s', j)
    ensures SeenIsHarmless(s0, s', r) && LogIsHarmless(s0, s', r)
  {
    forall i, j | i in r && j in r ensures Harmless(s0, s', r, j, Seen(s', i, j)) {
      assert Harmless(s0, s, r, j, Seen(s, i, j));
      assert DeclaredBy(s0, s, j) <= DeclaredBy(s0, s', j);
    }
    forall j, n: nat | j in r && n < |LogOf(s', j)| ensures Harmless(s0, s', r, j, LogOf(s', j)[n]) {
      assert n < |LogOf(s, j)| ==> Harmless(s0, s, r, j, LogOf(s, j)[n]);
      assert DeclaredBy(s0, s, j) <= DeclaredBy(s0, s', j);
    }
  }

  lemma {:induction false} DeclarationKeepsSafety(c: Mapper, s0: System, s: System, s': System, r: set<Identifier>, at: Identifier, m: Identifier)
    requires SafetyInv(c, s0, s, r) && AllMembers(s0, s', r) && SnapshotsKept(s0, s, s', r)
    requires Declares(s0, s, s', r, at, m) && MayDeclare(c, s0, s, r, at, m)
    requires OnlyBestPasses(c, s0, s, s', r)
    ensures SafetyInv(c, s0, s', r)
  {
    assert Member(s0, s, r, at);
    GrowingDeclared(s0, s, s', r, at, m);
    DeclarationKeepsAnchor(c, s0, s, s', r, at, m);
    DeclarationKeepsPassed(c, s0, s, s', r, at, m);
    SnapshotsStayHarmless(s0, s, s', r);
  }

  /** The two systems agree on the members of `r`. */
  ghost predicate SameMembers(s: System, s': System, r: set<Identifier>) {
    forall i {:trigger i in r} :: i in r ==>
      && i in s.views && i in s'.views && s'.views[i] == s.views[i]
      && i in s.published && i in s'.published && s'.published[i] == s.published[i]
  }

  lemma {:induction false} SameAnchored(c: Mapper, s0: System, s: System, s': System, r: set<Identifier>)
    requires Anchored(c, s0, s, r) && AllDeclared(s0, s', r) == AllDeclared(s0, s, r)
    requires forall i {:trigger i in r} :: i in r ==>
               DeclaredBy(s0, s', i) == DeclaredBy(s0, s, i) && MasterSeen(s', i, i) == MasterSeen(s, i, i)
    ensures Anchored(c, s0, s', r)
  {
    if AllDeclared(s0, s, r) != {} {
      var p :| Anchor(c, s0, s, r, p);
      assert Anchor(c, s0, s', r, p);
    }
  }

  lemma {:induction false} SameMembersKeepSafety(c: Mapper, s0: System, s: System, s': System, r: set<Identifier>)
    requires SafetyInv(c, s0, s, r) && SameMembers(s, s', r)
    requires s.passed <= s'.passed && forall k {:trigger s'.passed[k]} :: |s.passed| <= k < |s'.passed| ==> s'.passed[k] !in r
    ensures SafetyInv(c, s0, s', r)
  {
    forall i | i in r
      ensures DeclaredBy(s0, s', i) == DeclaredBy(s0, s, i) && Member(s0, s', r, i)
      ensures LogOf(s', i) == LogOf(s, i)
      ensures forall j :: Seen(s', i, j) == Seen(s, i, j)
    {
      assert Member(s0, s, r, i);
    }
    SnapshotsStayHarmless(s0, s, s', r);
    SameAnchored(c, s0, s, s', r);
    forall k | |s0.passed| <= k < |s'.passed| && s'.passed[k] in r
      ensures IsBest(c, AllDeclared(s0, s', r), s'.passed[k]) && AllHaveMaster(s', r)
    {
      assert s'.passed[k] == s.passed[k];
      assert AllHaveMaster(s, r);
    }
  }

  lemma {:induction false} DeclaredAreMembers(s0: System, s: System, r: set<Identifier>)
    requires AllMembers(s0, s, r)
    ensures AllDeclared(s0, s, r) <= r
  {
    forall x | x in AllDeclared(s0, s, r) ensures x in r {
      var i :| i in r && x in DeclaredBy(s0, s, i) && x != NO_MASTER;
      assert Member(s0, s, r, i);
    }
  }

  lemma {:induction false} MaySelect(c: Mapper, s0: System, s: System, r: set<Identifier>, at: Identifier)
    requires c.Valid() && SafetyInv(c, s0, s, r) && at in r && Member(s0, s, r, at) && Stable(at, s.views[at])
    ensures MayDeclare(c, s0, s, r, at, Selected(c, at, s.views[at])) && Selected(c, at, s.views[at]) in r
  {
    var v := s.views[at];
    DeclaredAreMembers(s0, s, r);
    StableIsFresh(c, s0, s, r, at);
    forall j | j in r && v[j].master != NO_MASTER ensures v[j].master in AllDeclared(s0, s, r) {
    }
    SelectionInPeriod(c, at, v, r, AllDeclared(s0, s, r));
  }

  lemma {:induction false} MemberAfter(s0: System, s: System, r: set<Identifier>, e: Event, v: Views, passes: bool, i: Identifier)
    requires Member(s0, s, r, e.at) && e.at in r && ViewsValid(e.at, v) && Peers(e.at, v) == r
    requires v[e.at].master == MasterSeen(s, e.at, e.at) || v[e.at].master in r
    requires NO_MASTER !in r && Member(s0, s, r, i)
    ensures Member(s0, Adopt(s, e, v, passes), r, i)
  {
    if i == e.at {
      AdoptDeclared(s0, s, e, v, passes);
    }
  }

  lemma {:induction false} AdoptDeclares(s0: System, s: System, r: set<Identifier>, e: Event, v: Views, passes: bool)
    requires Member(s0, s, r, e.at) && e.at in r && e.at in v
    ensures Declares(s0, s, Adopt(s, e, v, passes), r, e.at, v[e.at].master)
  {
    AdoptDeclared(s0, s, e, v, passes);
  }

  lemma {:induction false} AdoptKeepsViews(s0: System, s: System, r: set<Identifier>, e: Event, v: Views, passes: bool)
    requires Member(s0, s, r, e.at) && e.at in r && ViewsValid(e.at, v) && r <= v.Keys
    requires forall j :: j in r && j != e.at ==> v[j] == Seen(s, e.at, j) || Harmless(s0, s, r, j, v[j])
    ensures forall i, j {:trigger Seen(Adopt(s, e, v, passes), i, j)} :: i in r && j in r ==>
              var m := Seen(Adopt(s, e, v, passes), i, j);
              m == Seen(s, i, j) || Harmless(s0, s, r, j, m) || (j == e.at && m.master == v[e.at].master)
  {
  }

  lemma {:induction false} AdoptKeepsLogs(s: System, e: Event, v: Views, passes: bool, j: Identifier, n: nat)
    requires e.at in s.views && e.at in s.published && e.at in v && e.at in s.views[e.at]
    requires n < |LogOf(Adopt(s, e, v, passes), j)|
    ensures var m := LogOf(Adopt(s, e, v, passes), j)[n];
            (n < |LogOf(s, j)| && m == LogOf(s, j)[n]) || (j == e.at && m == v[e.at])
  {
  }

  /** What is received has been published; what is published is declared. */
  lemma {:induction false} AdoptKeepsSnapshots(s0: System, s: System, r: set<Identifier>, e: Event, v: Views, passes: bool)
    requires Member(s0, s, r, e.at) && e.at in r && ViewsValid(e.at, v) && r <= v.Keys
    requires forall j :: j in r && j != e.at ==> v[j] == Seen(s, e.at, j) || Harmless(s0, s, r, j, v[j])
    requires Declares(s0, s, Adopt(s, e, v, passes), r, e.at, v[e.at].master)
    ensures SnapshotsKept(s0, s, Adopt(s, e, v, passes), r)
  {
    var s' := Adopt(s, e, v, passes);
    AdoptKeepsViews(s0, s, r, e, v, passes);
    forall i, j | i in r && j in r ensures Seen(s', i, j) == Seen(s, i, j) || Harmless(s0, s', r, j, Seen(s', i, j)) {
      assert DeclaredBy(s0, s, j) <= DeclaredBy(s0, s', j);
    }
    forall j, n: nat | j in r && n < |LogOf(s', j)|
      ensures (n < |LogOf(s, j)| && LogOf(s', j)[n] == LogOf(s, j)[n]) || Harmless(s0, s', r, j, LogOf(s', j)[n])
    {
      AdoptKeepsLogs(s, e, v, passes, j, n);
    }
  }

  lemma {:induction false} AdoptMembers(s0: System, s: System, r: set<Identifier>, e: Event, v: Views, passes: bool)
    requires AllMembers(s0, s, r) && Member(s0, s, r, e.at) && e.at in r && ViewsValid(e.at, v) && Peers(e.at, v) == r
    requires v[e.at].master == MasterSeen(s, e.at, e.at) || v[e.at].master in r
    requires NO_MASTER !in r
    ensures AllMembers(s0, Adopt(s, e, v, passes), r)
  {
    forall i | i in r ensures Member(s0, Adopt(s, e, v, passes), r, i) {
      assert Member(s0, s, r, i);
      MemberAfter(s0, s, r, e, v, passes, i);
    }
  }

  /** Adopting a view in which the Master has changed by a selection at most. */
  lemma {:induction false} MemberKeepsSafety(c: Mapper, s0: System, s: System, r: set<Identifier>, e: Event, v: Views, passes: bool)
    requires c.Valid() && SafetyInv(c, s0, s, r) && Member(s0, s, r, e.at) && e.at in r
    requires ViewsValid(e.at, v) && Peers(e.at, v) == r
    requires v[e.at].master == MasterSeen(s, e.at, e.at)
             || (Stable(e.at, s.views[e.at]) && v[e.at].master == Selected(c, e.at, s.views[e.at]))
    requires forall j :: j in r && j != e.at ==> j in v && (v[j] == Seen(s, e.at, j) || Harmless(s0, s, r, j, v[j]))
    requires passes ==> Stable(e.at, s.views[e.at]) && MasterAgreed(e.at, s.views[e.at]) && MasterSeen(s, e.at, e.at) == e.at
    ensures SafetyInv(c, s0, Adopt(s, e, v, passes), r)
  {
    var s' := Adopt(s, e, v, passes);
    if Stable(e.at, s.views[e.at]) {
      MaySelect(c, s0, s, r, e.at);
    }
    AdoptMembers(s0, s, r, e, v, passes);
    AdoptDeclares(s0, s, r, e, v, passes);
    AdoptKeepsSnapshots(s0, s, r, e, v, passes);
    if passes {
      PassingIsBest(c, s0, s, r, e.at);
    }
    DeclarationKeepsSafety(c, s0, s, s', r, e.at, v[e.at].master);
  }

  /** What a member holds of another one is kept, or has been received. */
  lemma {:induction false} ReceivedIsHarmless(c: Mapper, s0: System, s: System, e: Event, r: set<Identifier>)
    requires WellFormed(c, s) && LogIsHarmless(s0, s, r) && e.at in r && Member(s0, s, r, e.at) && InPeriod(r, e)
    requires e.Receive? ==> e.from in s.published && e.n < |s.published[e.from]|
    ensures forall j :: j in r && j != e.at ==>
              var v' := ViewAfter(c, s.views[e.at], e, Snapshot(s, e));
              j in v' && (v'[j] == Seen(s, e.at, j) || Harmless(s0, s, r, j, v'[j]))
  {
    ViewInPeriod(c, s.views[e.at], e, Snapshot(s, e), r);
    if e.Receive? && e.from in r {
      assert Snapshot(s, e) == LogOf(s, e.from)[e.n];
    }
  }

  lemma {:induction false} StepKeepsSafety(c: Mapper, s0: System, s: System, e: Event, r: set<Identifier>)
    requires WellFormed(c, s) && SafetyInv(c, s0, s, r) && InPeriod(r, e)
    ensures SafetyInv(c, s0, Step(c, s, e), r)
  {
    if e.at !in r {
      forall i | i in r ensures i in s.views && i in s.published {
        assert Member(s0, s, r, i);
      }
      SameMembersKeepSafety(c, s0, s, Step(c, s, e), r);
    } else if Step(c, s, e) != s {
      var v := s.views[e.at];
      assert Member(s0, s, r, e.at);
      ViewInPeriod(c, v, e, Snapshot(s, e), r);
      ReceivedIsHarmless(c, s0, s, e, r);
      MemberKeepsSafety(c, s0, s, r, e, ViewAfter(c, v, e, Snapshot(s, e)), Passes(c, v, e));
    }
  }

  /** What a step of a member declares. */
  lemma {:induction false} StepDeclares(c: Mapper, s0: System, s: System, e: Event, r: set<Identifier>) returns (m: Identifier)
    requires WellFormed(c, s) && SafetyInv(c, s0, s, r) && InPeriod(r, e) && e.at in r && Step(c, s, e) != s
    ensures Declares(s0, s, Step(c, s, e), r, e.at, m) && MayDeclare(c, s0, s, r, e.at, m)
  {
    var v := s.views[e.at];
    assert Member(s0, s, r, e.at);
    var v' := ViewAfter(c, v, e, Snapshot(s, e));
    ViewInPeriod(c, v, e, Snapshot(s, e), r);
    if Stable(e.at, v) {
      MaySelect(c, s0, s, r, e.at);
    }
    m := v'[e.at].master;
    AdoptDeclares(s0, s, r, e, v', Passes(c, v, e));
  }

  lemma {:induction false} OthersStep(c: Mapper, s0: System, s: System, e: Event, i: Identifier)
    requires WellFormed(c, s) && i in s.views && i in s.published && (e.at != i || Step(c, s, e) == s)
    ensures DeclaredBy(s0, Step(c, s, e), i) == DeclaredBy(s0, s, i)
    ensures MasterSeen(Step(c, s, e), i, i) == MasterSeen(s, i, i)
  {
  }

  lemma {:induction false} SameAllDeclared(s0: System, s: System, s': System, r: set<Identifier>)
    requires forall i {:trigger DeclaredBy(s0, s', i)} :: i in r ==> DeclaredBy(s0, s', i) == DeclaredBy(s0, s, i)
    ensures AllDeclared(s0, s', r) == AllDeclared(s0, s, r)
  {
    forall x ensures x in AllDeclared(s0, s', r) <==> x in AllDeclared(s0, s, r) {
      if i :| i in r && x in DeclaredBy(s0, s, i) && x != NO_MASTER {
        assert x in DeclaredBy(s0, s', i);
      }
    }
  }

  lemma {:induction false} OthersStepKeepsMembers(c: Mapper, s0: System, s: System, e: Event, r: set<Identifier>)
    requires WellFormed(c, s) && AllMembers(s0, s, r) && (e.at !in r || Step(c, s, e) == s)
    ensures AllDeclared(s0, Step(c, s, e), r) == AllDeclared(s0, s, r)
    ensures forall i {:trigger MasterSeen(Step(c, s, e), i, i)} :: i in r ==> MasterSeen(Step(c, s, e), i, i) == MasterSeen(s, i, i)
  {
    forall i | i in r
      ensures DeclaredBy(s0, Step(c, s, e), i) == DeclaredBy(s0, s, i)
      ensures MasterSeen(Step(c, s, e), i, i) == MasterSeen(s, i, i)
    {
      assert Member(s0, s, r, i);
      OthersStep(c, s0, s, e, i);
    }
    SameAllDeclared(s0, s, Step(c, s, e), r);
  }

  lemma {:induction false} RunKeepsSafety(c: Mapper, s0: System, s: System, es: seq<Event>, r: set<Identifier>)
    requires WellFormed(c, s) && SafetyInv(c, s0, s, r)
    requires forall e :: e in es ==> InPeriod(r, e)
    ensures SafetyInv(c, s0, Run(c, s, es), r)
    decreases |es|
  {
    if es != [] {
      StepKeepsSafety(c, s0, s, es[0], r);
      RunKeepsSafety(c, s0, Step(c, s, es[0]), es[1..], r);
    }
  }

  /** A snapshot of `j` from before the period: it declares the Master of `j`, or it shows another
      running set. */
  predicate FromBefore(s: System, r: set<Identifier>, j: Identifier, m: Modes) {
    m.master == MasterSeen(s, j, j) || StableRunning(m.instanceStates) != r
  }

  /** The running set is `r` for all its members. What they hold of each other, and what they can
      still receive, may be out of date: it only has to show it. */
  ghost predicate PeriodStarts(s: System, r: set<Identifier>) {
    && NO_MASTER !in r
    && (forall i {:trigger i in r} :: i in r ==>
          && i in s.views && i in s.published && ViewsValid(i, s.views[i])
          && Peers(i, s.views[i]) == r
          && MasterSeen(s, i, i) in r + {NO_MASTER})
    && (forall i, j {:trigger Seen(s, i, j)} :: i in r && j in r ==> FromBefore(s, r, j, Seen(s, i, j)))
    && (forall j, n: nat {:trigger LogOf(s, j)[n]} :: j in r && n < |LogOf(s, j)| ==> FromBefore(s, r, j, LogOf(s, j)[n]))
  }

  lemma {:induction false} FirstDeclared(s: System, r: set<Identifier>, i: Identifier)
    requires PeriodStarts(s, r) && i in r
    ensures DeclaredBy(s, s, i) == {MasterSeen(s, i, i)} && Member(s, s, r, i)
  {
  }

  lemma {:induction false} FirstAnchor(c: Mapper, s: System, r: set<Identifier>)
    requires c.Valid()
    requires forall i {:trigger DeclaredBy(s, s, i)} :: i in r ==> DeclaredBy(s, s, i) == {MasterSeen(s, i, i)}
    ensures Anchored(c, s, s, r)
  {
    var all := AllDeclared(s, s, r);
    if all != {} {
      var m := Best(c, all);
      var p :| p in r && m in DeclaredBy(s, s, p) && m != NO_MASTER;
      assert Anchor(c, s, s, r, p);
    }
  }

  lemma {:induction false} PeriodStartsSafe(c: Mapper, s: System, r: set<Identifier>)
    requires c.Valid() && PeriodStarts(s, r)
    ensures SafetyInv(c, s, s, r)
  {
    forall i | i in r ensures DeclaredBy(s, s, i) == {MasterSeen(s, i, i)} && Member(s, s, r, i) {
      FirstDeclared(s, r, i);
    }
    forall i, j | i in r && j in r ensures Harmless(s, s, r, j, Seen(s, i, j)) {
      assert FromBefore(s, r, j, Seen(s, i, j));
    }
    forall j, n: nat | j in r && n < |LogOf(s, j)| ensures Harmless(s, s, r, j, LogOf(s, j)[n]) {
      assert FromBefore(s, r, j, LogOf(s, j)[n]);
    }
    FirstAnchor(c, s, r);
  }

  /** The passes since `s0`. */
  predicate PassedSince(s0: System, s: System, i: Identifier) {
    |s0.passed| <= |s.passed| && i in s.passed[|s0.passed|..]
  }

  lemma {:induction false} PassedSinceIsBest(c: Mapper, s0: System, s: System, r: set<Identifier>, i: Identifier)
    requires PassedIsBest(c, s0, s, r) && i in r && PassedSince(s0, s, i)
    ensures IsBest(c, AllDeclared(s0, s, r), i)
  {
    var k :| 0 <= k < |s.passed| - |s0.passed| && s.passed[|s0.passed|..][k] == i;
    assert s.passed[|s0.passed| + k] == i;
  }

  /** Safety of the election. While the running set stays fixed, however late, repeated or
      reordered the snapshots are, at most one member of it ever leaves ELECTION as Master. */
  lemma {:induction false} AtMostOneMaster(c: Mapper, s: System, es: seq<Event>, r: set<Identifier>)
    requires WellFormed(c, s) && PeriodStarts(s, r)
    requires forall e :: e in es ==> InPeriod(r, e)
    ensures forall a, b :: a in r && b in r && PassedSince(s, Run(c, s, es), a) && PassedSince(s, Run(c, s, es), b) ==> a == b
  {
    PeriodStartsSafe(c, s, r);
    RunKeepsSafety(c, s, s, es, r);
    var s' := Run(c, s, es);
    forall a, b | a in r && b in r && PassedSince(s, s', a) && PassedSince(s, s', b) ensures a == b {
      PassedSinceIsBest(c, s, s', r, a);
      PassedSinceIsBest(c, s, s', r, b);
      BestUnique(c, AllDeclared(s, s', r), a, b);
    }
  }

  /** A snapshot that shows the running set `r` declares no Master but `k`. */
  predicate OnlyDeclares(r: set<Identifier>, k: Identifier, m: Modes) {
    StableRunning(m.instanceStates) == r ==> m.master in {k, NO_MASTER}
  }

  /** The loss of the Master `k` starts a period: whatever the snapshots that its last member to
      notice it leaves behind, they show `k` as Running, or they declare no Master. */
  lemma {:induction false} LossOfMasterStartsPeriod(s: System, r: set<Identifier>, k: Identifier)
    requires AllMastersRunning(s) && k !in r && NO_MASTER !in r
    requires forall i {:trigger i in r} :: i in r ==>
               i in s.views && i in s.published && ViewsValid(i, s.views[i]) && Peers(i, s.views[i]) == r
               && MasterSeen(s, i, i) in {k, NO_MASTER}
    requires forall i, j {:trigger Seen(s, i, j)} :: i in r && j in r ==> OnlyDeclares(r, k, Seen(s, i, j))
    requires forall j, n: nat {:trigger LogOf(s, j)[n]} :: j in r && n < |LogOf(s, j)| ==> OnlyDeclares(r, k, LogOf(s, j)[n])
    ensures PeriodStarts(s, r)
  {
    forall j | j in r ensures MasterSeen(s, j, j) == NO_MASTER {
      assert MasterIsRunning(s.views[j][j]);
    }
    forall i, j | i in r && j in r ensures FromBefore(s, r, j, Seen(s, i, j)) {
      assert OnlyDeclares(r, k, Seen(s, i, j)) && MasterIsRunning(Seen(s, i, j));
    }
    forall j, n: nat | j in r && n < |LogOf(s, j)| ensures FromBefore(s, r, j, LogOf(s, j)[n]) {
      assert OnlyDeclares(r, k, LogOf(s, j)[n]) && MasterIsRunning(LogOf(s, j)[n]);
    }
  }

  // ---- Snapshots that show the same running set are not harmless ----

  const A := Id("a")
  const B := Id("b")

  function Together(master: Identifier): Modes {
    Modes(FsmState.Election, false, false, master, false, false, map[A := Running, B := Running])
  }

  /** Each of two instances declares itself, and holds a snapshot in which the other one does not. */
  const SPLIT := System(
    map[A := map[A := Together(A), B := Together(A)], B := map[A := Together(B), B := Together(B)]],
    map[A := [Together(B), Together(A)], B := [Together(A), Together(B)]],
    [])

  lemma {:induction false} SplitPasses(c: Mapper, i: Identifier, v: Views)
    requires c.Valid() && i in {A, B} && v == map[A := Together(i), B := Together(i)]
    ensures ViewsValid(i, v) && Passes(c, v, Elect(i))
  {
    assert Peers(i, v) == {A, B} == StableRunning(Together(i).instanceStates);
    assert AgreedOn(i, v, {A, B});
    assert MasterAgreed(i, v);
  }

  lemma {:induction false} PassIsRecorded(c: Mapper, s: System, i: Identifier)
    requires WellFormed(c, s) && i in s.views && Passes(c, s.views[i], Elect(i))
    ensures var s' := Step(c, s, Elect(i));
            s'.passed == s.passed + [i] && forall j :: j in s.views && j != i ==> j in s'.views && s'.views[j] == s.views[j]
  {
  }

  lemma {:induction false} RunOfTwo(c: Mapper, s: System, d: Event, e: Event)
    requires WellFormed(c, s)
    ensures Run(c, s, [d, e]) == Step(c, Step(c, s, d), e)
  {
    assert [d, e][1..] == [e];
    assert Run(c, Step(c, s, d), [e]) == Run(c, Step(c, Step(c, s, d), e), [e][1..]);
  }

  lemma {:induction false} TwoPass(c: Mapper, s: System, a: Identifier, b: Identifier)
    requires WellFormed(c, s) && a != b && a in s.views && b in s.views
    requires Passes(c, s.views[a], Elect(a)) && Passes(c, s.views[b], Elect(b))
    ensures Run(c, s, [Elect(a), Elect(b)]).passed == s.passed + [a, b]
  {
    PassIsRecorded(c, s, a);
    var s1 := Step(c, s, Elect(a));
    PassIsRecorded(c, s1, b);
    RunOfTwo(c, s, Elect(a), Elect(b));
  }

  lemma {:induction false} TogetherIsRunning(m: Identifier)
    requires m in {A, B}
    ensures MasterIsRunning(Together(m)) && StableRunning(Together(m).instanceStates) == {A, B}
  {
    assert RunningIn(Together(m).instanceStates) == {A, B};
  }

  lemma {:induction false} SplitIsPossible(c: Mapper)
    requires c.Valid()
    ensures WellFormed(c, SPLIT) && AllMastersRunning(SPLIT)
  {
    TogetherIsRunning(A);
    TogetherIsRunning(B);
    forall i | i in SPLIT.views ensures i in {A, B} && SPLIT.views[i] == map[A := Together(i), B := Together(i)] {
    }
  }

  lemma {:induction false} SplitIsFromBefore()
    ensures !FromBefore(SPLIT, {A, B}, B, Seen(SPLIT, A, B))
  {
    TogetherIsRunning(A);
  }

  /** The period has to start without snapshots that show its running set and another Master: with
      two of them, two instances pass, although every declared Master is Running. */
  lemma {:induction false} SameRunningSetSplits(c: Mapper)
    requires c.Valid()
    ensures WellFormed(c, SPLIT) && AllMastersRunning(SPLIT) && !PeriodStarts(SPLIT, {A, B})
    ensures Run(c, SPLIT, [Elect(A), Elect(B)]).passed == [A, B]
  {
    SplitIsPossible(c);
    SplitIsFromBefore();
    SplitPasses(c, A, SPLIT.views[A]);
    SplitPasses(c, B, SPLIT.views[B]);
    TwoPass(c, SPLIT, A, B);
  }
}
