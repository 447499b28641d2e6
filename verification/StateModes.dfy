/** State and modes published by the Supvisors instances, and the queries that the Master
    election is built on (supvisors/statemodes.py).

    The first part gives the values and the specification functions; the second part gives
    the two classes, whose methods are proved against these functions. */
module StateModes {
  import opened SupvisorsTypes

  type InstanceStates = map<Identifier, InstanceState>

  /** The payload exchanged between instances: an atomic snapshot of one StateModes object. */
  datatype Modes = Modes(
    state: FsmState,
    degraded: bool,
    discovery: bool,
    master: Identifier,
    startingJobs: bool,
    stoppingJobs: bool,
    instanceStates: InstanceStates)

  /** The identifier that stands for "no Master". */
  const NO_MASTER: Identifier := Id("")

  const FRESH := Modes(Off, false, false, NO_MASTER, false, false, map[])

  /** What an instance knows: its own modes, and the last snapshot received from each other one. */
  type Views = map<Identifier, Modes>

  /** The part of the mapper used by the election: core list and unique nick identifiers. */
  datatype Mapper = Mapper(core: seq<Identifier>, nick: Identifier -> string) {
    ghost predicate Valid() {
      forall a, b :: nick(a) == nick(b) ==> a == b
    }
  }

  predicate IsStable(s: InstanceState) {
    s.Running? || s.Stopped? || s.Isolated?
  }

  function RunningIn(states: InstanceStates): set<Identifier> {
    set i | i in states && states[i].Running?
  }

  function StableRunning(states: InstanceStates): set<Identifier> {
    if forall i | i in states :: IsStable(states[i]) then RunningIn(states) else {}
  }

  /** A context is unstable exactly when some instance is on its way: in CHECKING, CHECKED or FAILED. */
  lemma {:induction false} UnstableExactly(states: InstanceStates)
    ensures StableRunning(states) ==
            if exists i :: i in states && states[i] in {Checking, Checked, Failed} then {}
            else set i | i in states && states[i] == Running
  {
  }

  /** A view is well formed when the local modes are part of it and give a state to every instance. */
  ghost predicate ViewsValid(local: Identifier, v: Views) {
    && local in v
    && v.Keys == v[local].instanceStates.Keys
  }

  /** The instances seen as Running by the local one. */
  function Peers(local: Identifier, v: Views): set<Identifier>
    requires ViewsValid(local, v)
  {
    RunningIn(v[local].instanceStates)
  }

  /** All peers agree on the same non-empty set of stable running instances. */
  ghost predicate AgreedOn(local: Identifier, v: Views, agreed: set<Identifier>)
    requires ViewsValid(local, v)
  {
    && Peers(local, v) != {}
    && forall j :: j in Peers(local, v) ==> StableRunning(v[j].instanceStates) == agreed
  }

  ghost function StableIdentifiers(local: Identifier, v: Views): (r: set<Identifier>)
    requires ViewsValid(local, v)
    ensures forall agreed :: AgreedOn(local, v, agreed) ==> r == agreed
    ensures r != {} ==> AgreedOn(local, v, r)
  {
    if a: set<Identifier> :| AgreedOn(local, v, a) then a else {}
  }

  ghost predicate Stable(local: Identifier, v: Views)
    requires ViewsValid(local, v)
  {
    StableIdentifiers(local, v) != {}
  }

  function MasterIdentifiers(local: Identifier, v: Views): set<Identifier>
    requires ViewsValid(local, v)
  {
    set j | j in Peers(local, v) :: v[j].master
  }

  /** No peer lacks a Master and no two peers declare different ones. */
  ghost predicate MasterAgreed(local: Identifier, v: Views)
    requires ViewsValid(local, v)
  {
    && (forall j :: j in Peers(local, v) ==> v[j].master != NO_MASTER)
    && (forall j, k :: j in Peers(local, v) && k in Peers(local, v) ==> v[j].master == v[k].master)
  }

  function Candidates(local: Identifier, v: Views): set<Identifier>
    requires ViewsValid(local, v)
  {
    var declared := MasterIdentifiers(local, v) - {NO_MASTER};
    if declared != {} then declared else Peers(local, v)
  }

  /** The fixed order of the election: core instances first, then the lowest nick identifier. */
  predicate Better(c: Mapper, a: Identifier, b: Identifier)
  {
    (a in c.core && b !in c.core)
    || ((a in c.core <==> b in c.core) && StrLess(c.nick(a), c.nick(b)))
  }

  /** `m` is the unique best element of `s`. */
  ghost predicate IsBest(c: Mapper, s: set<Identifier>, m: Identifier)
  {
    m in s && forall x :: x in s ==> x == m || Better(c, m, x)
  }

  lemma {:induction false} BetterTransitive(c: Mapper, x: Identifier, y: Identifier, z: Identifier)
    requires Better(c, x, y) && Better(c, y, z)
    ensures Better(c, x, z)
  {
    if StrLess(c.nick(x), c.nick(y)) && StrLess(c.nick(y), c.nick(z)) {
      StrLessTransitive(c.nick(x), c.nick(y), c.nick(z));
    }
  }

  lemma {:induction false} BetterAsymmetric(c: Mapper, x: Identifier, y: Identifier)
    requires Better(c, x, y)
    ensures !Better(c, y, x) && x != y
  {
    StrLessIrreflexive(c.nick(x));
    if Better(c, y, x) {
      BetterTransitive(c, x, y, x);
    }
  }

  lemma {:induction false} BetterTotal(c: Mapper, x: Identifier, y: Identifier)
    requires c.Valid()
    ensures x == y || Better(c, x, y) || Better(c, y, x)
  {
    StrLessTotal(c.nick(x), c.nick(y));
  }

  lemma {:induction false} BestExists(c: Mapper, s: set<Identifier>)
    requires c.Valid() && s != {}
    ensures exists m :: IsBest(c, s, m)
    decreases |s|
  {
    var x :| x in s;
    if s == {x} {
      assert IsBest(c, s, x);
    } else {
      var rest := s - {x};
      assert s == rest + {x};
      BestExists(c, rest);
      var m :| IsBest(c, rest, m);
      BetterTotal(c, x, m);
      if Better(c, x, m) {
        forall y | y in s ensures y == x || Better(c, x, y) {
          if y != x && y != m {
            BetterTransitive(c, x, m, y);
          }
        }
        assert IsBest(c, s, x);
      } else {
        assert IsBest(c, s, m);
      }
    }
  }

  lemma {:induction false} BestUnique(c: Mapper, s: set<Identifier>, m: Identifier, n: Identifier)
    requires IsBest(c, s, m) && IsBest(c, s, n)
    ensures m == n
  {
    if m != n {
      BetterAsymmetric(c, m, n);
    }
  }

  ghost function Best(c: Mapper, s: set<Identifier>): (m: Identifier)
    requires c.Valid() && s != {}
    ensures IsBest(c, s, m)
  {
    BestExists(c, s);
    var m :| IsBest(c, s, m);
    m
  }

  /** The Master that select_master declares. */
  ghost function Selected(c: Mapper, local: Identifier, v: Views): (m: Identifier)
    requires c.Valid() && ViewsValid(local, v) && Peers(local, v) != {}
    ensures IsBest(c, Candidates(local, v), m)
  {
    Best(c, Candidates(local, v))
  }

  /** The Master that accept_master declares: an arbitrary one among those of the peers. `choice`
      tells which one, provided that it is one of them. */
  ghost function Accepted(c: Mapper, local: Identifier, v: Views, choice: Identifier): (m: Identifier)
    requires c.Valid() && ViewsValid(local, v) && MasterIdentifiers(local, v) - {NO_MASTER} != {}
    ensures m in MasterIdentifiers(local, v) - {NO_MASTER}
  {
    var masters := MasterIdentifiers(local, v) - {NO_MASTER};
    if choice in masters then choice else Best(c, masters)
  }

  /** An instance's own declared Master is always among its candidates, so a selection never
      replaces a declared Master by a worse one. */
  lemma {:induction false} SelectionNeverWorsens(c: Mapper, local: Identifier, v: Views)
    requires c.Valid() && ViewsValid(local, v)
    requires local in Peers(local, v) && v[local].master != NO_MASTER
    ensures v[local].master in Candidates(local, v)
    ensures Selected(c, local, v) == v[local].master || Better(c, Selected(c, local, v), v[local].master)
  {
    assert v[local].master in MasterIdentifiers(local, v);
  }

  /** What ElectionState.next decides once the consistence checks have passed: the suggested
      state and the local view. */
  ghost function ElectionDecision(c: Mapper, i: Identifier, v: Views): (FsmState, Views)
    requires c.Valid() && ViewsValid(i, v) && i in Peers(i, v)
  {
    if !Stable(i, v) then (FsmState.Election, v)
    else if MasterAgreed(i, v) && (v[i].master == i
                                   || (v[i].master in v && v[v[i].master].state.Distribution?)) then
      (Distribution, v)
    else (FsmState.Election, v[i := v[i].(master := Selected(c, i, v))])
  }

  /** The effect of update_instance_state on the local view. */
  function WithInstanceState(local: Identifier, v: Views, id: Identifier, s: InstanceState): (r: Views)
    requires ViewsValid(local, v) && id in v
    ensures ViewsValid(local, r)
  {
    var v1 := v[local := v[local].(instanceStates := v[local].instanceStates[id := s])];
    var v2 := if (s.Stopped? || s.Isolated?) && id != local then v1[id := FRESH] else v1;
    if !s.Running? && id == v2[local].master then v2[local := v2[local].(master := NO_MASTER)] else v2
  }

  /** What is known of an instance is forgotten when it is stopped or isolated, and only then. */
  lemma {:induction false} ForgottenExactly(local: Identifier, v: Views, id: Identifier, s: InstanceState, j: Identifier)
    requires ViewsValid(local, v) && id in v && j in v && j != local
    ensures WithInstanceState(local, v, id, s)[j] == if j == id && s in {Stopped, Isolated} then FRESH else v[j]
  {
  }

  /** The Master is dropped when it is not Running any more, and only then. */
  lemma {:induction false} DroppedExactly(local: Identifier, v: Views, id: Identifier, s: InstanceState)
    requires ViewsValid(local, v) && id in v
    ensures WithInstanceState(local, v, id, s)[local].master == if v[local].master == id && s != Running then NO_MASTER else v[local].master
  {
  }

  /** A declared Master is Running in the view of the instance that declares it. */
  ghost predicate MasterIsRunning(m: Modes) {
    m.master != NO_MASTER ==> m.master in RunningIn(m.instanceStates)
  }

  /** Selection from a stable context keeps the declared Master Running in the local view. */
  lemma {:induction false} StableSelectionIsRunning(c: Mapper, local: Identifier, v: Views)
    requires c.Valid() && ViewsValid(local, v)
    requires local in Peers(local, v) && Stable(local, v)
    requires forall j :: j in v ==> MasterIsRunning(v[j])
    ensures Selected(c, local, v) in Peers(local, v)
  {
    var m := Selected(c, local, v);
    var agreed := StableIdentifiers(local, v);
    assert AgreedOn(local, v, agreed);
    if m in MasterIdentifiers(local, v) - {NO_MASTER} {
      var j :| j in Peers(local, v) && v[j].master == m;
      assert StableRunning(v[j].instanceStates) == agreed == StableRunning(v[local].instanceStates);
    }
  }
}
