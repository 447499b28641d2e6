/** The Master election as a system of instances that exchange snapshots
    (supvisors/statemodes.py, and ElectionState in supvisors/statemachine.py).

    Every instance publishes an atomic snapshot of its modes whenever its Master or its FSM
    state changes. A snapshot may be received at any later time, in any order and any number
    of times. */
module Election {
  import opened SupvisorsTypes
  import opened StateModes

  datatype Event =
    | InstanceChange(at: Identifier, about: Identifier, instance: InstanceState)
    | FsmChange(at: Identifier, fsm: FsmState)
    | Publish(at: Identifier)
    | Receive(at: Identifier, from: Identifier, n: nat)
    | Elect(at: Identifier)

  /** `passed` records the instances that left ELECTION for DISTRIBUTION as Master, in order. */
  datatype System = System(
    views: map<Identifier, Views>,
    published: map<Identifier, seq<Modes>>,
    passed: seq<Identifier>)

  ghost predicate NodeValid(c: Mapper, i: Identifier, v: Views) {
    c.Valid() && ViewsValid(i, v)
  }

  ghost predicate WellFormed(c: Mapper, s: System) {
    && c.Valid()
    && (forall i :: i in s.views ==> i in s.published && NodeValid(c, i, s.views[i]))
  }

  ghost predicate Electing(i: Identifier, v: Views)
    requires ViewsValid(i, v)
  {
    v[i].state == FsmState.Election && i in Peers(i, v)
  }

  ghost function ElectedView(c: Mapper, i: Identifier, v: Views): (r: Views)
    requires NodeValid(c, i, v)
    ensures NodeValid(c, i, r)
  {
    if Electing(i, v) then
      var (next, v') := ElectionDecision(c, i, v);
      v'[i := v'[i].(state := next)]
    else v
  }

  /** The view of instance `e.at` after the event; `received` is the snapshot of a Receive. */
  ghost function ViewAfter(c: Mapper, v: Views, e: Event, received: Modes): (r: Views)
    requires NodeValid(c, e.at, v)
    ensures NodeValid(c, e.at, r)
  {
    match e
    case InstanceChange(at, about, instance) => if about in v then WithInstanceState(at, v, about, instance) else v
    case FsmChange(at, fsm) => v[at := v[at].(state := fsm)]
    case Publish(at) => v
    case Receive(at, from, n) => if from != at && from in v then v[from := received] else v
    case Elect(at) => ElectedView(c, at, v)
  }

  /** Instance `e.at` leaves ELECTION as Master. */
  ghost predicate Passes(c: Mapper, v: Views, e: Event)
    requires NodeValid(c, e.at, v)
  {
    && e.Elect?
    && Electing(e.at, v)
    && ElectionDecision(c, e.at, v).0.Distribution?
    && v[e.at].master == e.at
  }

  function Snapshot(s: System, e: Event): Modes {
    if e.Receive? && e.from in s.published && e.n < |s.published[e.from]| then s.published[e.from][e.n]
    else FRESH
  }

  /** A change of Master or FSM state is published; the rest waits for the periodic publication. */
  predicate IsPublished(e: Event, before: Modes, after: Modes) {
    e.Publish? || after.master != before.master || after.state != before.state
  }

  /** Instance `e.at` adopts a view and publishes its own modes when they have to be. */
  function Adopt(s: System, e: Event, v: Views, passes: bool): System
    requires e.at in s.views && e.at in s.published && e.at in v && e.at in s.views[e.at]
  {
    var log := s.published[e.at] + if IsPublished(e, s.views[e.at][e.at], v[e.at]) then [v[e.at]] else [];
    System(s.views[e.at := v], s.published[e.at := log], if passes then s.passed + [e.at] else s.passed)
  }

  /** One step. An event that is not applicable leaves the system as it is. */
  ghost function Step(c: Mapper, s: System, e: Event): (r: System)
    requires WellFormed(c, s)
    ensures WellFormed(c, r)
  {
    if e.at !in s.views || (e.Receive? && (e.from !in s.published || e.n >= |s.published[e.from]|)) then s
    else
      var v := s.views[e.at];
      Adopt(s, e, ViewAfter(c, v, e, Snapshot(s, e)), Passes(c, v, e))
  }

  ghost function Run(c: Mapper, s: System, es: seq<Event>): (r: System)
    requires WellFormed(c, s)
    ensures WellFormed(c, r)
    decreases |es|
  {
    if es == [] then s else Run(c, Step(c, s, es[0]), es[1..])
  }

  // ---- A declared Master is Running for the instance that declares it ----

  ghost predicate ViewRunning(v: Views) {
    forall j :: j in v ==> MasterIsRunning(v[j])
  }

  ghost predicate LogRunning(log: seq<Modes>) {
    forall k :: 0 <= k < |log| ==> MasterIsRunning(log[k])
  }

  ghost predicate AllMastersRunning(s: System) {
    && (forall i :: i in s.views ==> ViewRunning(s.views[i]))
    && (forall i :: i in s.published ==> LogRunning(s.published[i]))
  }

  lemma {:induction false} OwnChangeKeepsMasterRunning(v: Views, i: Identifier, own: Modes)
    requires ViewRunning(v) && MasterIsRunning(own)
    ensures ViewRunning(v[i := own])
  {
  }

  lemma {:induction false} ChangeKeepsMasterRunning(m: Modes, about: Identifier, instance: InstanceState)
    requires MasterIsRunning(m)
    ensures var m' := m.(instanceStates := m.instanceStates[about := instance]);
            MasterIsRunning(if !instance.Running? && about == m.master then m'.(master := NO_MASTER) else m')
  {
  }

  lemma {:induction false} InstanceChangeKeepsMasterRunning(v: Views, at: Identifier, about: Identifier, instance: InstanceState)
    requires ViewsValid(at, v) && about in v && ViewRunning(v)
    ensures ViewRunning(WithInstanceState(at, v, about, instance))
  {
    var v' := WithInstanceState(at, v, about, instance);
    ChangeKeepsMasterRunning(v[at], about, instance);
    forall j | j in v' ensures MasterIsRunning(v'[j]) {
      assert j == at || v'[j] == v[j] || v'[j] == FRESH;
    }
  }

  lemma {:induction false} ElectionKeepsMasterRunning(c: Mapper, i: Identifier, v: Views)
    requires NodeValid(c, i, v) && ViewRunning(v)
    ensures ViewRunning(ElectedView(c, i, v))
  {
    if Electing(i, v) {
      var (next, v') := ElectionDecision(c, i, v);
      if v' != v {
        StableSelectionIsRunning(c, i, v);
        OwnChangeKeepsMasterRunning(v, i, v[i].(master := Selected(c, i, v)));
      }
      OwnChangeKeepsMasterRunning(v', i, v'[i].(state := next));
    }
  }

  lemma {:induction false} ViewKeepsMasterRunning(c: Mapper, v: Views, e: Event, received: Modes)
    requires NodeValid(c, e.at, v) && MasterIsRunning(received) && ViewRunning(v)
    ensures ViewRunning(ViewAfter(c, v, e, received))
  {
    match e
    case InstanceChange(at, about, instance) =>
      if about in v {
        InstanceChangeKeepsMasterRunning(v, at, about, instance);
      }
    case FsmChange(at, fsm) => OwnChangeKeepsMasterRunning(v, at, v[at].(state := fsm));
    case Publish(at) =>
    case Receive(at, from, n) => OwnChangeKeepsMasterRunning(v, from, received);
    case Elect(at) => ElectionKeepsMasterRunning(c, at, v);
  }

  lemma {:induction false} AdoptKeepsMastersRunning(s: System, e: Event, v: Views, passes: bool)
    requires e.at in s.views && e.at in s.published && e.at in v && e.at in s.views[e.at]
    requires AllMastersRunning(s) && ViewRunning(v)
    ensures AllMastersRunning(Adopt(s, e, v, passes))
  {
  }

  lemma {:induction false} StepKeepsMastersRunning(c: Mapper, s: System, e: Event)
    requires WellFormed(c, s) && AllMastersRunning(s)
    ensures AllMastersRunning(Step(c, s, e))
  {
    if e.at in s.views {
      var v := s.views[e.at];
      ViewKeepsMasterRunning(c, v, e, Snapshot(s, e));
      AdoptKeepsMastersRunning(s, e, ViewAfter(c, v, e, Snapshot(s, e)), Passes(c, v, e));
    }
  }

  /** Without the USER option, whatever happens to the instances and however late the snapshots
      are received, every declared Master is Running in the view of its declarer, and so is the
      Master of every published snapshot. */
  lemma {:induction false} MastersAlwaysRunning(c: Mapper, s: System, es: seq<Event>)
    requires WellFormed(c, s) && AllMastersRunning(s)
    ensures AllMastersRunning(Run(c, s, es))
    decreases |es|
  {
    if es != [] {
      StepKeepsMastersRunning(c, s, es[0]);
      MastersAlwaysRunning(c, Step(c, s, es[0]), es[1..]);
    }
  }
}
