/** Ending is one-way and happens exactly once, over any history of the state machine. */
module StateMachineEndings {
  import opened SupvisorsTypes
  import opened StateModes
  import opened StateMachine

  /** What the rest of the world, and the evaluations, may do between two transitions: anything
      but change the local state and send an ending request. */
  ghost predicate SameState(k: Config, c: Fsm, d: Fsm) {
    FsmValid(k, c) && FsmValid(k, d) && State(k, d.views) == State(k, c.views) && d.sent == c.sent
  }

  /** A transition of the table, possibly followed by an evaluation. */
  ghost predicate Transits(k: Config, c: Fsm, d: Fsm) {
    && FsmValid(k, c) && FsmValid(k, d)
    && Allowed(State(k, c.views), State(k, d.views))
    && d.sent == c.sent + SentOnExit(State(k, c.views))
  }

  ghost predicate Evolves(k: Config, c: Fsm, d: Fsm) {
    SameState(k, c, d) || Transits(k, c, d)
  }

  ghost predicate EvolvesAt(k: Config, h: seq<Fsm>, j: nat) {
    j + 1 < |h| ==> Evolves(k, h[j], h[j + 1])
  }

  /** A session of the state machine, from its creation. */
  ghost predicate Session(k: Config, h: seq<Fsm>) {
    && h != [] && FsmValid(k, h[0]) && State(k, h[0].views).Off? && h[0].sent == []
    && forall j: nat :: EvolvesAt(k, h, j)
  }

  // ---- The turns of the loop are such evolutions ----

  lemma {:induction false} WithoutFailedKeepsState(k: Config, v: Views, order: seq<Identifier>)
    requires ViewsValid(k.local, v) && forall i :: i in order ==> i in v
    ensures State(k, WithoutFailed(k, v, order)) == State(k, v)
    decreases |order|
  {
    if order != [] {
      var i := order[0];
      var v' := if InstanceStateOf(k, v, i).Failed? then WithInstanceState(k.local, v, i, FencedState(k, v, i)) else v;
      WithoutFailedKeepsState(k, v', order[1..]);
    }
  }

  lemma {:induction false} WithoutCheckedKeepsState(k: Config, v: Views, order: seq<Identifier>)
    requires ViewsValid(k.local, v) && forall i :: i in order ==> i in v
    ensures State(k, WithoutChecked(k, v, order)) == State(k, v)
    decreases |order|
  {
    if order != [] {
      var i := order[0];
      var v' := if InstanceStateOf(k, v, i).Checked? then WithInstanceState(k.local, v, i, Running) else v;
      WithoutCheckedKeepsState(k, v', order[1..]);
    }
  }

  lemma {:induction false} EvaluationKeepsState(k: Config, c: Fsm, e: Env)
    requires FsmValid(k, c)
    ensures SameState(k, c, Next(k, c, e).0)
  {
    var v := WithoutFailed(k, c.views, k.order);
    WithoutFailedKeepsState(k, c.views, k.order);
    WithoutCheckedKeepsState(k, v, k.order);
    DecisionKeepsState(k, CheckInstances(k, c, e), e);
  }

  lemma {:induction false} DecisionKeepsState(k: Config, c: Fsm, e: Env)
    requires FsmValid(k, c)
    ensures SameState(k, c, Decide(k, c, e).0)
  {
  }

  /** Every turn of the loop is a transition of the table. */
  lemma {:induction false} TurnTransits(k: Config, p: Turn, e: Env, q: Turn)
    requires LeadsTo(k, p, e, q)
    ensures Transits(k, p.fsm, q.fsm)
  {
    EvaluationKeepsState(k, Entered(k, p.fsm, p.next.value), e);
  }

  // ---- Ending ----

  predicate IsEnding(s: FsmState) {
    s.Restarting? || s.ShuttingDown?
  }

  /** Nothing is sent before FINAL, and FINAL has sent one request. */
  ghost predicate SentOnce(k: Config, c: Fsm) {
    FsmValid(k, c) && if State(k, c.views).Final? then |c.sent| == 1 else c.sent == []
  }

  /** The states that an ending state leads to, and the request that it leads to. */
  ghost predicate EndedFrom(k: Config, c: Fsm, d: Fsm) {
    FsmValid(k, c) && FsmValid(k, d) &&
    match State(k, c.views)
    case Final => State(k, d.views).Final? && d.sent == c.sent
    case Restarting => State(k, d.views).Restarting? || (State(k, d.views).Final? && d.sent == [Ending.Restart])
    case ShuttingDown => State(k, d.views).ShuttingDown? || (State(k, d.views).Final? && d.sent == [Ending.Shutdown])
    case _ => true
  }

  lemma {:induction false} AlwaysSentOnce(k: Config, h: seq<Fsm>, i: nat)
    requires Session(k, h) && i < |h|
    ensures SentOnce(k, h[i])
    decreases i
  {
    if i > 0 {
      AlwaysSentOnce(k, h, i - 1);
      assert EvolvesAt(k, h, i - 1);
    }
  }

  /** Once an ending state is entered, the state machine stays there or reaches FINAL, with
      exactly the request of this ending state; FINAL is absorbing. */
  lemma {:induction false} EndingIsOneWay(k: Config, h: seq<Fsm>, i: nat, j: nat)
    requires Session(k, h) && i <= j < |h|
    ensures EndedFrom(k, h[i], h[j])
    decreases j - i
  {
    AlwaysSentOnce(k, h, i);
    if i < j {
      EndingIsOneWay(k, h, i, j - 1);
      AlwaysSentOnce(k, h, j - 1);
      assert EvolvesAt(k, h, j - 1);
    }
  }

  /** A request is sent by the transition that leaves an ending state, and only then. */
  lemma {:induction false} FinalFollowsEnding(k: Config, h: seq<Fsm>, j: nat) returns (i: nat)
    requires Session(k, h) && j < |h| && FsmValid(k, h[j]) && State(k, h[j].views).Final?
    ensures i < j && FsmValid(k, h[i]) && IsEnding(State(k, h[i].views))
    ensures h[i].sent == [] && h[i + 1].sent == h[j].sent == SentOnExit(State(k, h[i].views))
    decreases j
  {
    assert EvolvesAt(k, h, j - 1);
    AlwaysSentOnce(k, h, j - 1);
    if State(k, h[j - 1].views).Final? {
      i := FinalFollowsEnding(k, h, j - 1);
    } else {
      i := j - 1;
    }
  }
}
