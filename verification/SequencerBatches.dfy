/** The batches of a sequence are taken one at a time and in order, and a stop sequence ends in
    bounded time. */
module SequencerBatches {
  import opened SupvisorsTypes
  import opened Sequencer
  import opened SequencerDiscipline

  // ---- The commands in progress come from the last batch ----

  ghost predicate FromBatch(kind: Kind, c: Command, batch: seq<Command>) {
    exists l :: 0 <= l < |batch| && TagOf(kind, batch[l]) == TagOf(kind, c)
  }

  ghost predicate AllFrom(kind: Kind, cs: seq<Command>, batch: seq<Command>) {
    forall c :: c in cs ==> FromBatch(kind, c, batch)
  }

  ghost predicate CurrentFromLast(k: Setup, j: Jobs) {
    j.current != [] ==> j.popped != [] && AllFrom(k.kind, j.current, j.popped[|j.popped| - 1].1)
  }

  lemma {:induction false} KeptFrom(cs: seq<Command>, keep: Command -> bool)
    ensures forall c :: c in Kept(cs, keep) <==> c in cs && keep(c)
    decreases |cs|
  {
    if cs != [] {
      var n := |cs| - 1;
      KeptFrom(cs[..n], keep);
      assert forall c :: c in cs <==> c in cs[..n] || c == cs[n];
    }
  }

  lemma {:induction false} GroupFromBatch(k: Setup, w: World, j: Jobs, group: seq<Command>, batch: seq<Command>)
    requires AllFrom(k.kind, j.current, batch) && AllFrom(k.kind, group, batch)
    ensures var j' := AfterGroup(k, w, j, group);
            AllFrom(k.kind, j'.current, batch) && j'.popped == j.popped
    decreases |group|
  {
    if group != [] {
      var c := group[0];
      var j' := AfterJob(k, w, j, c);
      assert FromBatch(k.kind, c, batch);
      forall d | d in j'.current ensures FromBatch(k.kind, d, batch) {
        if d !in j.current {
          assert TagOf(k.kind, d) == TagOf(k.kind, c);
        }
      }
      GroupFromBatch(k, w, j', group[1..], batch);
    }
  }

  lemma {:induction false} NextFromLast(k: Setup, w: World, j: Jobs)
    requires CurrentFromLast(k, j)
    ensures CurrentFromLast(k, AfterNext(k, w, j))
    decreases |j.planned|
  {
    if j.current == [] && j.planned != map[] {
      var batch := j.planned[First(k.kind, j.planned)];
      SmallerWithout(j.planned, First(k.kind, j.planned));
      assert forall i :: 0 <= i < |batch| ==> FromBatch(k.kind, batch[i], batch);
      GroupFromBatch(k, w, Popped(k, j), batch, batch);
      NextFromLast(k, w, AfterGroup(k, w, Popped(k, j), batch));
    }
  }

  lemma {:induction false} FailuresKeepProgress(k: Setup, j: Jobs, cs: seq<Command>)
    ensures var j' := AfterFailures(k, j, cs);
            j'.current == j.current && j'.popped == j.popped && (j'.planned == j.planned || j'.planned == map[])
    decreases |cs|
  {
    if cs != [] {
      FailuresKeepProgress(k, j, cs[..|cs| - 1]);
    }
  }

  lemma {:induction false} EventFromLast(k: Setup, w: World, j: Jobs, process: string, from: Identifier)
    requires CurrentFromLast(k, j)
    ensures CurrentFromLast(k, AfterEvent(k, w, j, process, from))
  {
    var i := Find(j.current, process, Some(from));
    if i < |j.current| {
      var batch := j.popped[|j.popped| - 1].1;
      var c := j.current[i];
      var r := Event(k, w, c);
      if r.0.Waiting? {
        assert TagOf(k.kind, r.1) == TagOf(k.kind, c);
        assert c in j.current && FromBatch(k.kind, c, batch);
        assert forall d :: d in j.current[i := r.1] ==> d == r.1 || d in j.current;
      } else {
        var rest := j.current[..i] + j.current[i + 1..];
        assert AllFrom(k.kind, rest, batch);
        var j' := j.(current := rest, finished := j.finished + [c]);
        NextFromLast(k, w, if r.0.Failed? then AfterFailure(k, j', c) else j');
      }
    }
  }

  lemma {:induction false} PerformFromLast(k: Setup, j: Jobs, op: Op)
    requires CurrentFromLast(k, j)
    ensures CurrentFromLast(k, Perform(k, j, op))
  {
    match op
    case Next(w) => NextFromLast(k, w, j);
    case Check(w) =>
      KeptFrom(j.current, Waits(k, w));
      NextFromLast(k, w, AfterTimeouts(k, w, j));
    case OnEvent(w, process, from) => EventFromLast(k, w, j, process, from);
    case OnInvalidation(ids) =>
      KeptFrom(j.current, SafeFrom(ids));
      var lost := Kept(j.current, LostOn(ids));
      FailuresKeepProgress(k, j.(current := Kept(j.current, SafeFrom(ids)), finished := j.finished + lost), lost);
    case Add(w, n, c) =>
  }

  /** Over any run, with late additions, the commands in progress belong to the last popped batch. */
  lemma {:induction false} CurrentBelongsToLastBatch(k: Setup, m: Batches, ops: seq<Op>)
    ensures CurrentFromLast(k, Run(k, Stored(m), ops))
    decreases |ops|
  {
    if ops != [] {
      var n := |ops| - 1;
      CurrentBelongsToLastBatch(k, m, ops[..n]);
      PerformFromLast(k, Run(k, Stored(m), ops[..n]), ops[n]);
    }
  }

  // ---- Without late additions, the numbers of the batches are monotone ----

  ghost predicate Ordered(k: Setup, j: Jobs) {
    && (forall a, b :: 0 <= a < b < |j.popped| ==>
          if k.kind.Starting? then j.popped[a].0 < j.popped[b].0 else j.popped[a].0 > j.popped[b].0)
    && (forall a, n :: 0 <= a < |j.popped| && n in j.planned ==>
          if k.kind.Starting? then j.popped[a].0 < n else j.popped[a].0 > n)
  }

  lemma {:induction false} GroupKeepsPopped(k: Setup, w: World, j: Jobs, group: seq<Command>)
    ensures AfterGroup(k, w, j, group).popped == j.popped
    decreases |group|
  {
    if group != [] {
      GroupKeepsPopped(k, w, AfterJob(k, w, j, group[0]), group[1..]);
    }
  }

  lemma {:induction false} FewerKeepOrder(k: Setup, j: Jobs, j': Jobs)
    requires Ordered(k, j) && j'.popped == j.popped && (forall n :: n in j'.planned ==> n in j.planned)
    ensures Ordered(k, j')
  {
  }

  lemma {:induction false} PoppedInOrder(k: Setup, j: Jobs)
    requires Ordered(k, j) && j.planned != map[]
    ensures Ordered(k, Popped(k, j))
  {
    var n := First(k.kind, j.planned);
    assert forall x :: x in j.planned && x != n ==> Before(k.kind, n, x);
  }

  lemma {:induction false} NextKeepsOrder(k: Setup, w: World, j: Jobs)
    requires Ordered(k, j)
    ensures Ordered(k, AfterNext(k, w, j))
    decreases |j.planned|
  {
    if j.current == [] && j.planned != map[] {
      var n := First(k.kind, j.planned);
      SmallerWithout(j.planned, n);
      var p := Popped(k, j);
      PoppedInOrder(k, j);
      GroupKeepsPopped(k, w, p, j.planned[n]);
      FewerKeepOrder(k, p, AfterGroup(k, w, p, j.planned[n]));
      NextKeepsOrder(k, w, AfterGroup(k, w, p, j.planned[n]));
    }
  }

  lemma {:induction false} EventKeepsOrder(k: Setup, w: World, j: Jobs, process: string, from: Identifier)
    requires Ordered(k, j)
    ensures Ordered(k, AfterEvent(k, w, j, process, from))
  {
    var i := Find(j.current, process, Some(from));
    if i < |j.current| {
      var c := j.current[i];
      var r := Event(k, w, c);
      if r.0.Waiting? {
        FewerKeepOrder(k, j, j.(current := j.current[i := r.1]));
      } else {
        var j' := j.(current := j.current[..i] + j.current[i + 1..], finished := j.finished + [c]);
        var j'' := if r.0.Failed? then AfterFailure(k, j', c) else j';
        FewerKeepOrder(k, j, j'');
        NextKeepsOrder(k, w, j'');
      }
    }
  }

  lemma {:induction false} PerformKeepsOrder(k: Setup, j: Jobs, op: Op)
    requires Ordered(k, j) && !op.Add?
    ensures Ordered(k, Perform(k, j, op))
  {
    match op
    case Next(w) => NextKeepsOrder(k, w, j);
    case Check(w) =>
      FewerKeepOrder(k, j, AfterTimeouts(k, w, j));
      NextKeepsOrder(k, w, AfterTimeouts(k, w, j));
    case OnEvent(w, process, from) => EventKeepsOrder(k, w, j, process, from);
    case OnInvalidation(ids) =>
      var lost := Kept(j.current, LostOn(ids));
      FailuresKeepProgress(k, j.(current := Kept(j.current, SafeFrom(ids)), finished := j.finished + lost), lost);
      FewerKeepOrder(k, j, AfterInvalidation(k, j, ids));
  }

  /** The numbers of the batches strictly increase for starts and strictly decrease for stops. */
  lemma {:induction false} BatchesInOrder(k: Setup, m: Batches, ops: seq<Op>)
    requires forall i :: 0 <= i < |ops| ==> !ops[i].Add?
    ensures Ordered(k, Run(k, Stored(m), ops))
    decreases |ops|
  {
    if ops != [] {
      var n := |ops| - 1;
      BatchesInOrder(k, m, ops[..n]);
      PerformKeepsOrder(k, Run(k, Stored(m), ops[..n]), ops[n]);
    }
  }

  // ---- A stop sequence ends in bounded time ----

  function BatchTicks(batch: seq<Command>): (r: nat)
    ensures r >= 1 && forall i :: 0 <= i < |batch| ==> batch[i].waitTicks + 1 <= r
  {
    if batch == [] then 1
    else
      var rest := BatchTicks(batch[..|batch| - 1]);
      if rest < batch[|batch| - 1].waitTicks + 1 then batch[|batch| - 1].waitTicks + 1 else rest
  }

  /** The sum, over the batches, of the largest number of ticks to wait plus one. */
  ghost function PlanTicks(m: Batches): nat
    decreases |m|
  {
    if m == map[] then 0
    else
      var n := First(Kind.Stopping, m);
      SmallerWithout(m, n);
      BatchTicks(m[n]) + PlanTicks(m - {n})
  }

  /** The tick counter of every target is `t` ticks after `base`. */
  ghost predicate AtTick(w: World, base: Identifier -> int, t: nat) {
    forall i :: w.counter(i) == base(i) + t
  }

  predicate StopBuilt(c: Command) {
    c.target.Some? && c.minTicks <= c.waitTicks
  }

  ghost predicate PlanBuilt(m: Batches) {
    forall n, i :: n in m && 0 <= i < |m[n]| ==> StopBuilt(m[n][i])
  }

  /** The number of ticks after which the command times out. */
  function Left(c: Command, base: Identifier -> int, t: nat): int {
    if c.target.Some? then c.counter + c.waitTicks + 1 - base(c.target.value) - t else 0
  }

  /** At tick `t`, the sequence ends in at most `n` ticks. */
  ghost predicate EndsIn(j: Jobs, base: Identifier -> int, t: nat, n: int) {
    && PlanBuilt(j.planned) && PlanTicks(j.planned) <= n
    && (forall c :: c in j.current ==> StopBuilt(c) && 1 <= Left(c, base, t) <= n - PlanTicks(j.planned))
    && (j.current == [] && j.planned != map[] ==> PlanTicks(j.planned) + 1 <= n)
  }

  lemma {:induction false} GroupEndsIn(k: Setup, w: World, base: Identifier -> int, t: nat, j: Jobs, group: seq<Command>, n: int)
    requires k.kind.Stopping? && AtTick(w, base, t)
    requires forall i :: 0 <= i < |group| ==> StopBuilt(group[i]) && group[i].waitTicks + 1 <= n
    requires forall c :: c in j.current ==> StopBuilt(c) && 1 <= Left(c, base, t) <= n
    ensures var j' := AfterGroup(k, w, j, group);
            j'.planned == j.planned && forall c :: c in j'.current ==> StopBuilt(c) && 1 <= Left(c, base, t) <= n
    decreases |group|
  {
    if group != [] {
      var c := group[0];
      var j' := AfterJob(k, w, j, c);
      var c' := c.(counter := CounterOf(w, c));
      assert Left(c', base, t) == c.waitTicks + 1;
      GroupEndsIn(k, w, base, t, j', group[1..], n);
    }
  }

  lemma {:induction false} NextEndsIn(k: Setup, w: World, base: Identifier -> int, t: nat, j: Jobs, n: int)
    requires k.kind.Stopping? && AtTick(w, base, t)
    requires EndsIn(j, base, t, n) || (j.current == [] && PlanBuilt(j.planned) && PlanTicks(j.planned) <= n)
    ensures EndsIn(AfterNext(k, w, j), base, t, n)
    decreases |j.planned|
  {
    if j.current == [] && j.planned != map[] {
      var f := First(k.kind, j.planned);
      SmallerWithout(j.planned, f);
      var batch, rest := j.planned[f], j.planned - {f};
      GroupEndsIn(k, w, base, t, Popped(k, j), batch, n - PlanTicks(rest));
      NextEndsIn(k, w, base, t, AfterGroup(k, w, Popped(k, j), batch), n);
    }
  }

  /** Removing commands in progress delays nothing. */
  lemma {:induction false} FewerEndsIn(j: Jobs, base: Identifier -> int, t: nat, n: int, current: seq<Command>, finished: seq<Command>)
    requires EndsIn(j, base, t, n) && forall c :: c in current ==> c in j.current
    ensures EndsIn(j.(current := current, finished := finished), base, t, n)
  {
    if current == [] && j.current != [] {
      assert j.current[0] in j.current;
    }
  }

  lemma {:induction false} PerformEndsIn(k: Setup, base: Identifier -> int, t: nat, j: Jobs, op: Op, n: int)
    requires k.kind.Stopping? && EndsIn(j, base, t, n) && !op.Add?
    requires !op.OnInvalidation? ==> AtTick(op.w, base, t)
    ensures EndsIn(Perform(k, j, op), base, t, n)
  {
    match op
    case Next(w) => NextEndsIn(k, w, base, t, j, n);
    case Check(w) =>
      var j' := AfterTimeouts(k, w, j);
      KeptFrom(j.current, Waits(k, w));
      FewerEndsIn(j, base, t, n, j'.current, j'.finished);
      NextEndsIn(k, w, base, t, j', n);
    case OnEvent(w, process, from) =>
      var i := Find(j.current, process, Some(from));
      if i < |j.current| {
        var c := j.current[i];
        var r := Event(k, w, c);
        if r.0.Waiting? {
          assert j.current[i := r.1] == j.current;
        } else {
          var rest := j.current[..i] + j.current[i + 1..];
          FewerEndsIn(j, base, t, n, rest, j.finished + [c]);
          NextEndsIn(k, w, base, t, j.(current := rest, finished := j.finished + [c]), n);
        }
      }
    case OnInvalidation(ids) =>
      var lost, kept := Kept(j.current, LostOn(ids)), Kept(j.current, SafeFrom(ids));
      KeptFrom(j.current, SafeFrom(ids));
      FewerEndsIn(j, base, t, n, kept, j.finished + lost);
      StopFailuresChangeNothing(k, j.(current := kept, finished := j.finished + lost), lost);
  }

  lemma {:induction false} StopFailuresChangeNothing(k: Setup, j: Jobs, cs: seq<Command>)
    requires k.kind.Stopping?
    ensures AfterFailures(k, j, cs) == j
    decreases |cs|
  {
    if cs != [] {
      StopFailuresChangeNothing(k, j, cs[..|cs| - 1]);
    }
  }

  /** Each tick brings the end one tick closer. */
  lemma {:induction false} TickEndsIn(k: Setup, w: World, base: Identifier -> int, t: nat, j: Jobs, n: nat)
    requires k.kind.Stopping? && EndsIn(j, base, t, n) && AtTick(w, base, t + 1)
    ensures EndsIn(AfterCheck(k, w, j), base, t + 1, if n > 0 then n - 1 else 0)
  {
    var j' := AfterTimeouts(k, w, j);
    KeptFrom(j.current, Waits(k, w));
    forall c | c in j'.current ensures 1 <= Left(c, base, t + 1) == Left(c, base, t) - 1 {
      assert c in j.current && Waits(k, w)(c);
    }
    if j.current != [] {
      assert j.current[0] in j.current;
    }
    if n > 0 {
      NextEndsIn(k, w, base, t + 1, j', n - 1);
    } else {
      NextEndsIn(k, w, base, t + 1, j', 0);
    }
  }

  /** What happens between two ticks, and the check of the next tick. */
  datatype Round = Round(ops: seq<Op>, check: World)

  ghost predicate RoundAt(r: Round, base: Identifier -> int, t: nat) {
    && (forall i :: 0 <= i < |r.ops| ==> !r.ops[i].Add? && (!r.ops[i].OnInvalidation? ==> AtTick(r.ops[i].w, base, t)))
    && AtTick(r.check, base, t + 1)
  }

  ghost function AfterRound(k: Setup, j: Jobs, r: Round): Jobs {
    AfterCheck(k, r.check, Run(k, j, r.ops))
  }

  ghost function AfterRounds(k: Setup, j: Jobs, rounds: seq<Round>): Jobs
    decreases |rounds|
  {
    if rounds == [] then j else AfterRounds(k, AfterRound(k, j, rounds[0]), rounds[1..])
  }

  lemma {:induction false} RunEndsIn(k: Setup, base: Identifier -> int, t: nat, j: Jobs, ops: seq<Op>, n: int)
    requires k.kind.Stopping? && EndsIn(j, base, t, n)
    requires forall i :: 0 <= i < |ops| ==> !ops[i].Add? && (!ops[i].OnInvalidation? ==> AtTick(ops[i].w, base, t))
    ensures EndsIn(Run(k, j, ops), base, t, n)
    decreases |ops|
  {
    if ops != [] {
      var l := |ops| - 1;
      RunEndsIn(k, base, t, j, ops[..l], n);
      PerformEndsIn(k, base, t, Run(k, j, ops[..l]), ops[l], n);
    }
  }

  ghost predicate RoundsAt(rounds: seq<Round>, base: Identifier -> int, t: nat) {
    forall i :: 0 <= i < |rounds| ==> RoundAt(rounds[i], base, t + i)
  }

  lemma {:induction false} NoTickLeft(j: Jobs, base: Identifier -> int, t: nat)
    requires EndsIn(j, base, t, 0)
    ensures !InProgress(j)
  {
    assert j.planned != map[] ==> PlanTicks(j.planned) >= 1;
    HasElement(j.current);
  }

  lemma {:induction false} HasElement(cs: seq<Command>)
    ensures cs != [] ==> exists c :: c in cs
  {
    if cs != [] {
      assert cs[0] in cs;
    }
  }

  lemma {:induction false} RoundsEndIn(k: Setup, base: Identifier -> int, t: nat, j: Jobs, rounds: seq<Round>, n: nat)
    requires k.kind.Stopping? && EndsIn(j, base, t, n) && |rounds| >= n && RoundsAt(rounds, base, t)
    ensures !InProgress(AfterRounds(k, j, rounds))
    decreases |rounds|
  {
    if rounds == [] {
      NoTickLeft(j, base, t);
    } else {
      assert RoundAt(rounds[0], base, t + 0);
      RunEndsIn(k, base, t, j, rounds[0].ops, n);
      TickEndsIn(k, rounds[0].check, base, t, Run(k, j, rounds[0].ops), n);
      forall i | 0 <= i < |rounds[1..]| ensures RoundAt(rounds[1..][i], base, t + 1 + i) {
        assert RoundAt(rounds[i + 1], base, t + (i + 1));
      }
      RoundsEndIn(k, base, t + 1, AfterRound(k, j, rounds[0]), rounds[1..], if n > 0 then n - 1 else 0);
    }
  }

  /** Whatever process states are reported, whatever instances are lost, and whenever extra checks
      take place, a stop sequence without late addition ends within PlanTicks(m) ticks. */
  lemma {:induction false} StopEndsInBoundedTime(k: Setup, m: Batches, w: World, base: Identifier -> int, rounds: seq<Round>)
    requires k.kind.Stopping? && PlanBuilt(m) && AtTick(w, base, 0)
    requires RoundsAt(rounds, base, 0) && |rounds| >= PlanTicks(m)
    ensures !InProgress(AfterRounds(k, AfterNext(k, w, Stored(m)), rounds))
  {
    NextEndsIn(k, w, base, 0, Stored(m), PlanTicks(m));
    RoundsEndIn(k, base, 0, AfterNext(k, w, Stored(m)), rounds, PlanTicks(m));
  }
}
