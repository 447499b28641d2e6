/** What every run of a start or stop sequence keeps: each command is accounted for once, live
    commands are distinct, and the batches are taken in order. */
module SequencerDiscipline {
  import opened SupvisorsTypes
  import opened Sequencer

  // ---- Accounts ----

  /** The identity of a command. The target of a start is only known when it is started. */
  datatype Tag = Tag(id: nat, process: string, target: Option<Identifier>)

  function TagOf(kind: Kind, c: Command): Tag {
    Tag(c.id, c.process, if kind.Stopping? then c.target else None)
  }

  function Count(kind: Kind, t: Tag, cs: seq<Command>): nat
    decreases |cs|
  {
    if cs == [] then 0
    else Count(kind, t, cs[..|cs| - 1]) + One(kind, t, cs[|cs| - 1])
  }

  function One(kind: Kind, t: Tag, c: Command): nat {
    if TagOf(kind, c) == t then 1 else 0
  }

  lemma {:induction false} CountConcat(kind: Kind, t: Tag, a: seq<Command>, b: seq<Command>)
    ensures Count(kind, t, a + b) == Count(kind, t, a) + Count(kind, t, b)
    decreases |b|
  {
    if b == [] {
      assert a + b == a;
    } else {
      assert (a + b)[..|a + b| - 1] == a + b[..|b| - 1];
      CountConcat(kind, t, a, b[..|b| - 1]);
    }
  }

  lemma {:induction false} CountAppend(kind: Kind, t: Tag, a: seq<Command>, c: Command)
    ensures Count(kind, t, a + [c]) == Count(kind, t, a) + One(kind, t, c)
  {
    assert (a + [c])[..|a|] == a;
  }

  lemma {:induction false} CountKept(kind: Kind, t: Tag, cs: seq<Command>, keep: Command -> bool, drop: Command -> bool)
    requires forall c :: drop(c) == !keep(c)
    ensures Count(kind, t, Kept(cs, keep)) + Count(kind, t, Kept(cs, drop)) == Count(kind, t, cs)
    decreases |cs|
  {
    if cs != [] {
      var n := |cs| - 1;
      CountKept(kind, t, cs[..n], keep, drop);
      CountAppend(kind, t, Kept(cs[..n], keep), cs[n]);
      CountAppend(kind, t, Kept(cs[..n], drop), cs[n]);
      assert Kept(cs[..n], keep) + [] == Kept(cs[..n], keep);
      assert Kept(cs[..n], drop) + [] == Kept(cs[..n], drop);
    }
  }

  /** How many times the command is planned or in progress. */
  ghost function Live(k: Setup, t: Tag, j: Jobs): nat {
    Count(k.kind, t, Flat(k.kind, j.planned)) + Count(k.kind, t, j.current)
  }

  ghost function Gone(k: Setup, t: Tag, j: Jobs): nat {
    Count(k.kind, t, j.dropped) + Count(k.kind, t, j.finished)
  }

  /** What has been started is in progress or finished. */
  ghost predicate StartedKnown(k: Setup, t: Tag, j: Jobs) {
    Count(k.kind, t, j.started) == Count(k.kind, t, j.current) + Count(k.kind, t, j.finished)
  }

  /** Commands only move from planned to current to finished, or from planned to dropped;
      `extra` of them come from a popped batch. */
  ghost predicate Moved(k: Setup, t: Tag, j: Jobs, extra: nat, j': Jobs) {
    && Live(k, t, j') + Gone(k, t, j') == Live(k, t, j) + Gone(k, t, j) + extra
    && Gone(k, t, j) <= Gone(k, t, j')
    && (StartedKnown(k, t, j) ==> StartedKnown(k, t, j'))
  }

  lemma {:induction false} FailureMoves(k: Setup, t: Tag, j: Jobs, c: Command)
    ensures Moved(k, t, j, 0, AfterFailure(k, j, c))
  {
    CountConcat(k.kind, t, j.dropped, Flat(k.kind, j.planned));
  }

  lemma {:induction false} DropMoves(k: Setup, t: Tag, j: Jobs, c: Command)
    ensures Moved(k, t, j, One(k.kind, t, c), j.(dropped := j.dropped + [c]))
  {
    CountAppend(k.kind, t, j.dropped, c);
  }

  lemma {:induction false} StartMoves(k: Setup, t: Tag, j: Jobs, c: Command)
    ensures Moved(k, t, j, One(k.kind, t, c), j.(current := j.current + [c], started := j.started + [c]))
  {
    CountAppend(k.kind, t, j.current, c);
    CountAppend(k.kind, t, j.started, c);
  }

  /** A command of a popped batch is started or dropped. */
  lemma {:induction false} JobMoves(k: Setup, w: World, t: Tag, j: Jobs, c: Command)
    ensures Moved(k, t, j, One(k.kind, t, c), AfterJob(k, w, j, c))
  {
    var c' := if k.kind.Starting? && k.distributed then WithTarget(w, c, w.place(j.planned, j.current, c)) else c;
    var c'' := c'.(counter := CounterOf(w, c'));
    StartMoves(k, t, j, c'');
    assert One(k.kind, t, c'') == One(k.kind, t, c);
    var j' := j.(dropped := j.dropped + [c]);
    DropMoves(k, t, j, c);
    FailureMoves(k, t, j', c);
    var end := AfterJob(k, w, j, c);
    assert end == j' || end == AfterFailure(k, j', c)
        || end == j.(current := j.current + [c''], started := j.started + [c'']);
  }

  lemma {:induction false} GroupMoves(k: Setup, w: World, t: Tag, j: Jobs, group: seq<Command>)
    ensures Moved(k, t, j, Count(k.kind, t, group), AfterGroup(k, w, j, group))
    decreases |group|
  {
    if group != [] {
      JobMoves(k, w, t, j, group[0]);
      GroupMoves(k, w, t, AfterJob(k, w, j, group[0]), group[1..]);
      assert group == [group[0]] + group[1..];
      CountConcat(k.kind, t, [group[0]], group[1..]);
      CountAppend(k.kind, t, [], group[0]);
    }
  }

  lemma {:induction false} NextMoves(k: Setup, w: World, t: Tag, j: Jobs)
    ensures Moved(k, t, j, 0, AfterNext(k, w, j))
    decreases |j.planned|
  {
    if j.current == [] && j.planned != map[] {
      var n := First(k.kind, j.planned);
      SmallerWithout(j.planned, n);
      CountConcat(k.kind, t, j.planned[n], Flat(k.kind, j.planned - {n}));
      GroupMoves(k, w, t, Popped(k, j), j.planned[n]);
      NextMoves(k, w, t, AfterGroup(k, w, Popped(k, j), j.planned[n]));
    }
  }

  lemma {:induction false} CheckMoves(k: Setup, w: World, t: Tag, j: Jobs)
    ensures Moved(k, t, j, 0, AfterCheck(k, w, j))
  {
    var keep, drop := Waits(k, w), Done(k, w);
    CountKept(k.kind, t, j.current, keep, drop);
    CountConcat(k.kind, t, j.finished, Kept(j.current, drop));
    assert Moved(k, t, j, 0, AfterTimeouts(k, w, j));
    NextMoves(k, w, t, AfterTimeouts(k, w, j));
  }

  lemma {:induction false} CountAt(kind: Kind, t: Tag, cs: seq<Command>, i: nat)
    requires i < |cs|
    ensures Count(kind, t, cs) == Count(kind, t, cs[..i] + cs[i + 1..]) + One(kind, t, cs[i])
  {
    assert cs == cs[..i] + [cs[i]] + cs[i + 1..];
    CountConcat(kind, t, cs[..i] + [cs[i]], cs[i + 1..]);
    CountAppend(kind, t, cs[..i], cs[i]);
    CountConcat(kind, t, cs[..i], cs[i + 1..]);
  }

  lemma {:induction false} UpdateMoves(k: Setup, t: Tag, j: Jobs, i: nat, c: Command)
    requires i < |j.current| && TagOf(k.kind, c) == TagOf(k.kind, j.current[i])
    ensures Moved(k, t, j, 0, j.(current := j.current[i := c]))
  {
    var updated := j.current[i := c];
    CountAt(k.kind, t, j.current, i);
    CountAt(k.kind, t, updated, i);
    assert updated[..i] + updated[i + 1..] == j.current[..i] + j.current[i + 1..];
  }

  lemma {:induction false} FinishMoves(k: Setup, t: Tag, j: Jobs, i: nat)
    requires i < |j.current|
    ensures Moved(k, t, j, 0, j.(current := j.current[..i] + j.current[i + 1..], finished := j.finished + [j.current[i]]))
  {
    CountAt(k.kind, t, j.current, i);
    CountAppend(k.kind, t, j.finished, j.current[i]);
  }

  lemma {:induction false} EventMoves(k: Setup, w: World, t: Tag, j: Jobs, process: string, target: Identifier)
    ensures Moved(k, t, j, 0, AfterEvent(k, w, j, process, target))
  {
    var i := Find(j.current, process, Some(target));
    if i < |j.current| {
      var c := j.current[i];
      var r := Event(k, w, c);
      if r.0.Waiting? {
        UpdateMoves(k, t, j, i, r.1);
      } else {
        var j' := j.(current := j.current[..i] + j.current[i + 1..], finished := j.finished + [c]);
        FinishMoves(k, t, j, i);
        FailureMoves(k, t, j', c);
        NextMoves(k, w, t, if r.0.Failed? then AfterFailure(k, j', c) else j');
      }
    }
  }

  lemma {:induction false} FailuresMove(k: Setup, t: Tag, j: Jobs, cs: seq<Command>)
    ensures Moved(k, t, j, 0, AfterFailures(k, j, cs))
    decreases |cs|
  {
    if cs != [] {
      FailuresMove(k, t, j, cs[..|cs| - 1]);
      FailureMoves(k, t, AfterFailures(k, j, cs[..|cs| - 1]), cs[|cs| - 1]);
    }
  }

  lemma {:induction false} InvalidationMoves(k: Setup, t: Tag, j: Jobs, ids: set<Identifier>)
    ensures Moved(k, t, j, 0, AfterInvalidation(k, j, ids))
  {
    var keep, drop := SafeFrom(ids), LostOn(ids);
    CountKept(k.kind, t, j.current, keep, drop);
    var lost := Kept(j.current, drop);
    CountConcat(k.kind, t, j.finished, lost);
    var j' := j.(current := Kept(j.current, keep), finished := j.finished + lost);
    assert Moved(k, t, j, 0, j');
    FailuresMove(k, t, j', lost);
  }

  // ---- Late additions ----

  /** The count does not depend on the order in which the batches are taken. */
  lemma {:induction false} FlatAt(kind: Kind, t: Tag, m: Batches, n: int)
    requires n in m
    ensures Count(kind, t, Flat(kind, m)) == Count(kind, t, m[n]) + Count(kind, t, Flat(kind, m - {n}))
    decreases |m|
  {
    assert m != map[];
    var f := First(kind, m);
    SmallerWithout(m, f);
    CountConcat(kind, t, m[f], Flat(kind, m - {f}));
    if f != n {
      var rest := m - {n};
      assert f in rest;
      assert rest != map[];
      FlatAt(kind, t, m - {f}, n);
      assert m - {f} - {n} == rest - {f};
      CountConcat(kind, t, rest[f], Flat(kind, rest - {f}));
    }
  }

  lemma {:induction false} FlatAdd(kind: Kind, t: Tag, m: Batches, n: int, c: Command)
    ensures var m' := m[n := (if n in m then m[n] else []) + [c]];
            Count(kind, t, Flat(kind, m')) == Count(kind, t, Flat(kind, m)) + One(kind, t, c)
  {
    var m' := m[n := (if n in m then m[n] else []) + [c]];
    FlatAt(kind, t, m', n);
    assert m' - {n} == m - {n};
    if n in m {
      FlatAt(kind, t, m, n);
      CountAppend(kind, t, m[n], c);
    } else {
      assert m - {n} == m;
      CountAppend(kind, t, [], c);
    }
  }

  lemma {:induction false} AddCounts(k: Setup, w: World, t: Tag, j: Jobs, n: int, c: Command)
    ensures Moved(k, t, j, if IsLive(j, c) then 0 else One(k.kind, t, c), AfterAdd(k, w, j, n, c))
  {
    if !IsLive(j, c) {
      var c' := if k.kind.Starting? && !k.distributed then WithTarget(w, c, w.place(j.planned, j.current, c)) else c;
      FlatAdd(k.kind, t, j.planned, n, c');
      assert One(k.kind, t, c') == One(k.kind, t, c);
    }
  }

  // ---- Every run keeps the accounts ----

  ghost function Added(k: Setup, j: Jobs, op: Op, t: Tag): nat {
    if op.Add? && !IsLive(j, op.c) then One(k.kind, t, op.c) else 0
  }

  lemma {:induction false} PerformMoves(k: Setup, t: Tag, j: Jobs, op: Op)
    ensures Moved(k, t, j, Added(k, j, op, t), Perform(k, j, op))
  {
    match op
    case Next(w) => NextMoves(k, w, t, j);
    case Check(w) => CheckMoves(k, w, t, j);
    case OnEvent(w, process, from) => EventMoves(k, w, t, j, process, from);
    case OnInvalidation(ids) => InvalidationMoves(k, t, j, ids);
    case Add(w, n, c) => AddCounts(k, w, t, j, n, c);
  }

  ghost function AllAdded(k: Setup, j: Jobs, ops: seq<Op>, t: Tag): nat
    decreases |ops|
  {
    if ops == [] then 0
    else
      var n := |ops| - 1;
      AllAdded(k, j, ops[..n], t) + Added(k, Run(k, j, ops[..n]), ops[n], t)
  }

  /** Each command that has been stored or added is planned, in progress, dropped or finished,
      exactly as many times as it has been stored or added. It is started as many times as it is
      in progress or finished, so a command is never started twice, nor started and dropped. */
  lemma {:induction false} CommandsAccountedFor(k: Setup, m: Batches, ops: seq<Op>, t: Tag)
    ensures var j := Run(k, Stored(m), ops);
            && Count(k.kind, t, Flat(k.kind, j.planned)) + Count(k.kind, t, j.current)
               + Count(k.kind, t, j.dropped) + Count(k.kind, t, j.finished)
               == Count(k.kind, t, Flat(k.kind, m)) + AllAdded(k, Stored(m), ops, t)
            && Count(k.kind, t, j.started) == Count(k.kind, t, j.current) + Count(k.kind, t, j.finished)
    decreases |ops|
  {
    if ops != [] {
      var n := |ops| - 1;
      CommandsAccountedFor(k, m, ops[..n], t);
      PerformMoves(k, t, Run(k, Stored(m), ops[..n]), ops[n]);
    }
  }

  // ---- No two live commands for the same process and target ----

  predicate SameJob(a: Tag, b: Tag) {
    a.process == b.process && a.target == b.target
  }

  ghost predicate Distinct(k: Setup, j: Jobs) {
    && (forall t :: Live(k, t, j) <= 1)
    && (forall a, b :: Live(k, a, j) > 0 && Live(k, b, j) > 0 && SameJob(a, b) ==> a == b)
  }

  lemma {:induction false} CountOccurs(kind: Kind, t: Tag, cs: seq<Command>) returns (i: nat)
    requires Count(kind, t, cs) > 0
    ensures i < |cs| && TagOf(kind, cs[i]) == t
    decreases |cs|
  {
    i := |cs| - 1;
    if TagOf(kind, cs[i]) != t {
      i := CountOccurs(kind, t, cs[..i]);
    }
  }

  lemma {:induction false} FlatOccurs(kind: Kind, m: Batches, i: nat) returns (n: int, l: nat)
    requires i < |Flat(kind, m)|
    ensures n in m && l < |m[n]| && m[n][l] == Flat(kind, m)[i]
    decreases |m|
  {
    n := First(kind, m);
    SmallerWithout(m, n);
    if i < |m[n]| {
      l := i;
    } else {
      n, l := FlatOccurs(kind, m - {n}, i - |m[n]|);
    }
  }

  /** A command that is not considered yet differs from all the live ones. */
  lemma {:induction false} NewJobDiffers(k: Setup, j: Jobs, c: Command, t: Tag)
    requires Built(k.kind, c) && !IsLive(j, c) && Live(k, t, j) > 0
    ensures !SameJob(t, TagOf(k.kind, c))
  {
    if Count(k.kind, t, j.current) > 0 {
      var i := CountOccurs(k.kind, t, j.current);
      assert !Clashes(c, j.current[i]);
    } else {
      var i := CountOccurs(k.kind, t, Flat(k.kind, j.planned));
      var n, l := FlatOccurs(k.kind, j.planned, i);
      assert !Clashes(c, j.planned[n][l]);
    }
  }

  lemma {:induction false} PerformKeepsDistinct(k: Setup, j: Jobs, op: Op)
    requires Distinct(k, j) && (op.Add? ==> Built(k.kind, op.c))
    ensures Distinct(k, Perform(k, j, op))
  {
    var j' := Perform(k, j, op);
    forall t ensures Live(k, t, j') <= Live(k, t, j) + Added(k, j, op, t) {
      PerformMoves(k, t, j, op);
    }
    if op.Add? && !IsLive(j, op.c) {
      forall t | Live(k, t, j) > 0 ensures !SameJob(t, TagOf(k.kind, op.c)) {
        NewJobDiffers(k, j, op.c, t);
      }
    }
  }

  /** Over any run, with late additions, no two live commands share process and target; for
      starts, no two live commands share their process. */
  lemma {:induction false} LiveJobsDistinct(k: Setup, m: Batches, ops: seq<Op>)
    requires Distinct(k, Stored(m))
    requires forall i :: 0 <= i < |ops| && ops[i].Add? ==> Built(k.kind, ops[i].c)
    ensures Distinct(k, Run(k, Stored(m), ops))
    decreases |ops|
  {
    if ops != [] {
      var n := |ops| - 1;
      LiveJobsDistinct(k, m, ops[..n]);
      PerformKeepsDistinct(k, Run(k, Stored(m), ops[..n]), ops[n]);
    }
  }

  /** In particular, at most one command in progress is concerned by an event. */
  lemma {:induction false} OneCommandPerEvent(k: Setup, j: Jobs, a: nat, b: nat)
    requires Distinct(k, j) && a < b < |j.current|
    ensures j.current[a].process != j.current[b].process
            || (k.kind.Stopping? && j.current[a].target != j.current[b].target)
  {
    var t, u := TagOf(k.kind, j.current[a]), TagOf(k.kind, j.current[b]);
    CountAt(k.kind, t, j.current, a);
    CountAt(k.kind, u, j.current, b);
    var rest := j.current[..a] + j.current[a + 1..];
    assert rest[b - 1] == j.current[b];
    CountAt(k.kind, u, rest, b - 1);
    assert Live(k, t, j) > 0 && Live(k, u, j) > 0;
    assert SameJob(t, u) ==> t == u;
  }
}
