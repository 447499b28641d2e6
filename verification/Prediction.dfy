/** The prediction of a start sequence (StarterModel in supvisors/commander.py): the sequencers
    are fed with the events that a normal start generates, until there is none left. */
module Prediction {
  import opened SupvisorsTypes
  import opened ProcessStates
  import opened Sequencer
  import opened SequencerDiscipline

  /** The sequence of one application. */
  datatype App = App(name: string, setup: Setup, jobs: Jobs)

  datatype ModelEvent = ModelEvent(app: string, process: string, from: Identifier, state: ProcessState)

  function TargetOf(c: Command): Identifier {
    if c.target.Some? then c.target.value else Id("")
  }

  /** The events that follow the start of a process. */
  function EventsOf(app: string, c: Command): seq<ModelEvent> {
    [ModelEvent(app, c.process, TargetOf(c), ProcessState.Starting), ModelEvent(app, c.process, TargetOf(c), ProcessState.Running)]
    + if c.waitExit then [ModelEvent(app, c.process, TargetOf(c), Exited)] else []
  }

  function AllEvents(app: string, cs: seq<Command>): seq<ModelEvent>
    decreases |cs|
  {
    if cs == [] then [] else AllEvents(app, cs[..|cs| - 1]) + EventsOf(app, cs[|cs| - 1])
  }

  /** The event that completes a command. */
  function Completing(app: string, c: Command): ModelEvent {
    ModelEvent(app, c.process, TargetOf(c), if c.waitExit && !c.ignoreWaitExit then Exited else ProcessState.Running)
  }

  /** The events of a start are STARTING, RUNNING, and EXITED when the process is expected to exit; the
      one that completes the command is the last one, unless the exit is not waited for. */
  lemma {:induction false} EventsInOrder(app: string, c: Command)
    ensures var es := EventsOf(app, c);
            && |es| == (if c.waitExit then 3 else 2)
            && (forall l :: 0 <= l < |es| ==> es[l].app == app && es[l].process == c.process && es[l].from == TargetOf(c))
            && es[0].state.Starting? && es[1].state.Running? && (c.waitExit ==> es[2].state.Exited?)
            && Completing(app, c) == if c.waitExit && c.ignoreWaitExit then es[1] else es[|es| - 1]
  {
  }

  /** The process information once the event has been written to it. */
  function WithEvent(w: World, e: ModelEvent): World {
    w.(info := (p: string, i: Identifier) =>
         if p == e.process && i == e.from then Info(e.state, w.info(p, i).expected) else w.info(p, i))
  }

  /** The event only changes the state of its process on its instance. */
  lemma {:induction false} EventIsSeen(w: World, e: ModelEvent, p: string, i: Identifier)
    ensures WithEvent(w, e).info(p, i).expected == w.info(p, i).expected
    ensures WithEvent(w, e).info(p, i).state == if (p, i) == (e.process, e.from) then e.state else w.info(p, i).state
  {
  }

  /** What is started between two states of a sequence. */
  function NewStarts(j: Jobs, j': Jobs): seq<Command> {
    if |j.started| <= |j'.started| then j'.started[|j.started|..] else []
  }

  // ---- Starts, queue and measure ----

  /** From `j` to `j'`, commands are only started: those in progress are the former ones and the
      started ones. */
  ghost predicate Starts(j: Jobs, j': Jobs) {
    && j.started <= j'.started
    && (forall c :: c in NewStarts(j, j') ==> c.target.Some?)
    && (forall c :: c in j'.current ==> c in j.current || c in NewStarts(j, j'))
  }

  /** Commands to start, plus commands started. */
  ghost function Weight(k: Setup, j: Jobs): nat {
    |Flat(k.kind, j.planned)| + |j.started|
  }

  lemma {:induction false} StartsCompose(j: Jobs, j': Jobs, j'': Jobs)
    requires Starts(j, j') && Starts(j', j'')
    ensures Starts(j, j'')
  {
    assert NewStarts(j, j'') == NewStarts(j, j') + NewStarts(j', j'');
  }

  lemma {:induction false} GroupStarts(k: Setup, w: World, j: Jobs, group: seq<Command>)
    ensures var j' := AfterGroup(k, w, j, group);
            Starts(j, j') && Weight(k, j') <= Weight(k, j) + |group|
    decreases |group|
  {
    if group != [] {
      var j' := AfterJob(k, w, j, group[0]);
      assert Starts(j, j') && Weight(k, j') <= Weight(k, j) + 1;
      GroupStarts(k, w, j', group[1..]);
      StartsCompose(j, j', AfterGroup(k, w, j, group));
    }
  }

  lemma {:induction false} NextStarts(k: Setup, w: World, j: Jobs)
    ensures var j' := AfterNext(k, w, j);
            && Starts(j, j') && Weight(k, j') <= Weight(k, j)
            && (j'.current == [] ==> j'.planned == map[])
            && (j.current != [] ==> j' == j)
    decreases |j.planned|
  {
    if j.current == [] && j.planned != map[] {
      var n := First(k.kind, j.planned);
      SmallerWithout(j.planned, n);
      var p := Popped(k, j);
      var g := AfterGroup(k, w, p, j.planned[n]);
      GroupStarts(k, w, p, j.planned[n]);
      NextStarts(k, w, g);
      assert Starts(j, p);
      StartsCompose(j, p, g);
      StartsCompose(j, g, AfterNext(k, w, j));
    }
  }

  // ---- The completion of every command in progress is in the queue ----

  ghost predicate Awaited(q: seq<ModelEvent>, app: string, c: Command) {
    c.target.Some? && Completing(app, c) in q
  }

  ghost predicate AllAwaited(q: seq<ModelEvent>, a: App) {
    forall c :: c in a.jobs.current ==> Awaited(q, a.name, c)
  }

  lemma {:induction false} StartsAreAwaited(app: string, cs: seq<Command>)
    requires forall c :: c in cs ==> c.target.Some?
    ensures |AllEvents(app, cs)| <= 3 * |cs|
    ensures forall c :: c in cs ==> Awaited(AllEvents(app, cs), app, c)
    decreases |cs|
  {
    if cs != [] {
      var n := |cs| - 1;
      StartsAreAwaited(app, cs[..n]);
      forall c | c in cs ensures Awaited(AllEvents(app, cs), app, c) {
        assert c in cs[..n] || c == cs[n];
      }
    }
  }

  /** A start sequence in which each command appears once, and the accounts are kept. */
  ghost predicate Sound(a: App) {
    && a.setup.kind.Starting?
    && Distinct(a.setup, a.jobs)
    && (forall t :: Live(a.setup, t, a.jobs) + Gone(a.setup, t, a.jobs) <= 1 && StartedKnown(a.setup, t, a.jobs))
  }

  lemma {:induction false} NextKeepsSound(w: World, a: App)
    requires Sound(a)
    ensures Sound(a.(jobs := AfterNext(a.setup, w, a.jobs)))
  {
    PerformKeepsDistinct(a.setup, a.jobs, Next(w));
    forall t ensures var j := AfterNext(a.setup, w, a.jobs);
                     Live(a.setup, t, j) + Gone(a.setup, t, j) <= 1 && StartedKnown(a.setup, t, j) {
      NextMoves(a.setup, w, t, a.jobs);
      assert Live(a.setup, t, a.jobs) + Gone(a.setup, t, a.jobs) <= 1;
    }
  }

  lemma {:induction false} EventKeepsSound(w: World, a: App, process: string, from: Identifier)
    requires Sound(a)
    ensures Sound(a.(jobs := AfterEvent(a.setup, w, a.jobs, process, from)))
  {
    PerformKeepsDistinct(a.setup, a.jobs, OnEvent(w, process, from));
    forall t ensures var j := AfterEvent(a.setup, w, a.jobs, process, from);
                     Live(a.setup, t, j) + Gone(a.setup, t, j) <= 1 && StartedKnown(a.setup, t, j) {
      EventMoves(a.setup, w, t, a.jobs, process, from);
      assert Live(a.setup, t, a.jobs) + Gone(a.setup, t, a.jobs) <= 1;
    }
  }

  /** A sequence that has not been told to start, or whose commands are all awaited. */
  ghost predicate OnTrack(q: seq<ModelEvent>, a: App) {
    Sound(a) && AllAwaited(q, a) && (a.jobs.current == [] ==> a.jobs.planned == map[])
  }

  /** The state of an application when its batches are triggered. */
  lemma {:induction false} TriggerApp(w: World, a: App, q: seq<ModelEvent>)
    requires Sound(a) && a.jobs.current == []
    ensures var a' := a.(jobs := AfterNext(a.setup, w, a.jobs));
            && OnTrack(q + AllEvents(a.name, NewStarts(a.jobs, a'.jobs)), a')
            && |AllEvents(a.name, NewStarts(a.jobs, a'.jobs))| + 3 * |Flat(Kind.Starting, a'.jobs.planned)|
               <= 3 * |Flat(Kind.Starting, a.jobs.planned)|
  {
    NextKeepsSound(w, a);
    NextStarts(a.setup, w, a.jobs);
    StartsAreAwaited(a.name, NewStarts(a.jobs, AfterNext(a.setup, w, a.jobs)));
  }

  /** The other commands do not wait for the event of a command. */
  lemma {:induction false} OthersWait(a: App, e: ModelEvent, q: seq<ModelEvent>, i: nat, d: Command)
    requires OnTrack([e] + q, a) && i < |a.jobs.current| && a.jobs.current[i].process == e.process
    requires d in a.jobs.current[..i] + a.jobs.current[i + 1..]
    ensures Awaited(q, a.name, d) && d.process != e.process
  {
    var n :| 0 <= n < |a.jobs.current| && a.jobs.current[n] == d && n != i;
    if n < i {
      OneCommandPerEvent(a.setup, a.jobs, n, i);
    } else {
      OneCommandPerEvent(a.setup, a.jobs, i, n);
    }
    assert Awaited([e] + q, a.name, d);
  }

  lemma {:induction false} AwaitedLater(q: seq<ModelEvent>, r: seq<ModelEvent>, app: string, c: Command)
    requires Awaited(q, app, c) || Awaited(r, app, c)
    ensures Awaited(q + r, app, c)
  {
  }

  /** An intermediate event: the command goes on waiting for another one. */
  lemma {:induction false} FeedWaiting(w: World, a: App, e: ModelEvent, q: seq<ModelEvent>, i: nat)
    requires OnTrack([e] + q, a) && i == Find(a.jobs.current, e.process, Some(e.from)) < |a.jobs.current|
    requires Event(a.setup, WithEvent(w, e), a.jobs.current[i]).0.Waiting?
    ensures OnTrack(q, a.(jobs := AfterEvent(a.setup, WithEvent(w, e), a.jobs, e.process, e.from)))
  {
    var w' := WithEvent(w, e);
    EventKeepsSound(w', a, e.process, e.from);
    var c := a.jobs.current[i];
    var r := Event(a.setup, w', c);
    assert Awaited([e] + q, a.name, c);
    assert Completing(a.name, r.1) == Completing(a.name, c) != e;
    forall d | d in a.jobs.current[i := r.1] ensures Awaited(q, a.name, d) {
      if d != r.1 {
        var n :| 0 <= n < |a.jobs.current| && n != i && a.jobs.current[n] == d;
        OthersWait(a, e, q, i, d);
      }
    }
  }

  /** The command is completed, or failed: the next batch is triggered when it is the last one. */
  lemma {:induction false} FeedCompleted(w: World, a: App, e: ModelEvent, q: seq<ModelEvent>, i: nat)
    requires OnTrack([e] + q, a) && i == Find(a.jobs.current, e.process, Some(e.from)) < |a.jobs.current|
    requires !Event(a.setup, WithEvent(w, e), a.jobs.current[i]).0.Waiting?
    ensures var a' := a.(jobs := AfterEvent(a.setup, WithEvent(w, e), a.jobs, e.process, e.from));
            && OnTrack(q + AllEvents(a.name, NewStarts(a.jobs, a'.jobs)), a')
            && |AllEvents(a.name, NewStarts(a.jobs, a'.jobs))| + 3 * |Flat(Kind.Starting, a'.jobs.planned)|
               <= 3 * |Flat(Kind.Starting, a.jobs.planned)|
  {
    var w', j := WithEvent(w, e), a.jobs;
    EventKeepsSound(w', a, e.process, e.from);
    var c := j.current[i];
    var r := Event(a.setup, w', c);
    var rest := j.current[..i] + j.current[i + 1..];
    var j1 := j.(current := rest, finished := j.finished + [c]);
    var j2 := if r.0.Failed? then AfterFailure(a.setup, j1, c) else j1;
    var j' := AfterNext(a.setup, w', j2);
    NextStarts(a.setup, w', j2);
    var starts := NewStarts(j, j');
    StartsAreAwaited(a.name, starts);
    forall d | d in j'.current ensures Awaited(q + AllEvents(a.name, starts), a.name, d) {
      if d in rest {
        OthersWait(a, e, q, i, d);
      }
      AwaitedLater(q, AllEvents(a.name, starts), a.name, d);
    }
  }

  /** The command that an event completes is not in progress anymore; the others are still awaited. */
  lemma {:induction false} FeedApp(w: World, a: App, e: ModelEvent, q: seq<ModelEvent>)
    requires OnTrack([e] + q, a)
    ensures var a' := a.(jobs := AfterEvent(a.setup, WithEvent(w, e), a.jobs, e.process, e.from));
            && OnTrack(q + AllEvents(a.name, NewStarts(a.jobs, a'.jobs)), a')
            && |AllEvents(a.name, NewStarts(a.jobs, a'.jobs))| + 3 * |Flat(Kind.Starting, a'.jobs.planned)|
               <= 3 * |Flat(Kind.Starting, a.jobs.planned)|
  {
    var i := Find(a.jobs.current, e.process, Some(e.from));
    if i == |a.jobs.current| {
      assert q + AllEvents(a.name, []) == q;
    } else if Event(a.setup, WithEvent(w, e), a.jobs.current[i]).0.Waiting? {
      FeedWaiting(w, a, e, q, i);
      assert q + AllEvents(a.name, []) == q;
    } else {
      FeedCompleted(w, a, e, q, i);
    }
  }

  // ---- Before the first batch of a non-distributed application ----

  function Targeted(w: World, j: Jobs, cs: seq<Command>): (r: seq<Command>)
    ensures |r| == |cs|
    decreases |cs|
  {
    if cs == [] then []
    else
      var c := cs[|cs| - 1];
      Targeted(w, j, cs[..|cs| - 1]) + [WithTarget(w, c, w.place(j.planned, j.current, c))]
  }

  function TargetedBatches(w: World, j: Jobs, m: Batches): Batches {
    map n | n in m :: Targeted(w, j, m[n])
  }

  /** A target is chosen at once for all the processes of a non-distributed application. */
  function Prepared(w: World, a: App): App {
    if a.setup.distributed then a
    else a.(jobs := a.jobs.(planned := TargetedBatches(w, a.jobs, a.jobs.planned)))
  }

  lemma {:induction false} TargetedAt(w: World, j: Jobs, cs: seq<Command>, l: nat)
    requires l < |cs|
    ensures Targeted(w, j, cs)[l] == WithTarget(w, cs[l], w.place(j.planned, j.current, cs[l]))
    decreases |cs|
  {
    if l < |cs| - 1 {
      TargetedAt(w, j, cs[..|cs| - 1], l);
    }
  }

  /** Every planned process of a non-distributed application gets the instance that is found for it, and
      the time to wait there; the others remain as they are. */
  lemma {:induction false} PreparedExactly(w: World, a: App, n: int, l: nat)
    requires n in a.jobs.planned && l < |a.jobs.planned[n]|
    ensures var c, b := a.jobs.planned[n][l], Prepared(w, a).jobs;
            var target := w.place(a.jobs.planned, a.jobs.current, c);
            && b.planned.Keys == a.jobs.planned.Keys && |b.planned[n]| == |a.jobs.planned[n]|
            && b.planned[n][l] == if a.setup.distributed || target.None? then c
                                  else c.(target := target, waitTicks := w.ticks(c.process, target.value) + c.minTicks)
  {
    TargetedAt(w, a.jobs, a.jobs.planned[n], l);
  }

  lemma {:induction false} TargetedCount(w: World, j: Jobs, cs: seq<Command>, t: Tag)
    ensures Count(Kind.Starting, t, Targeted(w, j, cs)) == Count(Kind.Starting, t, cs)
    decreases |cs|
  {
    if cs != [] {
      var n := |cs| - 1;
      TargetedCount(w, j, cs[..n], t);
      CountAppend(Kind.Starting, t, Targeted(w, j, cs[..n]), WithTarget(w, cs[n], w.place(j.planned, j.current, cs[n])));
    }
  }

  lemma {:induction false} TargetedFlat(w: World, j: Jobs, m: Batches, t: Tag)
    ensures |Flat(Kind.Starting, TargetedBatches(w, j, m))| == |Flat(Kind.Starting, m)|
    ensures Count(Kind.Starting, t, Flat(Kind.Starting, TargetedBatches(w, j, m))) == Count(Kind.Starting, t, Flat(Kind.Starting, m))
    decreases |m|
  {
    var m' := TargetedBatches(w, j, m);
    if m != map[] {
      var n := First(Kind.Starting, m);
      assert n in m' && m' != map[];
      SmallerWithout(m, n);
      assert m' - {n} == TargetedBatches(w, j, m - {n});
      TargetedFlat(w, j, m - {n}, t);
      TargetedCount(w, j, m[n], t);
      CountConcat(Kind.Starting, t, m[n], Flat(Kind.Starting, m - {n}));
      CountConcat(Kind.Starting, t, m'[n], Flat(Kind.Starting, m' - {n}));
    } else {
      assert m' == map[];
    }
  }

  lemma {:induction false} PreparedSound(w: World, a: App)
    requires Sound(a)
    ensures Sound(Prepared(w, a)) && |Flat(Kind.Starting, Prepared(w, a).jobs.planned)| == |Flat(Kind.Starting, a.jobs.planned)|
  {
    var a' := Prepared(w, a);
    TargetedFlat(w, a.jobs, a.jobs.planned, Tag(0, "", None));
    forall t ensures Live(a.setup, t, a'.jobs) == Live(a.setup, t, a.jobs) && Gone(a.setup, t, a'.jobs) == Gone(a.setup, t, a.jobs)
                     && (StartedKnown(a.setup, t, a.jobs) ==> StartedKnown(a.setup, t, a'.jobs)) {
      TargetedFlat(w, a.jobs, a.jobs.planned, t);
    }
    forall t ensures Live(a.setup, t, a'.jobs) + Gone(a.setup, t, a'.jobs) <= 1 && StartedKnown(a.setup, t, a'.jobs) {
      assert Live(a.setup, t, a.jobs) + Gone(a.setup, t, a.jobs) <= 1;
    }
    assert Distinct(a.setup, a.jobs);
  }
}
