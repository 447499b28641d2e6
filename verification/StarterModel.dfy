/** The StarterModel object of supvisors/commander.py: its loop ends, and it leaves no job behind. */
module StarterModel {
  import opened SupvisorsTypes
  import opened ProcessStates
  import opened Sequencer
  import opened SequencerDiscipline
  import opened SequencerBatches
  import opened Prediction

  type Plan = map<int, seq<App>>

  ghost predicate Storable(a: App) {
    Sound(a) && a.jobs.current == []
  }

  ghost predicate AllStorable(apps: seq<App>) {
    forall i :: 0 <= i < |apps| ==> Storable(apps[i])
  }

  ghost predicate AllOnTrack(q: seq<ModelEvent>, apps: seq<App>) {
    forall i :: 0 <= i < |apps| ==> OnTrack(q, apps[i])
  }

  ghost function Unstarted(apps: seq<App>): nat
    decreases |apps|
  {
    if apps == [] then 0
    else Unstarted(apps[..|apps| - 1]) + |Flat(Kind.Starting, apps[|apps| - 1].jobs.planned)|
  }

  ghost function UnstartedIn(plan: Plan): nat
    decreases |plan|
  {
    if plan == map[] then 0
    else
      var n := First(Kind.Starting, plan);
      SmallerWithout(plan, n);
      Unstarted(plan[n]) + UnstartedIn(plan - {n})
  }

  // ---- What becomes of a command `t` of application `name` ----

  ghost function HeldBy(name: string, t: Tag, a: App): nat {
    if a.name == name then Live(a.setup, t, a.jobs) + Gone(a.setup, t, a.jobs) else 0
  }

  ghost function Held(name: string, t: Tag, apps: seq<App>): nat
    decreases |apps|
  {
    if apps == [] then 0 else Held(name, t, apps[..|apps| - 1]) + HeldBy(name, t, apps[|apps| - 1])
  }

  ghost function HeldIn(name: string, t: Tag, plan: Plan): nat
    decreases |plan|
  {
    if plan == map[] then 0
    else
      var n := First(Kind.Starting, plan);
      SmallerWithout(plan, n);
      Held(name, t, plan[n]) + HeldIn(name, t, plan - {n})
  }

  lemma {:induction false} HeldAppend(name: string, t: Tag, apps: seq<App>, a: App)
    ensures Held(name, t, apps + [a]) == Held(name, t, apps) + HeldBy(name, t, a)
  {
    assert (apps + [a])[..|apps|] == apps;
  }

  lemma {:induction false} HeldConcat(name: string, t: Tag, a: seq<App>, b: seq<App>)
    ensures Held(name, t, a + b) == Held(name, t, a) + Held(name, t, b)
    decreases |b|
  {
    if b == [] {
      assert a + b == a;
    } else {
      assert (a + b)[..|a + b| - 1] == a + b[..|b| - 1];
      HeldConcat(name, t, a, b[..|b| - 1]);
    }
  }

  lemma {:induction false} HeldAt(name: string, t: Tag, apps: seq<App>, i: nat, a: App)
    requires i < |apps| && HeldBy(name, t, a) == HeldBy(name, t, apps[i])
    ensures Held(name, t, apps[i := a]) == Held(name, t, apps)
    decreases |apps|
  {
    var n := |apps| - 1;
    if i < n {
      assert apps[i := a][..n] == apps[..n][i := a];
      HeldAt(name, t, apps[..n], i, a);
    } else {
      assert apps[i := a][..n] == apps[..n];
    }
  }

  /** Neither the preparation nor the batches of an application lose a command. */
  lemma {:induction false} TriggerHolds(name: string, t: Tag, w: World, a: App)
    requires a.setup.kind.Starting?
    ensures var b := Prepared(w, a);
            HeldBy(name, t, b.(jobs := AfterNext(b.setup, w, b.jobs))) == HeldBy(name, t, a)
  {
    var b := Prepared(w, a);
    TargetedFlat(w, a.jobs, a.jobs.planned, t);
    NextMoves(b.setup, w, t, b.jobs);
  }

  /** The applications of one sequence have different names. */
  ghost predicate NamesDiffer(apps: seq<App>) {
    forall i, j :: 0 <= i < j < |apps| ==> apps[i].name != apps[j].name
  }

  ghost predicate PlanValid(plan: Plan) {
    forall n :: n in plan ==> AllStorable(plan[n]) && NamesDiffer(plan[n])
  }

  lemma {:induction false} UnstartedAppend(apps: seq<App>, a: App)
    ensures Unstarted(apps + [a]) == Unstarted(apps) + |Flat(Kind.Starting, a.jobs.planned)|
  {
    assert (apps + [a])[..|apps|] == apps;
  }

  lemma {:induction false} UnstartedAt(apps: seq<App>, i: nat, a: App)
    requires i < |apps|
    ensures Unstarted(apps[i := a]) + |Flat(Kind.Starting, apps[i].jobs.planned)| ==
            Unstarted(apps) + |Flat(Kind.Starting, a.jobs.planned)|
    decreases |apps|
  {
    var n := |apps| - 1;
    if i < n {
      assert apps[i := a][..n] == apps[..n][i := a];
      UnstartedAt(apps[..n], i, a);
    } else {
      assert apps[i := a][..n] == apps[..n];
    }
  }

  /** More events in the queue keep the commands awaited. */
  lemma {:induction false} OnTrackLater(q: seq<ModelEvent>, r: seq<ModelEvent>, a: App)
    requires OnTrack(q, a)
    ensures OnTrack(q + r, a)
  {
  }

  /** An application does not wait for the event of another one. */
  lemma {:induction false} OnTrackWithout(e: ModelEvent, q: seq<ModelEvent>, a: App)
    requires OnTrack([e] + q, a) && e.app != a.name
    ensures OnTrack(q, a)
  {
    forall c | c in a.jobs.current ensures Awaited(q, a.name, c) {
      assert Awaited([e] + q, a.name, c);
    }
  }

  /** The applications that are still in progress, and the others. */
  function Going(apps: seq<App>): seq<App>
    decreases |apps|
  {
    if apps == [] then []
    else Going(apps[..|apps| - 1]) + if InProgress(apps[|apps| - 1].jobs) then [apps[|apps| - 1]] else []
  }

  function Ended(apps: seq<App>): seq<App>
    decreases |apps|
  {
    if apps == [] then []
    else Ended(apps[..|apps| - 1]) + if InProgress(apps[|apps| - 1].jobs) then [] else [apps[|apps| - 1]]
  }

  lemma {:induction false} GoingAndEnded(apps: seq<App>)
    ensures forall a :: a in Going(apps) <==> a in apps && InProgress(a.jobs)
    ensures forall a :: a in Ended(apps) <==> a in apps && !InProgress(a.jobs)
    decreases |apps|
  {
    if apps != [] {
      var n := |apps| - 1;
      GoingAndEnded(apps[..n]);
      assert forall a :: a in apps <==> a in apps[..n] || a == apps[n];
    }
  }

  lemma {:induction false} GoingUnstarted(apps: seq<App>)
    ensures Unstarted(Going(apps)) <= Unstarted(apps)
    decreases |apps|
  {
    if apps != [] {
      var n := |apps| - 1;
      GoingUnstarted(apps[..n]);
      UnstartedAppend(Going(apps[..n]), apps[n]);
      assert Going(apps[..n]) + [] == Going(apps[..n]);
    }
  }

  lemma {:induction false} GoingAndEndedHold(name: string, t: Tag, apps: seq<App>)
    ensures Held(name, t, Going(apps)) + Held(name, t, Ended(apps)) == Held(name, t, apps)
    decreases |apps|
  {
    if apps != [] {
      var n := |apps| - 1;
      GoingAndEndedHold(name, t, apps[..n]);
      HeldAppend(name, t, Going(apps[..n]), apps[n]);
      HeldAppend(name, t, Ended(apps[..n]), apps[n]);
      assert Going(apps[..n]) + [] == Going(apps[..n]);
      assert Ended(apps[..n]) + [] == Ended(apps[..n]);
    }
  }

  lemma {:induction false} GoingNames(apps: seq<App>)
    requires NamesDiffer(apps)
    ensures NamesDiffer(Going(apps))
    decreases |apps|
  {
    if apps != [] {
      var n := |apps| - 1;
      GoingNames(apps[..n]);
      GoingAndEnded(apps[..n]);
      var r := Going(apps[..n]);
      forall i | 0 <= i < |r| ensures r[i].name != apps[n].name {
        assert r[i] in apps[..n];
      }
    }
  }

  lemma {:induction false} NothingAwaited(a: App)
    requires OnTrack([], a)
    ensures !InProgress(a.jobs)
  {
    assert forall c :: c in a.jobs.current ==> Awaited([], a.name, c);
    HasElement(a.jobs.current);
  }

  lemma {:induction false} NothingLeft(apps: seq<App>)
    requires AllOnTrack([], apps)
    ensures apps != [] ==> !InProgress(apps[0].jobs)
  {
    if apps != [] {
      NothingAwaited(apps[0]);
    }
  }

  lemma {:induction false} GoingOnTrack(q: seq<ModelEvent>, apps: seq<App>)
    requires AllOnTrack(q, apps)
    ensures AllOnTrack(q, Going(apps))
    ensures forall i :: 0 <= i < |Going(apps)| ==> InProgress(Going(apps)[i].jobs)
    ensures forall i :: 0 <= i < |Ended(apps)| ==> Sound(Ended(apps)[i]) && !InProgress(Ended(apps)[i].jobs)
  {
    GoingAndEnded(apps);
    forall i | 0 <= i < |Going(apps)| ensures OnTrack(q, Going(apps)[i]) && InProgress(Going(apps)[i].jobs) {
      var l :| 0 <= l < |apps| && apps[l] == Going(apps)[i];
    }
    forall i | 0 <= i < |Ended(apps)| ensures Sound(Ended(apps)[i]) && !InProgress(Ended(apps)[i].jobs) {
      assert Ended(apps)[i] in Ended(apps);
      var l :| 0 <= l < |apps| && apps[l] == Ended(apps)[i];
      assert OnTrack(q, apps[l]);
    }
  }

  /** When its sequence is over, each command of an application has been dropped or started and
      finished, once. */
  lemma {:induction false} OverOnce(a: App, t: Tag)
    requires Sound(a) && !InProgress(a.jobs)
    ensures Count(Kind.Starting, t, a.jobs.started) == Count(Kind.Starting, t, a.jobs.finished)
    ensures Count(Kind.Starting, t, a.jobs.started) + Count(Kind.Starting, t, a.jobs.dropped) <= 1
  {
    assert Live(a.setup, t, a.jobs) + Gone(a.setup, t, a.jobs) <= 1 && StartedKnown(a.setup, t, a.jobs);
  }

  // ---- The trigger of the applications of one sequence ----

  function StartedApp(w: World, a: App): App {
    var ready := Prepared(w, a);
    ready.(jobs := AfterNext(ready.setup, w, ready.jobs))
  }

  function StartEvents(w: World, a: App): seq<ModelEvent> {
    AllEvents(a.name, NewStarts(Prepared(w, a).jobs, StartedApp(w, a).jobs))
  }

  function Map<A, B>(f: A -> B, s: seq<A>): (r: seq<B>)
    ensures |r| == |s|
    decreases |s|
  {
    if s == [] then [] else Map(f, s[..|s| - 1]) + [f(s[|s| - 1])]
  }

  function Join<A, B>(f: A -> seq<B>, s: seq<A>): seq<B>
    decreases |s|
  {
    if s == [] then [] else Join(f, s[..|s| - 1]) + f(s[|s| - 1])
  }

  function Starter(w: World): App -> App {
    (a: App) => StartedApp(w, a)
  }

  function Announcer(w: World): App -> seq<ModelEvent> {
    (a: App) => StartEvents(w, a)
  }

  function StartedApps(w: World, apps: seq<App>): seq<App> {
    Map(Starter(w), apps)
  }

  function AllStartEvents(w: World, apps: seq<App>): seq<ModelEvent> {
    Join(Announcer(w), apps)
  }

  lemma {:induction false} MapAt<A, B>(f: A -> B, s: seq<A>, i: nat)
    requires i < |s|
    ensures Map(f, s)[i] == f(s[i])
    decreases |s|
  {
    if i < |s| - 1 {
      MapAt(f, s[..|s| - 1], i);
    }
  }

  lemma {:induction false} TriggerKeeps(w: World, a: App, q: seq<ModelEvent>, name: string, t: Tag)
    requires Storable(a)
    ensures OnTrack(q + StartEvents(w, a), StartedApp(w, a)) && StartedApp(w, a).name == a.name
    ensures |StartEvents(w, a)| + 3 * |Flat(Kind.Starting, StartedApp(w, a).jobs.planned)| <= 3 * |Flat(Kind.Starting, a.jobs.planned)|
    ensures HeldBy(name, t, StartedApp(w, a)) == HeldBy(name, t, a)
  {
    PreparedSound(w, a);
    TriggerApp(w, Prepared(w, a), q);
    TriggerHolds(name, t, w, a);
  }

  /** What is on track with the events of one part of the applications is so with all of them. */
  lemma {:induction false} TriggerOnTrack(q: seq<ModelEvent>, announce: App -> seq<ModelEvent>, apps: seq<App>, i: nat, a: App)
    requires i < |apps| && forall before: seq<ModelEvent> :: OnTrack(before + announce(apps[i]), a)
    ensures OnTrack(q + Join(announce, apps), a)
    decreases |apps|
  {
    var n := |apps| - 1;
    var before, last := q + Join(announce, apps[..n]), announce(apps[n]);
    assert q + Join(announce, apps) == before + last;
    if i < n {
      TriggerOnTrack(q, announce, apps[..n], i, a);
      OnTrackLater(before, last, a);
    }
  }

  lemma {:induction false} TriggersOnTrack(w: World, apps: seq<App>, q: seq<ModelEvent>)
    requires AllStorable(apps)
    ensures AllOnTrack(q + AllStartEvents(w, apps), StartedApps(w, apps))
    ensures forall i :: 0 <= i < |apps| ==> StartedApps(w, apps)[i].name == apps[i].name
  {
    forall i | 0 <= i < |apps|
      ensures OnTrack(q + AllStartEvents(w, apps), StartedApps(w, apps)[i]) && StartedApps(w, apps)[i].name == apps[i].name
    {
      MapAt(Starter(w), apps, i);
      forall before: seq<ModelEvent> ensures OnTrack(before + Announcer(w)(apps[i]), StartedApp(w, apps[i])) {
        TriggerKeeps(w, apps[i], before, "", Tag(0, "", None));
      }
      TriggerOnTrack(q, Announcer(w), apps, i, StartedApp(w, apps[i]));
    }
  }

  /** One more application: what it starts is paid by what it had to start, and it loses nothing. */
  lemma {:induction false} TriggerCounts(w: World, a: App, started: seq<App>, name: string, t: Tag)
    requires Storable(a)
    ensures var r := started + [StartedApp(w, a)];
            && 3 * Unstarted(r) + |StartEvents(w, a)| <= 3 * Unstarted(started) + 3 * |Flat(Kind.Starting, a.jobs.planned)|
            && Held(name, t, r) == Held(name, t, started) + HeldBy(name, t, a)
  {
    TriggerKeeps(w, a, [], name, t);
    UnstartedAppend(started, StartedApp(w, a));
    HeldAppend(name, t, started, StartedApp(w, a));
  }

  lemma {:induction false} TriggersCount(w: World, apps: seq<App>, name: string, t: Tag)
    requires AllStorable(apps)
    ensures var r := StartedApps(w, apps);
            && 3 * Unstarted(r) + |AllStartEvents(w, apps)| <= 3 * Unstarted(apps)
            && Held(name, t, r) == Held(name, t, apps)
    decreases |apps|
  {
    if apps != [] {
      var n := |apps| - 1;
      TriggersCount(w, apps[..n], name, t);
      TriggerCounts(w, apps[n], StartedApps(w, apps[..n]), name, t);
    }
  }

  ghost predicate AllOver(apps: seq<App>) {
    forall i :: 0 <= i < |apps| ==> Sound(apps[i]) && !InProgress(apps[i].jobs)
  }

  /** Everything that the removal of the ended applications keeps. */
  lemma {:induction false} RemovalKeeps(q: seq<ModelEvent>, over: seq<App>, apps: seq<App>, name: string, t: Tag)
    requires AllOnTrack(q, apps) && NamesDiffer(apps) && AllOver(over)
    ensures AllOnTrack(q, Going(apps)) && NamesDiffer(Going(apps)) && AllOver(over + Ended(apps))
    ensures forall i :: 0 <= i < |Going(apps)| ==> InProgress(Going(apps)[i].jobs)
    ensures Unstarted(Going(apps)) <= Unstarted(apps)
    ensures Held(name, t, over + Ended(apps)) + Held(name, t, Going(apps)) == Held(name, t, over) + Held(name, t, apps)
  {
    GoingNames(apps);
    GoingOnTrack(q, apps);
    GoingUnstarted(apps);
    GoingAndEndedHold(name, t, apps);
    HeldConcat(name, t, over, Ended(apps));
  }

  /** Everything that an event for application `i` keeps. */
  lemma {:induction false} FeedKeeps(w: World, e: ModelEvent, q: seq<ModelEvent>, apps: seq<App>, i: nat, name: string, t: Tag)
    requires AllOnTrack([e] + q, apps) && NamesDiffer(apps) && i < |apps| && apps[i].name == e.app
    ensures var app := apps[i];
            var fed := app.(jobs := AfterEvent(app.setup, WithEvent(w, e), app.jobs, e.process, e.from));
            var events := AllEvents(app.name, NewStarts(app.jobs, fed.jobs));
            && AllOnTrack(q + events, apps[i := fed]) && NamesDiffer(apps[i := fed])
            && 3 * Unstarted(apps[i := fed]) + |events| <= 3 * Unstarted(apps)
            && Held(name, t, apps[i := fed]) == Held(name, t, apps)
  {
    var app, w' := apps[i], WithEvent(w, e);
    var fed := app.(jobs := AfterEvent(app.setup, w', app.jobs, e.process, e.from));
    var events := AllEvents(app.name, NewStarts(app.jobs, fed.jobs));
    FeedApp(w, app, e, q);
    forall l | 0 <= l < |apps| && l != i ensures OnTrack(q + events, apps[l]) {
      assert apps[l].name != e.app;
      OnTrackWithout(e, q, apps[l]);
      OnTrackLater(q, events, apps[l]);
    }
    UnstartedAt(apps, i, fed);
    EventMoves(app.setup, w', t, app.jobs, e.process, e.from);
    HeldAt(name, t, apps, i, fed);
  }

  /** The removal of the ended applications, which iterates on a copy. */
  method Scan(apps: seq<App>) returns (going: seq<App>)
    ensures going == Going(apps)
  {
    going := [];
    var i := 0;
    while i < |apps|
      invariant 0 <= i <= |apps| && going == Going(apps[..i])
    {
      assert apps[..i + 1][..i] == apps[..i];
      if InProgress(apps[i].jobs) {
        going := going + [apps[i]];
      }
      i := i + 1;
    }
    assert apps[..i] == apps;
  }

  class StarterModel {
    var planned: Plan
    var current: seq<App>
    var eventList: seq<ModelEvent>
    /** The number of evaluations so far: each of them takes place in its own world. */
    var clock: nat
    /** The applications whose sequence is over. */
    ghost var over: seq<App>

    ghost predicate Valid()
      reads this
    {
      && PlanValid(planned)
      && AllOnTrack(eventList, current) && NamesDiffer(current)
      && AllOver(over)
    }

    /** Each command to start can generate three events. */
    ghost function Measure(): nat
      reads this
    {
      3 * (Unstarted(current) + UnstartedIn(planned)) + |eventList|
    }

    /** How many times a command is planned, in progress, dropped or finished. */
    ghost function Account(name: string, t: Tag): nat
      reads this
    {
      Held(name, t, over) + Held(name, t, current) + HeldIn(name, t, planned)
    }

    constructor (plan: Plan)
      requires PlanValid(plan)
      ensures Valid() && planned == plan && current == [] && eventList == [] && over == []
    {
      planned, current, eventList, clock, over := plan, [], [], 0, [];
    }

    /** Removes the applications whose sequence is over. */
    method RemoveOver()
      modifies this`current, this`over
      ensures current == Going(old(current)) && over == old(over) + Ended(old(current))
    {
      over := over + Ended(current);
      current := Scan(current);
    }

    /** Triggers all the applications of the next sequence. */
    method PopNext(w: World)
      requires planned != map[] && current == []
      modifies this`planned, this`current, this`eventList
      ensures var apps := old(planned)[First(Kind.Starting, old(planned))];
              && planned == old(planned) - {First(Kind.Starting, old(planned))}
              && current == StartedApps(w, apps)
              && eventList == old(eventList) + AllStartEvents(w, apps)
    {
      var n := First(Kind.Starting, planned);
      var apps := planned[n];
      planned := planned - {n};
      TriggerAll(apps, Starter(w), Announcer(w));
    }

    /** Prepares each application, triggers its first batches, and queues the events of their starts. */
    method TriggerAll(apps: seq<App>, start: App -> App, announce: App -> seq<ModelEvent>)
      requires current == []
      modifies this`current, this`eventList
      ensures current == Map(start, apps) && eventList == old(eventList) + Join(announce, apps)
    {
      var events: seq<ModelEvent> := [];
      var i := 0;
      while i < |apps|
        invariant 0 <= i <= |apps| && eventList == old(eventList)
        invariant current == Map(start, apps[..i]) && events == Join(announce, apps[..i])
      {
        assert apps[..i + 1][..i] == apps[..i];
        events := events + announce(apps[i]);
        current := current + [start(apps[i])];
        i := i + 1;
      }
      assert apps[..i] == apps;
      eventList := eventList + events;
    }

    method TriggerNext(w: World, ghost name: string, ghost t: Tag)
      requires Valid() && planned != map[] && current == []
      modifies this`planned, this`current, this`eventList
      ensures Valid() && Measure() <= old(Measure()) && |planned| < |old(planned)|
      ensures Account(name, t) == old(Account(name, t))
    {
      SmallerWithout(planned, First(Kind.Starting, planned));
      ghost var apps := planned[First(Kind.Starting, planned)];
      TriggersOnTrack(w, apps, eventList);
      TriggersCount(w, apps, name, t);
      PopNext(w);
    }

    /** Triggers the next sequences of applications, until one is in progress. */
    method Next(worlds: nat -> World, ghost name: string, ghost t: Tag)
      requires Valid()
      modifies this
      ensures Valid() && Measure() <= old(Measure())
      ensures Account(name, t) == old(Account(name, t))
      ensures forall i :: 0 <= i < |current| ==> InProgress(current[i].jobs)
      ensures current == [] ==> planned == map[]
      decreases |planned|
    {
      RemovalKeeps(eventList, over, current, name, t);
      RemoveOver();
      if planned != map[] && current == [] {
        var w := worlds(clock);
        clock := clock + 1;
        TriggerNext(w, name, t);
        Next(worlds, name, t);
      }
    }

    /** The application concerned by an event handles it, then the next jobs are triggered. */
    method OnEvent(worlds: nat -> World, e: ModelEvent, ghost name: string, ghost t: Tag)
      requires Valid0(e)
      requires forall i :: 0 <= i < |current| ==> InProgress(current[i].jobs)
      requires current == [] ==> planned == map[]
      modifies this
      ensures Valid() && Measure() <= old(Measure())
      ensures Account(name, t) == old(Account(name, t))
      ensures forall i :: 0 <= i < |current| ==> InProgress(current[i].jobs)
      ensures current == [] ==> planned == map[]
    {
      var i := 0;
      while i < |current| && current[i].name != e.app
        invariant 0 <= i <= |current| && forall l :: 0 <= l < i ==> current[l].name != e.app
      {
        i := i + 1;
      }
      if i == |current| {
        forall l | 0 <= l < |current| ensures OnTrack(eventList, current[l]) {
          OnTrackWithout(e, eventList, current[l]);
        }
        return;
      }
      var app := current[i];
      var w := worlds(clock);
      clock := clock + 1;
      FeedKeeps(w, e, eventList, current, i, name, t);
      var fed := app.(jobs := AfterEvent(app.setup, WithEvent(w, e), app.jobs, e.process, e.from));
      var events := AllEvents(app.name, NewStarts(app.jobs, fed.jobs));
      eventList := eventList + events;
      current := current[i := fed];
      Next(worlds, name, t);
    }

    /** Valid before the event is removed from the queue. */
    ghost predicate Valid0(e: ModelEvent)
      reads this
    {
      && PlanValid(planned)
      && AllOnTrack([e] + eventList, current) && NamesDiffer(current)
      && AllOver(over)
    }

    /** Feeds the sequencers with the generated events, until there is none left. At the end no job
        is planned or in progress, with or without wait_exit, failures and aborted plans. */
    method FeedModel(worlds: nat -> World, ghost name: string, ghost t: Tag) returns (count: nat)
      requires Valid()
      requires forall i :: 0 <= i < |current| ==> InProgress(current[i].jobs)
      requires current == [] ==> planned == map[]
      modifies this
      ensures Valid() && eventList == [] && current == [] && planned == map[]
      ensures count <= old(Measure())
      ensures Account(name, t) == old(Account(name, t))
    {
      count := 0;
      while eventList != []
        invariant Valid() && count + Measure() <= old(Measure()) && Account(name, t) == old(Account(name, t))
        invariant forall i :: 0 <= i < |current| ==> InProgress(current[i].jobs)
        invariant current == [] ==> planned == map[]
        decreases Measure()
      {
        var e := eventList[0];
        assert eventList == [e] + eventList[1..];
        eventList := eventList[1..];
        OnEvent(worlds, e, name, t);
        count := count + 1;
      }
      NothingLeft(current);
    }

    /** Predicts the start of the planned applications: at the end, every command that was planned
        for application `name` is accounted for in a sequence that is over. */
    method Predict(worlds: nat -> World, ghost name: string, ghost t: Tag) returns (count: nat)
      requires Valid() && current == [] && eventList == [] && over == []
      modifies this
      ensures Valid() && eventList == [] && current == [] && planned == map[]
      ensures count <= 3 * UnstartedIn(old(planned))
      ensures Held(name, t, over) == HeldIn(name, t, old(planned))
    {
      Next(worlds, name, t);
      count := FeedModel(worlds, name, t);
    }
  }
}
