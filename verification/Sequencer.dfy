/** The start and stop sequences of one application (supvisors/commander.py): commands, batches,
    events and timeouts, as functions on values. Class ApplicationJobs is proved against them. */
module Sequencer {
  import opened SupvisorsTypes
  import opened ProcessStates

  datatype Kind = Starting | Stopping

  datatype FailureStrategy = Abort | StopApplication | Continue

  /** A command has its target from its creation when it is a stop, and at the latest when it is
      started otherwise. `counter` is the tick counter of its target at the request. */
  datatype Command = Command(
    id: nat,
    process: string,
    target: Option<Identifier>,
    counter: int,
    minTicks: nat,
    waitTicks: nat,
    waitExit: bool,
    ignoreWaitExit: bool,
    required: bool,
    onFailure: FailureStrategy)

  type Batches = map<int, seq<Command>>

  /** `dropped` are the commands that have not been started and never will, `finished` those that
      have been started and are not in progress anymore, `popped` the batches taken so far. */
  datatype Jobs = Jobs(
    planned: Batches,
    current: seq<Command>,
    stopRequest: bool,
    started: seq<Command>,
    dropped: seq<Command>,
    finished: seq<Command>,
    popped: seq<(int, seq<Command>)>)

  /** `distributed` tells if each start chooses its own instance. */
  datatype Setup = Setup(kind: Kind, distributed: bool)

  datatype Info = Info(state: ProcessState, expected: bool)

  /** What a call reads out of the sequence: process information, tick counters, and the
      placement, which depends on the requests in progress. */
  datatype World = World(
    info: (string, Identifier) -> Info,
    counter: Identifier -> int,
    stopped: Command -> bool,
    runningOn: (string, Identifier) -> bool,
    place: (Batches, seq<Command>, Command) -> Option<Identifier>,
    ticks: (string, Identifier) -> nat)

  // ---- Pickup logic ----

  predicate Before(kind: Kind, a: int, b: int) {
    if kind.Starting? then a < b else a > b
  }

  predicate IsFirst<T>(kind: Kind, m: map<int, T>, n: int) {
    n in m && forall x :: x in m ==> x == n || Before(kind, n, x)
  }

  lemma {:induction false} FirstExists<T>(kind: Kind, m: map<int, T>) returns (n: int)
    requires m != map[]
    ensures IsFirst(kind, m, n)
    decreases |m|
  {
    assert (forall x :: x !in m) ==> m == map[];
    var x :| x in m;
    var rest := m - {x};
    assert m.Keys == rest.Keys + {x};
    if rest == map[] {
      n := x;
    } else {
      assert |rest.Keys| < |m.Keys|;
      n := FirstExists(kind, rest);
      if Before(kind, x, n) {
        n := x;
      }
    }
  }

  /** The lowest number for a start, the highest for a stop. */
  function First<T>(kind: Kind, m: map<int, T>): (n: int)
    requires m != map[]
    ensures IsFirst(kind, m, n)
  {
    assert exists n :: IsFirst(kind, m, n) by {
      var n := FirstExists(kind, m);
    }
    var n :| n in m && IsFirst(kind, m, n);
    n
  }

  // ---- Commands ----

  datatype Progress = Waiting | Success | Failed | TimedOut

  function InfoOf(w: World, c: Command): Info {
    if c.target.Some? then w.info(c.process, c.target.value) else Info(Unknown, false)
  }

  function CounterOf(w: World, c: Command): int {
    if c.target.Some? then w.counter(c.target.value) else 0
  }

  function StartTimeout(w: World, c: Command): Progress {
    var state := InfoOf(w, c).state;
    if state.Running? then
      if c.waitExit && !c.ignoreWaitExit then Waiting else Success
    else if state.Backoff? || state.Starting? then
      if CounterOf(w, c) > c.counter + c.waitTicks then TimedOut else Waiting
    else if CounterOf(w, c) > c.counter + c.minTicks then TimedOut else Waiting
  }

  function StopTimeout(w: World, c: Command): Progress {
    var state := InfoOf(w, c).state;
    if state.Stopping? then
      if c.counter + c.waitTicks < CounterOf(w, c) then TimedOut else Waiting
    else if InStoppedStates(state) then Success
    else if CounterOf(w, c) > c.counter + c.minTicks then TimedOut else Waiting
  }

  function Timeout(k: Setup, w: World, c: Command): Progress {
    if k.kind.Starting? then StartTimeout(w, c) else StopTimeout(w, c)
  }

  /** The result of a start event, and the command, whose counter is reset in BACKOFF. */
  function StartEvent(w: World, c: Command): (Progress, Command) {
    var info := InfoOf(w, c);
    match info.state
    case Starting => (Waiting, c)
    case Running => (if !c.waitExit || c.ignoreWaitExit then Success else Waiting, c)
    case Exited => (if c.waitExit && info.expected then Success else Progress.Failed, c)
    case Backoff => (Waiting, c.(counter := CounterOf(w, c)))
    case _ => (Progress.Failed, c)
  }

  function Event(k: Setup, w: World, c: Command): (Progress, Command) {
    if k.kind.Starting? then StartEvent(w, c)
    else (if InStoppedStates(InfoOf(w, c).state) then Success else Waiting, c)
  }

  // ---- Sequences ----

  lemma {:induction false} SmallerWithout<T>(m: map<int, T>, n: int)
    requires n in m
    ensures |m - {n}| < |m|
  {
    assert (m - {n}).Keys == m.Keys - {n};
  }

  /** All the planned commands, in the order of the batches. */
  function Flat(kind: Kind, m: Batches): seq<Command>
    decreases |m|
  {
    if m == map[] then []
    else
      var n := First(kind, m);
      SmallerWithout(m, n);
      m[n] + Flat(kind, m - {n})
  }

  /** A failure of a required command erases the plan, unless the strategy is to go on. */
  function AfterFailure(k: Setup, j: Jobs, c: Command): Jobs {
    if k.kind.Stopping? || !c.required || c.onFailure.Continue? then j
    else j.(planned := map[], dropped := j.dropped + Flat(k.kind, j.planned),
            stopRequest := j.stopRequest || c.onFailure.StopApplication?)
  }

  function WithTarget(w: World, c: Command, target: Option<Identifier>): Command {
    if target.None? then c
    else c.(target := target, waitTicks := w.ticks(c.process, target.value) + c.minTicks)
  }

  /** The request of a command, in a batch that has been popped. */
  function AfterJob(k: Setup, w: World, j: Jobs, c: Command): Jobs {
    var eligible := if k.kind.Starting? then w.stopped(c)
                    else c.target.Some? && w.runningOn(c.process, c.target.value);
    if !eligible then j.(dropped := j.dropped + [c])
    else
      var c' := if k.kind.Starting? && k.distributed then WithTarget(w, c, w.place(j.planned, j.current, c)) else c;
      if c'.target.Some? then
        var c'' := c'.(counter := CounterOf(w, c'));
        j.(current := j.current + [c''], started := j.started + [c''])
      else AfterFailure(k, j.(dropped := j.dropped + [c]), c)
  }

  function AfterGroup(k: Setup, w: World, j: Jobs, group: seq<Command>): (r: Jobs)
    ensures r.planned == j.planned || r.planned == map[]
    decreases |group|
  {
    if group == [] then j else AfterGroup(k, w, AfterJob(k, w, j, group[0]), group[1..])
  }

  function Popped(k: Setup, j: Jobs): Jobs
    requires j.planned != map[]
  {
    var n := First(k.kind, j.planned);
    j.(planned := j.planned - {n}, popped := j.popped + [(n, j.planned[n])])
  }

  /** The batches are triggered until one leaves a command in progress. */
  function AfterNext(k: Setup, w: World, j: Jobs): Jobs
    decreases |j.planned|
  {
    if j.current != [] || j.planned == map[] then j
    else
      var n := First(k.kind, j.planned);
      SmallerWithout(j.planned, n);
      AfterNext(k, w, AfterGroup(k, w, Popped(k, j), j.planned[n]))
  }

  /** The commands that the periodic check leaves in progress, and the others. */
  function Waits(k: Setup, w: World): Command -> bool {
    (c: Command) => Timeout(k, w, c).Waiting?
  }

  function Done(k: Setup, w: World): Command -> bool {
    (c: Command) => !Timeout(k, w, c).Waiting?
  }

  /** The commands of `cs` that satisfy, or not, a condition. */
  function Kept(cs: seq<Command>, keep: Command -> bool): (r: seq<Command>)
    decreases |cs|
  {
    if cs == [] then []
    else Kept(cs[..|cs| - 1], keep) + if keep(cs[|cs| - 1]) then [cs[|cs| - 1]] else []
  }

  /** The periodic check, without the trigger of the next batch. */
  function AfterTimeouts(k: Setup, w: World, j: Jobs): Jobs {
    j.(current := Kept(j.current, Waits(k, w)),
       finished := j.finished + Kept(j.current, Done(k, w)))
  }

  function AfterCheck(k: Setup, w: World, j: Jobs): Jobs {
    AfterNext(k, w, AfterTimeouts(k, w, j))
  }

  /** The index of the first command for this process, on this target when there is one. */
  function Find(cs: seq<Command>, process: string, target: Option<Identifier>): (i: nat)
    ensures i <= |cs|
    ensures i < |cs| ==> cs[i].process == process && (target.Some? ==> cs[i].target == target)
    ensures forall n :: 0 <= n < i ==> !(cs[n].process == process && (target.Some? ==> cs[n].target == target))
    decreases |cs|
  {
    if cs == [] then 0
    else if cs[0].process == process && (target.Some? ==> cs[0].target == target) then 0
    else 1 + Find(cs[1..], process, target)
  }

  function AfterEvent(k: Setup, w: World, j: Jobs, process: string, target: Identifier): Jobs {
    var i := Find(j.current, process, Some(target));
    if i == |j.current| then j
    else
      var c := j.current[i];
      var r := Event(k, w, c);
      if r.0.Waiting? then j.(current := j.current[i := r.1])
      else
        var j' := j.(current := j.current[..i] + j.current[i + 1..], finished := j.finished + [c]);
        AfterNext(k, w, if r.0.Failed? then AfterFailure(k, j', c) else j')
  }

  function AfterFailures(k: Setup, j: Jobs, cs: seq<Command>): (r: Jobs)
    ensures r.current == j.current
    decreases |cs|
  {
    if cs == [] then j
    else AfterFailure(k, AfterFailures(k, j, cs[..|cs| - 1]), cs[|cs| - 1])
  }

  /** The commands whose target is lost, and the others. */
  function LostOn(ids: set<Identifier>): Command -> bool {
    (c: Command) => c.target.Some? && c.target.value in ids
  }

  function SafeFrom(ids: set<Identifier>): Command -> bool {
    (c: Command) => !(c.target.Some? && c.target.value in ids)
  }

  /** The commands in progress on lost instances are removed; the next batch is not triggered. */
  function AfterInvalidation(k: Setup, j: Jobs, ids: set<Identifier>): Jobs {
    var lost := Kept(j.current, LostOn(ids));
    AfterFailures(k, j.(current := Kept(j.current, SafeFrom(ids)), finished := j.finished + lost), lost)
  }

  predicate Clashes(c: Command, d: Command) {
    d.process == c.process && (c.target.Some? ==> d.target == c.target)
  }

  predicate IsLive(j: Jobs, c: Command) {
    || (exists i :: 0 <= i < |j.current| && Clashes(c, j.current[i]))
    || (exists n, i :: n in j.planned && 0 <= i < |j.planned[n]| && Clashes(c, j.planned[n][i]))
  }

  /** The addition of one command, which is ignored when it is already considered. */
  function AfterAdd(k: Setup, w: World, j: Jobs, n: int, c: Command): Jobs {
    if IsLive(j, c) then j
    else
      var c' := if k.kind.Starting? && !k.distributed then WithTarget(w, c, w.place(j.planned, j.current, c)) else c;
      j.(planned := j.planned[n := (if n in j.planned then j.planned[n] else []) + [c']])
  }

  // ---- Runs ----

  datatype Op =
    | Next(w: World)
    | Check(w: World)
    | OnEvent(w: World, process: string, from: Identifier)
    | OnInvalidation(ids: set<Identifier>)
    | Add(w: World, n: int, c: Command)

  function Perform(k: Setup, j: Jobs, op: Op): Jobs {
    match op
    case Next(w) => AfterNext(k, w, j)
    case Check(w) => AfterCheck(k, w, j)
    case OnEvent(w, process, from) => AfterEvent(k, w, j, process, from)
    case OnInvalidation(ids) => AfterInvalidation(k, j, ids)
    case Add(w, n, c) => AfterAdd(k, w, j, n, c)
  }

  function Run(k: Setup, j: Jobs, ops: seq<Op>): Jobs
    decreases |ops|
  {
    if ops == [] then j else Perform(k, Run(k, j, ops[..|ops| - 1]), ops[|ops| - 1])
  }

  /** A job as it is stored, before its first batch. */
  function Stored(m: Batches): Jobs {
    Jobs(m, [], false, [], [], [], [])
  }

  predicate InProgress(j: Jobs) {
    j.planned != map[] || j.current != []
  }

  /** The target of a command as it is built. */
  predicate Built(kind: Kind, c: Command) {
    c.target.None? <==> kind.Starting?
  }
}
