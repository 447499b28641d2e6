/** What the reported states and the ticks do to the commands of a sequence, in terms of the rules of
    the processes (supvisors/commander.py). */
module SequencerOutcomes {
  import opened SupvisorsTypes
  import opened ProcessStates
  import opened Sequencer
  import opened SequencerBatches

  /** The exit of the process is part of its start. */
  predicate ExitAwaited(c: Command) {
    c.waitExit && !c.ignoreWaitExit
  }

  predicate IsStarted(c: Command, info: Info) {
    (info.state.Running? && !ExitAwaited(c)) || (info.state.Exited? && c.waitExit && info.expected)
  }

  predicate IsUnderway(c: Command, info: Info) {
    info.state.Starting? || info.state.Backoff? || (info.state.Running? && ExitAwaited(c))
  }

  /** The event of `process` on `target` is about command `i` in progress. */
  predicate IsAbout(j: Jobs, process: string, target: Identifier, i: nat) {
    && i < |j.current| && j.current[i].process == process && j.current[i].target == Some(target)
    && forall l :: 0 <= l < i ==> !(j.current[l].process == process && j.current[l].target == Some(target))
  }

  function Without(j: Jobs, i: nat): Jobs
    requires i < |j.current|
  {
    j.(current := j.current[..i] + j.current[i + 1..], finished := j.finished + [j.current[i]])
  }

  lemma {:induction false} FindIsAbout(j: Jobs, process: string, target: Identifier, i: nat)
    requires IsAbout(j, process, target, i)
    ensures Find(j.current, process, Some(target)) == i
  {
    var n := Find(j.current, process, Some(target));
    if n < i {
      assert j.current[n].process == process;
    }
  }

  // ---- The events of a start ----

  /** While the process is on its way, the command remains in progress; BACKOFF gives it a new delay. */
  lemma {:induction false} StartGoesOn(k: Setup, w: World, j: Jobs, process: string, target: Identifier, i: nat)
    requires k.kind.Starting? && IsAbout(j, process, target, i)
    requires IsUnderway(j.current[i], w.info(process, target))
    ensures var c := j.current[i];
            AfterEvent(k, w, j, process, target) ==
            j.(current := j.current[i := c.(counter := if w.info(process, target).state.Backoff? then w.counter(target) else c.counter)])
  {
    FindIsAbout(j, process, target, i);
  }

  /** When it is started, the sequence goes on. */
  lemma {:induction false} StartSucceeds(k: Setup, w: World, j: Jobs, process: string, target: Identifier, i: nat)
    requires k.kind.Starting? && IsAbout(j, process, target, i)
    requires IsStarted(j.current[i], w.info(process, target))
    ensures AfterEvent(k, w, j, process, target) == AfterNext(k, w, Without(j, i))
  {
    FindIsAbout(j, process, target, i);
  }

  /** The plan after a failure. */
  predicate ErasesPlan(c: Command) {
    c.required && !c.onFailure.Continue?
  }

  /** Any other state is a failure. When the process is required, the plan is erased, unless the
      strategy is to go on, and STOP requests the stop of the application; otherwise the sequence goes
      on as if it were started. */
  lemma {:induction false} StartFails(k: Setup, w: World, j: Jobs, process: string, target: Identifier, i: nat)
    requires k.kind.Starting? && IsAbout(j, process, target, i)
    requires var info := w.info(process, target); !IsStarted(j.current[i], info) && !IsUnderway(j.current[i], info)
    ensures var c := j.current[i];
            var j' := AfterEvent(k, w, j, process, target);
            if ErasesPlan(c) then
              && j'.planned == map[] && j'.current == j.current[..i] + j.current[i + 1..]
              && j'.started == j.started && j'.finished == j.finished + [c]
              && (j'.stopRequest <==> j.stopRequest || c.onFailure.StopApplication?)
            else j' == AfterNext(k, w, Without(j, i))
  {
    FindIsAbout(j, process, target, i);
  }

  /** After a stop has been told, it is over exactly when the process is in a stopped state. */
  lemma {:induction false} StopCompletes(k: Setup, w: World, j: Jobs, process: string, target: Identifier, i: nat)
    requires k.kind.Stopping? && IsAbout(j, process, target, i)
    ensures AfterEvent(k, w, j, process, target) ==
            if w.info(process, target).state in {ProcessState.Stopped, Exited, Fatal, Unknown} then AfterNext(k, w, Without(j, i)) else j
  {
    FindIsAbout(j, process, target, i);
  }

  // ---- An erased plan stops the sequence ----

  lemma {:induction false} NothingPlanned(k: Setup, j: Jobs, op: Op)
    requires j.planned == map[] && !op.Add?
    ensures var j' := Perform(k, j, op);
            j'.planned == map[] && j'.started == j.started && j'.popped == j.popped && forall c :: c in j'.finished ==> c in j.finished + j.current
  {
    match op
    case Next(w) =>
    case Check(w) => KeptFrom(j.current, Done(k, w));
    case OnEvent(w, process, from) =>
    case OnInvalidation(ids) =>
      var lost := Kept(j.current, LostOn(ids));
      KeptFrom(j.current, LostOn(ids));
      FailuresKeepPlanErased(k, j.(current := Kept(j.current, SafeFrom(ids)), finished := j.finished + lost), lost);
    case Add(_, _, _) =>
  }

  lemma {:induction false} FailuresKeepPlanErased(k: Setup, j: Jobs, cs: seq<Command>)
    requires j.planned == map[]
    ensures var j' := AfterFailures(k, j, cs);
            j'.planned == map[] && j'.started == j.started && j'.popped == j.popped && j'.finished == j.finished
    decreases |cs|
  {
    if cs != [] {
      FailuresKeepPlanErased(k, j, cs[..|cs| - 1]);
    }
  }

  /** From there, without late addition, no command is started any more, whatever happens: the
      failure of a required process with ABORT or STOP ends the sequence. */
  lemma {:induction false} ErasedPlanStartsNothing(k: Setup, j: Jobs, ops: seq<Op>)
    requires j.planned == map[] && forall l :: 0 <= l < |ops| ==> !ops[l].Add?
    ensures var j' := Run(k, j, ops); j'.planned == map[] && j'.started == j.started && j'.popped == j.popped
    decreases |ops|
  {
    if ops != [] {
      var n := |ops| - 1;
      ErasedPlanStartsNothing(k, j, ops[..n]);
      NothingPlanned(k, Run(k, j, ops[..n]), ops[n]);
    }
  }

  // ---- The request to stop the application ----

  /** A required process with the STOP strategy has been dropped, or is not in progress any more. */
  ghost predicate HasStopCause(j: Jobs) {
    exists c :: c in j.dropped + j.finished && c.required && c.onFailure.StopApplication?
  }

  ghost predicate StopIsCaused(j: Jobs) {
    j.stopRequest ==> HasStopCause(j)
  }

  lemma {:induction false} FailureIsCaused(k: Setup, j: Jobs, c: Command)
    requires StopIsCaused(j) && c in j.dropped + j.finished
    ensures var j' := AfterFailure(k, j, c);
            StopIsCaused(j') && (forall d :: d in j.dropped + j.finished ==> d in j'.dropped + j'.finished)
  {
    var j' := AfterFailure(k, j, c);
    assert forall d :: d in j.dropped + j.finished ==> d in j'.dropped + j'.finished;
  }

  lemma {:induction false} JobIsCaused(k: Setup, w: World, j: Jobs, c: Command)
    requires StopIsCaused(j)
    ensures StopIsCaused(AfterJob(k, w, j, c))
  {
    var j' := j.(dropped := j.dropped + [c]);
    assert c in j'.dropped + j'.finished;
    assert StopIsCaused(j') by {
      assert forall d :: d in j.dropped + j.finished ==> d in j'.dropped + j'.finished;
    }
    FailureIsCaused(k, j', c);
  }

  lemma {:induction false} GroupIsCaused(k: Setup, w: World, j: Jobs, group: seq<Command>)
    requires StopIsCaused(j)
    ensures StopIsCaused(AfterGroup(k, w, j, group))
    decreases |group|
  {
    if group != [] {
      JobIsCaused(k, w, j, group[0]);
      GroupIsCaused(k, w, AfterJob(k, w, j, group[0]), group[1..]);
    }
  }

  lemma {:induction false} NextIsCaused(k: Setup, w: World, j: Jobs)
    requires StopIsCaused(j)
    ensures StopIsCaused(AfterNext(k, w, j))
    decreases |j.planned|
  {
    if j.current == [] && j.planned != map[] {
      var n := First(k.kind, j.planned);
      SmallerWithout(j.planned, n);
      GroupIsCaused(k, w, Popped(k, j), j.planned[n]);
      NextIsCaused(k, w, AfterGroup(k, w, Popped(k, j), j.planned[n]));
    }
  }

  lemma {:induction false} FailuresAreCaused(k: Setup, j: Jobs, cs: seq<Command>)
    requires StopIsCaused(j) && forall c :: c in cs ==> c in j.dropped + j.finished
    ensures var j' := AfterFailures(k, j, cs);
            StopIsCaused(j') && (forall d :: d in j.dropped + j.finished ==> d in j'.dropped + j'.finished)
    decreases |cs|
  {
    if cs != [] {
      var n := |cs| - 1;
      FailuresAreCaused(k, j, cs[..n]);
      FailureIsCaused(k, AfterFailures(k, j, cs[..n]), cs[n]);
    }
  }

  lemma {:induction false} MoreFinished(j: Jobs, j': Jobs)
    requires StopIsCaused(j) && j'.stopRequest == j.stopRequest && j'.dropped == j.dropped && j.finished <= j'.finished
    ensures StopIsCaused(j')
  {
    assert forall d :: d in j.dropped + j.finished ==> d in j'.dropped + j'.finished;
  }

  lemma {:induction false} PerformIsCaused(k: Setup, j: Jobs, op: Op)
    requires StopIsCaused(j)
    ensures StopIsCaused(Perform(k, j, op))
  {
    match op
    case Next(w) => NextIsCaused(k, w, j);
    case Check(w) =>
      MoreFinished(j, AfterTimeouts(k, w, j));
      NextIsCaused(k, w, AfterTimeouts(k, w, j));
    case OnEvent(w, process, from) =>
      var i := Find(j.current, process, Some(from));
      if i < |j.current| && !Event(k, w, j.current[i]).0.Waiting? {
        var j' := Without(j, i);
        MoreFinished(j, j');
        FailureIsCaused(k, j', j.current[i]);
        NextIsCaused(k, w, if Event(k, w, j.current[i]).0.Failed? then AfterFailure(k, j', j.current[i]) else j');
      }
    case OnInvalidation(ids) =>
      var lost := Kept(j.current, LostOn(ids));
      var j' := j.(current := Kept(j.current, SafeFrom(ids)), finished := j.finished + lost);
      MoreFinished(j, j');
      FailuresAreCaused(k, j', lost);
    case Add(w, n, c) =>
  }

  /** Over any run, the stop of the application is only requested when a required process with the
      STOP strategy has failed to start. */
  lemma {:induction false} StopRequestIsCaused(k: Setup, m: Batches, ops: seq<Op>)
    ensures StopIsCaused(Run(k, Stored(m), ops))
    decreases |ops|
  {
    if ops != [] {
      var n := |ops| - 1;
      StopRequestIsCaused(k, m, ops[..n]);
      PerformIsCaused(k, Run(k, Stored(m), ops[..n]), ops[n]);
    }
  }

  // ---- The timeouts ----

  /** The number of ticks that a command can wait for its next event: for the completion once the
      process is on its way, for its first sign otherwise. */
  function Delay(k: Setup, c: Command, state: ProcessState): nat {
    if k.kind.Starting? && (state.Starting? || state.Backoff?) then c.waitTicks
    else if k.kind.Stopping? && state.Stopping? then c.waitTicks
    else c.minTicks
  }

  /** The process has reached what the command asks for, which no event has told. */
  predicate IsAlreadyDone(k: Setup, c: Command, state: ProcessState) {
    if k.kind.Starting? then state.Running? && !ExitAwaited(c)
    else state in {ProcessState.Stopped, Exited, Fatal, Unknown}
  }

  /** The start of a process whose exit is awaited has no time limit once it runs. */
  predicate HasNoLimit(k: Setup, c: Command, state: ProcessState) {
    k.kind.Starting? && state.Running? && ExitAwaited(c)
  }

  /** The periodic check keeps a command in progress exactly when its process is not already there, and
      its delay is not over. */
  lemma {:induction false} CheckKeepsExactly(k: Setup, w: World, j: Jobs, c: Command)
    requires c in j.current && c.target.Some?
    ensures var state := w.info(c.process, c.target.value).state;
            c in AfterTimeouts(k, w, j).current <==>
            !IsAlreadyDone(k, c, state)
            && (HasNoLimit(k, c, state) || w.counter(c.target.value) <= c.counter + Delay(k, c, state))
  {
    KeptFrom(j.current, Waits(k, w));
  }

  /** A command that is given up is removed as if it were done: even for a required process, the plan is
      neither erased nor stopped, and the next batch follows. */
  lemma {:induction false} TimeoutGoesOn(k: Setup, w: World, j: Jobs, c: Command)
    requires j.current == [c] && !Timeout(k, w, c).Waiting?
    ensures AfterCheck(k, w, j) == AfterNext(k, w, Without(j, 0))
  {
    var j' := AfterTimeouts(k, w, j);
    OneKept(c, Done(k, w));
    OneKept(c, Waits(k, w));
    assert j' == Without(j, 0);
  }

  lemma {:induction false} OneKept(c: Command, keep: Command -> bool)
    ensures Kept([c], keep) == if keep(c) then [c] else []
  {
    assert [c][..0] == [];
  }

  /** What takes place leaves the stop of `c` in progress: its process is stopping, and time is left. */
  predicate LeavesStopping(op: Op, c: Command)
    requires c.target.Some?
  {
    match op
    case Next(_) => true
    case Check(w) =>
      w.info(c.process, c.target.value).state.Stopping? && w.counter(c.target.value) <= c.counter + c.waitTicks
    case OnEvent(w, process, from) => w.info(c.process, c.target.value).state.Stopping?
    case OnInvalidation(ids) => c.target.value !in ids
    case Add(_, _, _) => true
  }

  lemma {:induction false} NextKeepsCurrent(k: Setup, w: World, j: Jobs)
    ensures j.current != [] ==> AfterNext(k, w, j) == j
  {
  }

  lemma {:induction false} PerformLeavesStopping(k: Setup, j: Jobs, op: Op, c: Command)
    requires k.kind.Stopping? && c in j.current && c.target.Some? && LeavesStopping(op, c)
    ensures c in Perform(k, j, op).current
  {
    match op
    case Next(w) => NextKeepsCurrent(k, w, j);
    case Check(w) =>
      CheckKeepsExactly(k, w, j, c);
      NextKeepsCurrent(k, w, AfterTimeouts(k, w, j));
    case OnEvent(w, process, from) =>
      var i := Find(j.current, process, Some(from));
      if i < |j.current| && !Event(k, w, j.current[i]).0.Waiting? {
        assert j.current[i] != c;
        assert c in j.current[..i] + j.current[i + 1..];
        NextKeepsCurrent(k, w, Without(j, i));
      } else if i < |j.current| {
        assert j.current[i := j.current[i]] == j.current;
      }
    case OnInvalidation(ids) =>
      KeptFrom(j.current, SafeFrom(ids));
    case Add(w, n, d) =>
  }

  /** Over any run, a stop is not given up before its delay: as long as its process is stopping, its
      instance is there and no more than its wait ticks have passed, it remains in progress. */
  lemma {:induction false} StopIsNotGivenUp(k: Setup, j: Jobs, ops: seq<Op>, c: Command)
    requires k.kind.Stopping? && c in j.current && c.target.Some? && forall l :: 0 <= l < |ops| ==> LeavesStopping(ops[l], c)
    ensures c in Run(k, j, ops).current
    decreases |ops|
  {
    if ops != [] {
      var n := |ops| - 1;
      StopIsNotGivenUp(k, j, ops[..n], c);
      PerformLeavesStopping(k, Run(k, j, ops[..n]), ops[n], c);
    }
  }

  // ---- The request of a command ----

  /** A stop is requested exactly for the processes that run on the target. */
  lemma {:induction false} StopRequestedExactly(k: Setup, w: World, j: Jobs, c: Command)
    requires k.kind.Stopping? && c.target.Some?
    ensures AfterJob(k, w, j, c) ==
            if w.runningOn(c.process, c.target.value) then
              var d := c.(counter := w.counter(c.target.value));
              j.(current := j.current + [d], started := j.started + [d])
            else j.(dropped := j.dropped + [c])
  {
  }

  /** A start is requested exactly for a stopped process that has, or gets, an instance: the delays
      count from the ticks of this instance. */
  lemma {:induction false} StartRequestedExactly(k: Setup, w: World, j: Jobs, c: Command)
    requires k.kind.Starting?
    ensures var target := if !k.distributed then c.target
                          else if w.place(j.planned, j.current, c).Some? then w.place(j.planned, j.current, c) else c.target;
            var j' := AfterJob(k, w, j, c);
            if w.stopped(c) && target.Some? then
              && |j'.current| == |j.current| + 1 && j'.current[..|j.current|] == j.current && j'.planned == j.planned
              && var d := j'.current[|j.current|];
                 d.target == target && d.counter == w.counter(target.value) && d.process == c.process
                 && d.waitTicks == if k.distributed && w.place(j.planned, j.current, c).Some?
                                   then w.ticks(c.process, target.value) + c.minTicks else c.waitTicks
            else
              && j'.current == j.current && j'.started == j.started
              && (if w.stopped(c) && ErasesPlan(c) then
                    j'.planned == map[] && (j'.stopRequest <==> j.stopRequest || c.onFailure.StopApplication?)
                  else j' == j.(dropped := j.dropped + [c]))
  {
  }

  // ---- The loss of instances ----

  lemma {:induction false} FailuresEraseExactly(k: Setup, j: Jobs, cs: seq<Command>)
    requires k.kind.Starting?
    ensures var j' := AfterFailures(k, j, cs);
            && j'.planned == (if exists c :: c in cs && ErasesPlan(c) then map[] else j.planned)
            && (j'.stopRequest <==> j.stopRequest || exists c :: c in cs && ErasesPlan(c) && c.onFailure.StopApplication?)
    decreases |cs|
  {
    if cs != [] {
      var n := |cs| - 1;
      FailuresEraseExactly(k, j, cs[..n]);
      assert forall c :: c in cs <==> c in cs[..n] || c == cs[n];
    }
  }

  /** The loss of instances is a failure of the starts that are in progress on them, and of nothing
      else: these leave the sequence, and erase the plan by the rules of their processes. */
  lemma {:induction false} LossFailsExactly(k: Setup, j: Jobs, ids: set<Identifier>)
    requires k.kind.Starting?
    ensures var j' := AfterInvalidation(k, j, ids);
            var lost := Kept(j.current, LostOn(ids));
            && (forall c :: c in j'.current <==> c in j.current && !(c.target.Some? && c.target.value in ids))
            && (forall c :: c in lost <==> c in j.current && c.target.Some? && c.target.value in ids)
            && j'.planned == (if exists c :: c in lost && ErasesPlan(c) then map[] else j.planned)
            && (j'.stopRequest <==> j.stopRequest || exists c :: c in lost && ErasesPlan(c) && c.onFailure.StopApplication?)
  {
    KeptFrom(j.current, SafeFrom(ids));
    KeptFrom(j.current, LostOn(ids));
    var lost := Kept(j.current, LostOn(ids));
    FailuresEraseExactly(k, j.(current := Kept(j.current, SafeFrom(ids)), finished := j.finished + lost), lost);
  }
}
