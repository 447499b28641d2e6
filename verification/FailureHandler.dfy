/** The priorities of the running failure strategies (RunningFailureHandler in
    supvisors/strategy.py): the stored jobs depend on the set of requests, not on their order. */
module FailureHandler {

  datatype Process = Process(application: string, name: string)

  datatype Strategy = Continue | RestartProcess | StopApplication | RestartApplication | Shutdown | Restart

  datatype Request = Request(strategy: Strategy, process: Process)

  datatype Jobs = Jobs(
    stopApplications: set<string>,
    restartApplications: set<string>,
    restartProcesses: set<Process>,
    continueProcesses: set<Process>)

  const NO_JOB := Jobs({}, {}, {}, {})

  /** The processes of the application start sequences. */
  type Sequenced = Process -> bool

  // ---- The effect of one request ----

  function AfterStop(j: Jobs, application: string): Jobs {
    Jobs(j.stopApplications + {application},
         j.restartApplications - {application},
         set p | p in j.restartProcesses && p.application != application,
         set p | p in j.continueProcesses && p.application != application)
  }

  function AfterRestart(s: Sequenced, j: Jobs, application: string): Jobs {
    if application in j.stopApplications then j
    else Jobs(j.stopApplications,
              j.restartApplications + {application},
              set p | p in j.restartProcesses && !(p.application == application && s(p)),
              set p | p in j.continueProcesses && !(p.application == application && s(p)))
  }

  /** The job of a process is superseded by the one of its application. */
  predicate Superseded(s: Sequenced, j: Jobs, p: Process) {
    p.application in j.stopApplications || (p.application in j.restartApplications && s(p))
  }

  function AfterRestartProcess(s: Sequenced, j: Jobs, p: Process): Jobs {
    if Superseded(s, j, p) then j
    else j.(restartProcesses := j.restartProcesses + {p}, continueProcesses := j.continueProcesses - {p})
  }

  function AfterContinue(s: Sequenced, j: Jobs, p: Process): Jobs {
    if Superseded(s, j, p) || p in j.restartProcesses then j
    else j.(continueProcesses := j.continueProcesses + {p})
  }

  function AfterRequest(s: Sequenced, j: Jobs, r: Request): Jobs {
    match r.strategy
    case StopApplication => AfterStop(j, r.process.application)
    case RestartApplication => AfterRestart(s, j, r.process.application)
    case RestartProcess => AfterRestartProcess(s, j, r.process)
    case Continue => AfterContinue(s, j, r.process)
    case _ => j
  }

  function AfterRequests(s: Sequenced, rs: seq<Request>): Jobs
    decreases |rs|
  {
    if rs == [] then NO_JOB else AfterRequest(s, AfterRequests(s, rs[..|rs| - 1]), rs[|rs| - 1])
  }

  // ---- The closed form ----

  function Asked(rs: set<Request>, strategy: Strategy): set<Process> {
    set r | r in rs && r.strategy == strategy :: r.process
  }

  function Applications(ps: set<Process>): set<string> {
    set p | p in ps :: p.application
  }

  /** Stop the application, then restart it, then restart the process, then continue; a process out
      of the start sequence is not concerned by the restart of its application. */
  function Priorities(s: Sequenced, rs: set<Request>): Jobs {
    var stop := Applications(Asked(rs, StopApplication));
    var restart := Applications(Asked(rs, RestartApplication)) - stop;
    var superseded := (p: Process) => p.application in stop || (p.application in restart && s(p));
    Jobs(stop, restart,
         set p | p in Asked(rs, RestartProcess) && !superseded(p),
         set p | p in Asked(rs, Continue) && p !in Asked(rs, RestartProcess) && !superseded(p))
  }

  function Requested(rs: seq<Request>): set<Request> {
    set r | r in rs
  }

  lemma {:induction false} AskedWith(rs: set<Request>, r: Request, strategy: Strategy)
    ensures Asked(rs + {r}, strategy) == Asked(rs, strategy) + if r.strategy == strategy then {r.process} else {}
  {
  }

  lemma {:induction false} ApplicationsWith(ps: set<Process>, p: Process)
    ensures Applications(ps + {p}) == Applications(ps) + {p.application}
  {
  }

  lemma {:induction false} StopKeepsPriorities(s: Sequenced, rs: set<Request>, p: Process)
    ensures AfterStop(Priorities(s, rs), p.application) == Priorities(s, rs + {Request(StopApplication, p)})
  {
    var r := Request(StopApplication, p);
    AskedWith(rs, r, StopApplication);
    AskedWith(rs, r, RestartApplication);
    AskedWith(rs, r, RestartProcess);
    AskedWith(rs, r, Continue);
    ApplicationsWith(Asked(rs, StopApplication), p);
    var j, j' := AfterStop(Priorities(s, rs), p.application), Priorities(s, rs + {r});
    assert j.restartApplications == j'.restartApplications;
    assert j.restartProcesses == j'.restartProcesses;
    assert j.continueProcesses == j'.continueProcesses;
  }

  lemma {:induction false} RestartKeepsPriorities(s: Sequenced, rs: set<Request>, p: Process)
    ensures AfterRestart(s, Priorities(s, rs), p.application) == Priorities(s, rs + {Request(RestartApplication, p)})
  {
    var r := Request(RestartApplication, p);
    AskedWith(rs, r, StopApplication);
    AskedWith(rs, r, RestartApplication);
    AskedWith(rs, r, RestartProcess);
    AskedWith(rs, r, Continue);
    ApplicationsWith(Asked(rs, RestartApplication), p);
    var j, j' := AfterRestart(s, Priorities(s, rs), p.application), Priorities(s, rs + {r});
    assert j.restartApplications == j'.restartApplications;
    assert j.restartProcesses == j'.restartProcesses;
    assert j.continueProcesses == j'.continueProcesses;
  }

  lemma {:induction false} RestartProcessKeepsPriorities(s: Sequenced, rs: set<Request>, p: Process)
    ensures AfterRestartProcess(s, Priorities(s, rs), p) == Priorities(s, rs + {Request(RestartProcess, p)})
  {
    var r := Request(RestartProcess, p);
    AskedWith(rs, r, StopApplication);
    AskedWith(rs, r, RestartApplication);
    AskedWith(rs, r, RestartProcess);
    AskedWith(rs, r, Continue);
    var j, j' := AfterRestartProcess(s, Priorities(s, rs), p), Priorities(s, rs + {r});
    assert j.restartProcesses == j'.restartProcesses;
    assert j.continueProcesses == j'.continueProcesses;
  }

  lemma {:induction false} ContinueKeepsPriorities(s: Sequenced, rs: set<Request>, p: Process)
    ensures AfterContinue(s, Priorities(s, rs), p) == Priorities(s, rs + {Request(Continue, p)})
  {
    var r := Request(Continue, p);
    AskedWith(rs, r, StopApplication);
    AskedWith(rs, r, RestartApplication);
    AskedWith(rs, r, RestartProcess);
    AskedWith(rs, r, Continue);
    var j, j' := AfterContinue(s, Priorities(s, rs), p), Priorities(s, rs + {r});
    assert j.continueProcesses == j'.continueProcesses;
  }

  lemma {:induction false} RequestKeepsPriorities(s: Sequenced, rs: set<Request>, r: Request)
    ensures AfterRequest(s, Priorities(s, rs), r) == Priorities(s, rs + {r})
  {
    match r.strategy
    case StopApplication => StopKeepsPriorities(s, rs, r.process);
    case RestartApplication => RestartKeepsPriorities(s, rs, r.process);
    case RestartProcess => RestartProcessKeepsPriorities(s, rs, r.process);
    case Continue => ContinueKeepsPriorities(s, rs, r.process);
    case _ =>
      AskedWith(rs, r, StopApplication);
      AskedWith(rs, r, RestartApplication);
      AskedWith(rs, r, RestartProcess);
      AskedWith(rs, r, Continue);
  }

  /** The jobs after any list of requests are the priorities of the set of these requests. */
  lemma {:induction false} JobsAreThePriorities(s: Sequenced, rs: seq<Request>)
    ensures AfterRequests(s, rs) == Priorities(s, Requested(rs))
    decreases |rs|
  {
    if rs != [] {
      var n := |rs| - 1;
      JobsAreThePriorities(s, rs[..n]);
      RequestKeepsPriorities(s, Requested(rs[..n]), rs[n]);
      assert Requested(rs) == Requested(rs[..n]) + {rs[n]};
    }
  }

  /** Any permutation or repetition of the requests gives the same jobs. */
  lemma {:induction false} OrderIsIrrelevant(s: Sequenced, a: seq<Request>, b: seq<Request>)
    requires Requested(a) == Requested(b)
    ensures AfterRequests(s, a) == AfterRequests(s, b)
  {
    JobsAreThePriorities(s, a);
    JobsAreThePriorities(s, b);
  }

  /** At most one job deals with an application, and at most one with a process, apart from the
      processes out of the start sequence beside the restart of their application. */
  ghost predicate Exclusive(s: Sequenced, j: Jobs) {
    && j.stopApplications !! j.restartApplications
    && j.restartProcesses !! j.continueProcesses
    && (forall p :: p in j.restartProcesses + j.continueProcesses ==> !Superseded(s, j, p))
  }

  lemma {:induction false} JobsAreExclusive(s: Sequenced, rs: seq<Request>)
    ensures Exclusive(s, AfterRequests(s, rs))
  {
    JobsAreThePriorities(s, rs);
  }

  /** Every request is served by a job on its process, or by one that takes precedence over it. */
  lemma {:induction false} RequestsAreServed(s: Sequenced, rs: seq<Request>, r: Request)
    requires r in rs
    ensures var j, p := AfterRequests(s, rs), r.process;
            match r.strategy
            case StopApplication => p.application in j.stopApplications
            case RestartApplication => p.application in j.stopApplications + j.restartApplications
            case RestartProcess => Superseded(s, j, p) || p in j.restartProcesses
            case Continue => Superseded(s, j, p) || p in j.restartProcesses || p in j.continueProcesses
            case _ => true
  {
    JobsAreThePriorities(s, rs);
    assert r in Requested(rs);
    assert r.process in Asked(Requested(rs), r.strategy);
  }

  // ---- Promotion of a process restart ----

  /** The requests that add_default_job makes. */
  function Promoted(s: Sequenced, r: Request, applicationStopped: bool): seq<Request> {
    if r.strategy.RestartProcess? && applicationStopped && s(r.process) then
      [r, Request(RestartApplication, r.process)]
    else [r]
  }

  /** When the application is stopped, the restart of a sequenced process becomes the restart of the
      application, unless the application has to be stopped. */
  lemma {:induction false} PromotionReplaces(s: Sequenced, rs: seq<Request>, p: Process)
    requires s(p)
    ensures var j := AfterRequests(s, rs + Promoted(s, Request(RestartProcess, p), true));
            p !in j.restartProcesses && p.application in j.stopApplications + j.restartApplications
  {
    var r, q := Request(RestartProcess, p), Request(RestartApplication, p);
    var all := rs + [r, q];
    assert all[|all| - 1] == q;
    RequestsAreServed(s, all, q);
    JobsAreExclusive(s, all);
  }

  /** Otherwise nothing is promoted: the job of the default strategy is the only one. */
  lemma {:induction false} PromotedExactly(s: Sequenced, strategy: Strategy, p: Process, applicationStopped: bool)
    ensures Requested(Promoted(s, Request(strategy, p), applicationStopped)) ==
            {Request(strategy, p)} +
            if strategy.RestartProcess? && applicationStopped && s(p) then {Request(RestartApplication, p)} else {}
  {
  }

  /** When the application still runs, only the process is restarted. */
  lemma {:induction false} RunningApplicationIsNotRestarted(s: Sequenced, p: Process)
    ensures AfterRequests(s, Promoted(s, Request(RestartProcess, p), false)) == Jobs({}, {}, {p}, {})
  {
    JobsAreThePriorities(s, [Request(RestartProcess, p)]);
  }

  class RunningFailureHandler {
    const sequenced: Sequenced
    var stopApplicationJobs: set<string>
    var restartApplicationJobs: set<string>
    var restartProcessJobs: set<Process>
    var continueProcessJobs: set<Process>
    /** The requests since the last abort. */
    ghost var requests: seq<Request>

    ghost function View(): Jobs
      reads this
    {
      Jobs(stopApplicationJobs, restartApplicationJobs, restartProcessJobs, continueProcessJobs)
    }

    ghost predicate Valid()
      reads this
    {
      View() == AfterRequests(sequenced, requests)
    }

    constructor (sequenced: Sequenced)
      ensures Valid() && View() == NO_JOB && requests == [] && this.sequenced == sequenced
    {
      this.sequenced := sequenced;
      stopApplicationJobs, restartApplicationJobs, restartProcessJobs, continueProcessJobs := {}, {}, {}, {};
      requests := [];
    }

    method Abort()
      modifies this
      ensures Valid() && View() == NO_JOB && requests == []
    {
      stopApplicationJobs, restartApplicationJobs, restartProcessJobs, continueProcessJobs := {}, {}, {}, {};
      requests := [];
    }

    /** Removes the jobs of the processes of an application, or only those of its start sequence. */
    method Purge(jobs: set<Process>, application: string, all: bool) returns (r: set<Process>)
      ensures r == set p | p in jobs && !(p.application == application && (all || sequenced(p)))
    {
      r := jobs;
      var left := jobs;
      while left != {}
        invariant left <= jobs
        invariant r == set p | p in jobs && (p in left || !(p.application == application && (all || sequenced(p))))
        decreases left
      {
        var p :| p in left;
        left := left - {p};
        if p.application == application && (all || sequenced(p)) {
          r := r - {p};
        }
      }
    }

    method AddStopApplicationJob(application: string)
      modifies this`stopApplicationJobs, this`restartApplicationJobs, this`restartProcessJobs, this`continueProcessJobs
      ensures View() == AfterStop(old(View()), application)
    {
      stopApplicationJobs := stopApplicationJobs + {application};
      restartApplicationJobs := restartApplicationJobs - {application};
      restartProcessJobs := Purge(restartProcessJobs, application, true);
      continueProcessJobs := Purge(continueProcessJobs, application, true);
    }

    method AddRestartApplicationJob(application: string)
      modifies this`restartApplicationJobs, this`restartProcessJobs, this`continueProcessJobs
      ensures View() == AfterRestart(sequenced, old(View()), application)
    {
      if application in stopApplicationJobs {
        return;
      }
      restartApplicationJobs := restartApplicationJobs + {application};
      restartProcessJobs := Purge(restartProcessJobs, application, false);
      continueProcessJobs := Purge(continueProcessJobs, application, false);
    }

    method AddRestartProcessJob(p: Process)
      modifies this`restartProcessJobs, this`continueProcessJobs
      ensures View() == AfterRestartProcess(sequenced, old(View()), p)
    {
      if p.application in stopApplicationJobs {
        return;
      }
      if p.application in restartApplicationJobs && sequenced(p) {
        return;
      }
      restartProcessJobs := restartProcessJobs + {p};
      continueProcessJobs := continueProcessJobs - {p};
    }

    method AddContinueProcessJob(p: Process)
      modifies this`continueProcessJobs
      ensures View() == AfterContinue(sequenced, old(View()), p)
    {
      if p.application in stopApplicationJobs {
        return;
      }
      if p.application in restartApplicationJobs && sequenced(p) {
        return;
      }
      if p in restartProcessJobs {
        return;
      }
      continueProcessJobs := continueProcessJobs + {p};
    }

    method AddJob(strategy: Strategy, p: Process)
      requires Valid()
      modifies this
      ensures Valid() && requests == old(requests) + [Request(strategy, p)]
    {
      match strategy {
        case StopApplication => AddStopApplicationJob(p.application);
        case RestartApplication => AddRestartApplicationJob(p.application);
        case RestartProcess => AddRestartProcessJob(p);
        case Continue => AddContinueProcessJob(p);
        case _ =>
      }
      requests := requests + [Request(strategy, p)];
      assert requests[..|requests| - 1] == old(requests);
    }

    method AddDefaultJob(strategy: Strategy, p: Process, applicationStopped: bool)
      requires Valid()
      modifies this
      ensures Valid() && requests == old(requests) + Promoted(sequenced, Request(strategy, p), applicationStopped)
    {
      AddJob(strategy, p);
      if strategy == RestartProcess && applicationStopped && sequenced(p) {
        AddJob(RestartApplication, p);
      }
    }
  }
}
