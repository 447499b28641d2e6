/** The ApplicationJobs objects of supvisors/commander.py (ApplicationStartJobs and
    ApplicationStopJobs), proved against the functions of module Sequencer. */
module ApplicationJobs {
  import opened SupvisorsTypes
  import opened ProcessStates
  import opened Sequencer

  class ApplicationJobs {
    const setup: Setup
    var planned: Batches
    var current: seq<Command>
    var stopRequest: bool
    ghost var started: seq<Command>
    ghost var dropped: seq<Command>
    ghost var finished: seq<Command>
    ghost var popped: seq<(int, seq<Command>)>

    ghost function View(): Jobs
      reads this
    {
      Jobs(planned, current, stopRequest, started, dropped, finished, popped)
    }

    constructor (setup: Setup, jobs: Batches)
      ensures View() == Stored(jobs) && this.setup == setup
    {
      this.setup, planned, current, stopRequest := setup, jobs, [], false;
      started, dropped, finished, popped := [], [], [], [];
    }

    /** The pickup logic: the lowest number for a start, the highest for a stop. */
    method Pickup() returns (n: int)
      requires planned != map[]
      ensures n == First(setup.kind, planned)
    {
      assert (forall x :: x !in planned) ==> planned == map[];
      n :| n in planned;
      var left := planned.Keys - {n};
      while left != {}
        invariant left <= planned.Keys && n in planned
        invariant forall x :: x in planned && x !in left ==> x == n || Before(setup.kind, n, x)
        decreases left
      {
        assert (forall x :: x !in left) ==> left == {};
        var x :| x in left;
        left := left - {x};
        if Before(setup.kind, x, n) {
          n := x;
        }
      }
    }

    /** The failure of a command: only a required process has an impact on a start sequence. */
    method ProcessFailure(c: Command)
      modifies this
      ensures View() == AfterFailure(setup, old(View()), c)
    {
      if setup.kind == Kind.Starting && c.required {
        if c.onFailure == Abort {
          dropped := dropped + Flat(setup.kind, planned);
          planned := map[];
        } else if c.onFailure == StopApplication {
          dropped := dropped + Flat(setup.kind, planned);
          planned := map[];
          stopRequest := true;
        }
      }
    }

    /** Starts or stops the process of a popped command. */
    method ProcessJob(w: World, c: Command)
      modifies this
      ensures View() == AfterJob(setup, w, old(View()), c)
    {
      var command := c;
      if setup.kind == Kind.Starting {
        if !w.stopped(c) {
          dropped := dropped + [c];
          return;
        }
        if setup.distributed {
          var target := w.place(planned, current, c);
          if target != None {
            command := c.(target := target, waitTicks := w.ticks(c.process, target.value) + c.minTicks);
          }
        }
        if command.target == None {
          dropped := dropped + [c];
          ProcessFailure(c);
          return;
        }
      } else if c.target == None || !w.runningOn(c.process, c.target.value) {
        dropped := dropped + [c];
        return;
      }
      command := command.(counter := w.counter(command.target.value));
      current := current + [command];
      started := started + [command];
    }

    /** Triggers the batches until one leaves a command in progress. */
    method Next(w: World)
      modifies this
      ensures View() == AfterNext(setup, w, old(View()))
      decreases |planned|
    {
      if current == [] && planned != map[] {
        var n := Pickup();
        var group := planned[n];
        SmallerWithout(planned, n);
        ghost var total := |planned|;
        planned := planned - {n};
        popped := popped + [(n, group)];
        ghost var start := View();
        var i := 0;
        while i < |group|
          invariant 0 <= i <= |group| && |planned| < total
          invariant AfterGroup(setup, w, View(), group[i..]) == AfterGroup(setup, w, start, group)
        {
          assert group[i..][0] == group[i] && group[i..][1..] == group[i + 1..];
          ProcessJob(w, group[i]);
          i := i + 1;
        }
        Next(w);
      }
    }

    /** Removes the first command equal to `c`, as the list removal does. */
    method Remove(c: Command, ghost i: nat)
      requires i < |current| && current[i] == c && c !in current[..i]
      modifies this`current
      ensures current == old(current)[..i] + old(current)[i + 1..]
    {
      var n := 0;
      while n < |current| && current[n] != c
        invariant 0 <= n <= i
      {
        n := n + 1;
      }
      assert n == i;
      current := current[..n] + current[n + 1..];
    }

    /** Where the scan of a copy of the current commands stands. */
    ghost predicate Scanned(copy: seq<Command>, i: nat, keep: Command -> bool, drop: Command -> bool, before: seq<Command>)
      requires i <= |copy|
      reads this
    {
      current == Kept(copy[..i], keep) + copy[i..] && finished == before + Kept(copy[..i], drop)
    }

    /** One step of the scan: the command is removed from the current ones, or not. */
    method Scan(ghost copy: seq<Command>, c: Command, remove: bool, ghost keep: Command -> bool, ghost drop: Command -> bool,
                ghost i: nat, ghost before: seq<Command>)
      requires i < |copy| && copy[i] == c && remove == drop(c) == !keep(c)
      requires Scanned(copy, i, keep, drop, before)
      modifies this`current, this`finished
      ensures Scanned(copy, i + 1, keep, drop, before)
    {
      KeptNext(copy, i, keep);
      KeptNext(copy, i, drop);
      if remove {
        KeptSatisfies(copy[..i], keep);
        ghost var n := |Kept(copy[..i], keep)|;
        assert current[..n] == Kept(copy[..i], keep);
        Remove(c, n);
        finished := finished + [c];
      }
    }

    /** The periodic check: commands that are too late, or already done, are removed. */
    method Check(w: World)
      modifies this
      ensures View() == AfterCheck(setup, w, old(View()))
    {
      var copy := current;
      ghost var keep, drop := Waits(setup, w), Done(setup, w);
      var i := 0;
      while i < |copy|
        invariant 0 <= i <= |copy| && Scanned(copy, i, keep, drop, old(finished))
        invariant View() == old(View()).(current := current, finished := finished)
      {
        Scan(copy, copy[i], Timeout(setup, w, copy[i]) != Waiting, keep, drop, i, old(finished));
        i := i + 1;
      }
      assert copy[..i] == copy;
      Next(w);
    }

    method OnEvent(w: World, process: string, from: Identifier)
      modifies this
      ensures View() == AfterEvent(setup, w, old(View()), process, from)
    {
      var i := Find(current, process, Some(from));
      if i < |current| {
        var c := current[i];
        var r := Event(setup, w, c);
        if r.0 == Waiting {
          current := current[i := r.1];
        } else {
          current := current[..i] + current[i + 1..];
          finished := finished + [c];
          if r.0 == Progress.Failed {
            ProcessFailure(c);
          }
          Next(w);
        }
      }
    }

    /** Removes a command if its instance is lost, which is a failure. */
    method LoseIf(ghost copy: seq<Command>, c: Command, ids: set<Identifier>, ghost i: nat, ghost start: Jobs)
      requires i < |copy| && copy[i] == c
      requires Scanned(copy, i, SafeFrom(ids), LostOn(ids), start.finished)
      requires View() == AfterFailures(setup, start, Kept(copy[..i], LostOn(ids))).(current := current, finished := finished)
      modifies this
      ensures Scanned(copy, i + 1, SafeFrom(ids), LostOn(ids), start.finished)
      ensures View() == AfterFailures(setup, start, Kept(copy[..i + 1], LostOn(ids))).(current := current, finished := finished)
    {
      ghost var lost := Kept(copy[..i], LostOn(ids));
      ghost var before := AfterFailures(setup, start, lost);
      KeptNext(copy, i, LostOn(ids));
      var isLost := c.target != None && c.target.value in ids;
      Scan(copy, c, isLost, SafeFrom(ids), LostOn(ids), i, start.finished);
      if isLost {
        FailureIgnoresProgress(setup, before, c, current, finished);
        OneMoreFailure(setup, start, lost, c);
        ProcessFailure(c);
      } else {
        assert lost + [] == lost;
      }
    }

    /** Clears the requests pending on lost instances. */
    method ClearInvalidated(ids: set<Identifier>)
      modifies this
      ensures View() == AfterInvalidation(setup, old(View()), ids)
    {
      var copy := current;
      ghost var start := View();
      var i := 0;
      while i < |copy|
        invariant 0 <= i <= |copy| && Scanned(copy, i, SafeFrom(ids), LostOn(ids), start.finished)
        invariant View() == AfterFailures(setup, start, Kept(copy[..i], LostOn(ids))).(current := current, finished := finished)
      {
        LoseIf(copy, copy[i], ids, i, start);
        i := i + 1;
      }
      assert copy[..i] == copy && copy[i..] == [];
      assert current == Kept(copy, SafeFrom(ids));
      FailuresIgnoreProgress(setup, start, Kept(copy, LostOn(ids)), current, finished);
    }

    /** The processes of `failed` that the sequence deals with, or has just dealt with, are not
        left to the running failure handler. */
    method OnInstancesInvalidation(ids: set<Identifier>, failed: set<string>) returns (left: set<string>)
      modifies this
      ensures View() == AfterInvalidation(setup, old(View()), ids)
      ensures left == set p | p in failed
                              && (forall i :: 0 <= i < |old(current)| && LostOn(ids)(old(current)[i]) ==> old(current)[i].process != p)
                              && (forall n, i :: n in planned && 0 <= i < |planned[n]| ==> planned[n][i].process != p)
    {
      var lost := set c | c in current && LostOn(ids)(c) :: c.process;
      ClearInvalidated(ids);
      var considered := set n, i | n in planned && 0 <= i < |planned[n]| :: planned[n][i].process;
      left := failed - lost - considered;
    }

    /** Adds a command, unless it is already planned or in progress. */
    method AddCommand(w: World, n: int, c: Command)
      modifies this`planned
      ensures View() == AfterAdd(setup, w, old(View()), n, c)
    {
      var i := Find(current, c.process, c.target);
      if i < |current| {
        assert Clashes(c, current[i]);
        return;
      }
      var left := planned.Keys;
      while left != {}
        invariant left <= planned.Keys
        invariant forall m, l :: m in planned && m !in left && 0 <= l < |planned[m]| ==> !Clashes(c, planned[m][l])
        decreases left
      {
        assert (forall m :: m !in left) ==> left == {};
        var m :| m in left;
        left := left - {m};
        var l := Find(planned[m], c.process, c.target);
        if l < |planned[m]| {
          assert Clashes(c, planned[m][l]);
          return;
        }
      }
      var command := c;
      if setup.kind == Kind.Starting && !setup.distributed {
        var target := w.place(planned, current, c);
        if target != None {
          command := c.(target := target, waitTicks := w.ticks(c.process, target.value) + c.minTicks);
        }
      }
      planned := planned[n := (if n in planned then planned[n] else []) + [command]];
    }
  }

  lemma {:induction false} KeptSatisfies(cs: seq<Command>, keep: Command -> bool)
    ensures forall i :: 0 <= i < |Kept(cs, keep)| ==> keep(Kept(cs, keep)[i])
    decreases |cs|
  {
    if cs != [] {
      KeptSatisfies(cs[..|cs| - 1], keep);
    }
  }

  lemma {:induction false} FailuresIgnoreProgress(k: Setup, j: Jobs, cs: seq<Command>, current: seq<Command>, finished: seq<Command>)
    ensures AfterFailures(k, j.(current := current, finished := finished), cs) ==
            AfterFailures(k, j, cs).(current := current, finished := finished)
    decreases |cs|
  {
    if cs != [] {
      FailuresIgnoreProgress(k, j, cs[..|cs| - 1], current, finished);
    }
  }

  lemma {:induction false} FailureIgnoresProgress(k: Setup, j: Jobs, c: Command, current: seq<Command>, finished: seq<Command>)
    ensures AfterFailure(k, j.(current := current, finished := finished), c) ==
            AfterFailure(k, j, c).(current := current, finished := finished)
  {
  }

  lemma {:induction false} KeptNext(cs: seq<Command>, i: nat, keep: Command -> bool)
    requires i < |cs|
    ensures Kept(cs[..i + 1], keep) == Kept(cs[..i], keep) + if keep(cs[i]) then [cs[i]] else []
    ensures Kept(cs[..i + 1], keep) + cs[i + 1..] == Kept(cs[..i], keep) + if keep(cs[i]) then cs[i..] else cs[i + 1..]
  {
    assert cs[..i + 1][..i] == cs[..i];
    assert cs[i..] == [cs[i]] + cs[i + 1..];
  }

  lemma {:induction false} OneMoreFailure(k: Setup, j: Jobs, cs: seq<Command>, c: Command)
    ensures AfterFailures(k, j, cs + [c]) == AfterFailure(k, AfterFailures(k, j, cs), c)
  {
    assert (cs + [c])[..|cs|] == cs;
  }
}
