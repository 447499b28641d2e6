/** The choice of an instance under a load limit of 100 per node: starting strategies of
    supvisors/strategy.py, and their use by the start sequences of supvisors/commander.py. */
module Placement {
  import opened SupvisorsTypes
  import opened StableSort

  type Machine = string

  /** The instances of each node, the node of each instance, the load of the processes that run
      on each instance, and the RUNNING instances. */
  datatype Cluster = Cluster(
    nodes: map<Machine, seq<Identifier>>,
    machineOf: Identifier -> Machine,
    load: Identifier -> nat,
    running: set<Identifier>,
    local: Identifier)
  {
    /** The mapper gives consistent machine identifiers, and the node of every running instance. */
    ghost predicate Valid() {
      && (forall m, i :: m in nodes && i in nodes[m] ==> machineOf(i) == m)
      && (forall i :: i in running ==> Known(i))
    }

    predicate Known(i: Identifier) {
      machineOf(i) in nodes && i in nodes[machineOf(i)]
    }
  }

  datatype Strategy = Config | LessLoaded | MostLoaded | Local | LessLoadedNode | MostLoadedNode

  /** The expected load of a process that is requested to start and that is still stopped. */
  datatype Request = Request(target: Identifier, load: nat)

  type LoadMap = map<Identifier, nat>

  // ---- Load maps ----

  function InstanceRequests(pending: seq<Request>, i: Identifier): nat
    decreases |pending|
  {
    if pending == [] then 0
    else
      var last := pending[|pending| - 1];
      InstanceRequests(pending[..|pending| - 1], i) + if last.target == i then last.load else 0
  }

  /** The requested load per instance. */
  function LoadRequests(pending: seq<Request>): LoadMap
    decreases |pending|
  {
    if pending == [] then map[]
    else
      var before, last := LoadRequests(pending[..|pending| - 1]), pending[|pending| - 1];
      before[last.target := (if last.target in before then before[last.target] else 0) + last.load]
  }

  function Part(c: Cluster, m: Machine, i: Identifier, load: nat): nat {
    if c.machineOf(i) == m then load else 0
  }

  /** The part of a load map that belongs to a node. */
  ghost function NodePart(c: Cluster, m: Machine, loads: LoadMap): nat
    decreases |loads|
  {
    if loads == map[] then 0
    else
      var i :| i in loads;
      assert |loads - {i}| < |loads| by { assert (loads - {i}).Keys == loads.Keys - {i}; }
      Part(c, m, i, loads[i]) + NodePart(c, m, loads - {i})
  }

  lemma {:induction false} NodePartAt(c: Cluster, m: Machine, loads: LoadMap, i: Identifier)
    requires i in loads
    ensures NodePart(c, m, loads) == Part(c, m, i, loads[i]) + NodePart(c, m, loads - {i})
    decreases |loads|
  {
    var x :| x in loads && NodePart(c, m, loads) == Part(c, m, x, loads[x]) + NodePart(c, m, loads - {x});
    if x != i {
      assert (loads - {x}).Keys == loads.Keys - {x};
      NodePartAt(c, m, loads - {x}, i);
      assert (loads - {i}).Keys == loads.Keys - {i};
      NodePartAt(c, m, loads - {i}, x);
      assert loads - {x} - {i} == loads - {i} - {x};
    }
  }

  /** The load requested on a node. */
  function NodeRequests(c: Cluster, m: Machine, pending: seq<Request>): nat
    decreases |pending|
  {
    if pending == [] then 0
    else
      var last := pending[|pending| - 1];
      NodeRequests(c, m, pending[..|pending| - 1]) + Part(c, m, last.target, last.load)
  }

  /** Summing by instance and then by node is summing by node. */
  lemma {:induction false} RequestsByNode(c: Cluster, m: Machine, pending: seq<Request>)
    ensures NodePart(c, m, LoadRequests(pending)) == NodeRequests(c, m, pending)
    decreases |pending|
  {
    if pending != [] {
      var n := |pending| - 1;
      var before, after, i := LoadRequests(pending[..n]), LoadRequests(pending), pending[n].target;
      RequestsByNode(c, m, pending[..n]);
      NodePartAt(c, m, after, i);
      assert after - {i} == before - {i};
      if i in before {
        NodePartAt(c, m, before, i);
      } else {
        assert before - {i} == before;
      }
    }
  }

  lemma {:induction false} SmallerWithout(loads: LoadMap, i: Identifier)
    requires i in loads
    ensures |loads - {i}| < |loads|
  {
    assert (loads - {i}).Keys == loads.Keys - {i};
  }

  ghost predicate Accumulated(c: Cluster, requests: LoadMap, left: LoadMap, r: map<Machine, nat>) {
    r.Keys == c.nodes.Keys && forall m :: m in r ==> r[m] + NodePart(c, m, left) == NodePart(c, m, requests)
  }

  lemma {:induction false} AccumulateOne(c: Cluster, requests: LoadMap, left: LoadMap, r: map<Machine, nat>, i: Identifier)
    requires Accumulated(c, requests, left, r) && i in left && c.machineOf(i) in r
    ensures Accumulated(c, requests, left - {i}, r[c.machineOf(i) := r[c.machineOf(i)] + left[i]])
  {
    var m' := c.machineOf(i);
    var r' := r[m' := r[m'] + left[i]];
    forall m | m in r' ensures r'[m] + NodePart(c, m, left - {i}) == NodePart(c, m, requests) {
      NodePartAt(c, m, left, i);
      assert r[m] + NodePart(c, m, left) == NodePart(c, m, requests);
    }
  }

  /** The accumulation of the requested loads by node. */
  method GetNodeLoadRequestMap(c: Cluster, requests: LoadMap) returns (r: map<Machine, nat>)
    requires forall i :: i in requests ==> c.machineOf(i) in c.nodes
    ensures r.Keys == c.nodes.Keys && forall m :: m in r ==> r[m] == NodePart(c, m, requests)
  {
    r := map m | m in c.nodes :: 0;
    var left := requests;
    while left != map[]
      invariant (forall i :: i in left ==> i in requests) && Accumulated(c, requests, left, r)
      decreases |left|
    {
      var i :| i in left;
      SmallerWithout(left, i);
      AccumulateOne(c, requests, left, r, i);
      r := r[c.machineOf(i) := r[c.machineOf(i)] + left[i]];
      left := left - {i};
    }
  }

  function SumLoads(c: Cluster, ids: seq<Identifier>): nat
    decreases |ids|
  {
    if ids == [] then 0 else SumLoads(c, ids[..|ids| - 1]) + c.load(ids[|ids| - 1])
  }

  /** The load of the processes that run on a node. */
  function NodeLoad(c: Cluster, m: Machine): nat {
    if m in c.nodes then SumLoads(c, c.nodes[m]) else 0
  }

  // ---- Strategies ----

  /** Running and requested loads of a node. */
  ghost function NodeTotal(c: Cluster, m: Machine, pending: seq<Request>): nat {
    NodeLoad(c, m) + NodeRequests(c, m, pending)
  }

  /** The maps that the choice of an instance is based on. */
  datatype Details = Details(requests: LoadMap, nodeLoads: map<Machine, nat>, nodeRequests: map<Machine, nat>)

  /** The report on one candidate: node load, instance load, and if its node supports more. */
  datatype Report = Report(id: Identifier, valid: bool, nodeLoad: int, instanceLoad: int)

  function IsLoadingValid(c: Cluster, i: Identifier, expected: nat, d: Details): Report {
    var m := c.machineOf(i);
    var nodeLoad := (if m in d.nodeLoads then d.nodeLoads[m] else 0) + (if m in d.nodeRequests then d.nodeRequests[m] else 0);
    var instanceLoad := c.load(i) + if i in d.requests then d.requests[i] else 0;
    Report(i, nodeLoad + expected <= 100, nodeLoad, instanceLoad)
  }

  /** The first occurrences, as the keys of a dictionary. */
  function Unique(ids: seq<Identifier>): (r: seq<Identifier>)
    ensures forall i :: i in r <==> i in ids
    ensures forall a, b :: 0 <= a < b < |r| ==> r[a] != r[b]
    decreases |ids|
  {
    if ids == [] then []
    else
      var n := |ids| - 1;
      assert forall i :: i in ids <==> i in ids[..n] || i == ids[n];
      Unique(ids[..n]) + if ids[n] in ids[..n] then [] else [ids[n]]
  }

  function Reports(c: Cluster, ids: seq<Identifier>, expected: nat, d: Details): (r: seq<Report>)
    ensures |r| == |ids| && forall l :: 0 <= l < |r| ==> r[l] == IsLoadingValid(c, ids[l], expected, d)
  {
    seq(|ids|, l requires 0 <= l < |ids| => IsLoadingValid(c, ids[l], expected, d))
  }

  function ValidOnes(rs: seq<Report>): (r: seq<Report>)
    ensures forall x :: x in r <==> x in rs && x.valid
    decreases |rs|
  {
    if rs == [] then []
    else
      var n := |rs| - 1;
      assert forall x :: x in rs <==> x in rs[..n] || x == rs[n];
      ValidOnes(rs[..n]) + if rs[n].valid then [rs[n]] else []
  }

  function ByInstance(rs: seq<Report>): (r: seq<Ranked<Identifier>>)
    ensures |r| == |rs| && forall l :: 0 <= l < |r| ==> r[l] == Ranked(rs[l].id, rs[l].instanceLoad, rs[l].nodeLoad)
  {
    seq(|rs|, l requires 0 <= l < |rs| => Ranked(rs[l].id, rs[l].instanceLoad, rs[l].nodeLoad))
  }

  function ByNode(rs: seq<Report>): (r: seq<Ranked<Identifier>>)
    ensures |r| == |rs| && forall l :: 0 <= l < |r| ==> r[l] == Ranked(rs[l].id, rs[l].nodeLoad, rs[l].instanceLoad)
  {
    seq(|rs|, l requires 0 <= l < |rs| => Ranked(rs[l].id, rs[l].nodeLoad, rs[l].instanceLoad))
  }

  /** The candidate that a strategy chooses. */
  function Choose(c: Cluster, s: Strategy, ids: seq<Identifier>, expected: nat, d: Details): Option<Identifier> {
    var valid := ValidOnes(Reports(c, Unique(ids), expected, d));
    match s
    case Config => if valid == [] then None else Some(valid[0].id)
    case LessLoaded => if valid == [] then None else Some(Sorted(ByInstance(valid))[0].value)
    case MostLoaded => if valid == [] then None else Some(Sorted(ByInstance(valid))[|valid| - 1].value)
    case LessLoadedNode => if valid == [] then None else Some(Sorted(ByNode(valid))[0].value)
    case MostLoadedNode => if valid == [] then None else Some(Sorted(ByNode(valid))[|valid| - 1].value)
    case Local =>
      if c.local in ids && IsLoadingValid(c, c.local, expected, d).valid then Some(c.local) else None
  }

  /** The node maps are only read through their sum. */
  lemma {:induction false} SwapIsHarmless(c: Cluster, s: Strategy, ids: seq<Identifier>, expected: nat, d: Details, d': Details)
    requires d' == d.(nodeLoads := d.nodeRequests, nodeRequests := d.nodeLoads)
    ensures Choose(c, s, ids, expected, d) == Choose(c, s, ids, expected, d')
  {
    assert Reports(c, Unique(ids), expected, d) == Reports(c, Unique(ids), expected, d');
  }

  function RunningOnes(c: Cluster, ids: seq<Identifier>): (r: seq<Identifier>)
    ensures forall i :: i in r <==> i in ids && i in c.running
    decreases |ids|
  {
    if ids == [] then []
    else
      var n := |ids| - 1;
      assert forall i :: i in ids <==> i in ids[..n] || i == ids[n];
      RunningOnes(c, ids[..n]) + if ids[n] in c.running then [ids[n]] else []
  }

  ghost function DetailsOf(c: Cluster, requests: LoadMap): Details {
    Details(requests, map m | m in c.nodes :: NodeLoad(c, m), map m | m in c.nodes :: NodePart(c, m, requests))
  }

  ghost function GetInstance(c: Cluster, s: Strategy, ids: seq<Identifier>, expected: nat, requests: LoadMap): Option<Identifier> {
    Choose(c, s, RunningOnes(c, ids), expected, DetailsOf(c, requests))
  }

  /** get_supvisors_instance. The two node maps are given in the other order than the one in which
      they are read, but only their sum matters. */
  method GetSupvisorsInstance(c: Cluster, s: Strategy, ids: seq<Identifier>, expected: nat, requests: LoadMap)
    returns (r: Option<Identifier>)
    requires forall i :: i in requests ==> c.machineOf(i) in c.nodes
    ensures r == GetInstance(c, s, ids, expected, requests)
  {
    var candidates := RunningOnes(c, ids);
    if candidates == [] {
      return None;
    }
    var nodeRequests := GetNodeLoadRequestMap(c, requests);
    assert nodeRequests == DetailsOf(c, requests).nodeRequests;
    var nodeLoads := map m | m in c.nodes :: NodeLoad(c, m);
    var swapped := Details(requests, nodeRequests, nodeLoads);
    SwapIsHarmless(c, s, candidates, expected, DetailsOf(c, requests), swapped);
    r := Choose(c, s, candidates, expected, swapped);
  }

  // ---- What the strategies promise ----

  /** The load that the instance can be chosen with. */
  ghost predicate Supports(c: Cluster, i: Identifier, expected: nat, pending: seq<Request>) {
    NodeTotal(c, c.machineOf(i), pending) + expected <= 100
  }

  ghost function InstanceTotal(c: Cluster, i: Identifier, pending: seq<Request>): nat {
    c.load(i) + InstanceRequests(pending, i)
  }

  lemma {:induction false} RequestsByInstance(pending: seq<Request>, i: Identifier)
    ensures InstanceRequests(pending, i) == if i in LoadRequests(pending) then LoadRequests(pending)[i] else 0
    decreases |pending|
  {
    if pending != [] {
      RequestsByInstance(pending[..|pending| - 1], i);
    }
  }

  /** The report on a candidate is about the loads of its node and of itself, requests included. */
  lemma {:induction false} ReportMeans(c: Cluster, i: Identifier, expected: nat, pending: seq<Request>)
    requires c.Known(i)
    ensures var r := IsLoadingValid(c, i, expected, DetailsOf(c, LoadRequests(pending)));
            && r.nodeLoad == NodeTotal(c, c.machineOf(i), pending)
            && r.instanceLoad == InstanceTotal(c, i, pending)
            && (r.valid <==> Supports(c, i, expected, pending))
  {
    RequestsByNode(c, c.machineOf(i), pending);
    RequestsByInstance(pending, i);
  }

  ghost function Placed(c: Cluster, s: Strategy, ids: seq<Identifier>, expected: nat, pending: seq<Request>): Option<Identifier> {
    GetInstance(c, s, ids, expected, LoadRequests(pending))
  }

  /** The reports that a choice is made of. */
  ghost function ValidReports(c: Cluster, ids: seq<Identifier>, expected: nat, pending: seq<Request>): seq<Report> {
    ValidOnes(Reports(c, Unique(RunningOnes(c, ids)), expected, DetailsOf(c, LoadRequests(pending))))
  }

  /** They are about the running candidates whose node supports the load. */
  lemma {:induction false} ValidReportsMean(c: Cluster, ids: seq<Identifier>, expected: nat, pending: seq<Request>)
    requires c.Valid()
    ensures forall x :: x in ValidReports(c, ids, expected, pending) ==>
              x.id in ids && x.id in c.running && Supports(c, x.id, expected, pending)
    ensures forall i :: i in ids && i in c.running && Supports(c, i, expected, pending) ==>
              IsLoadingValid(c, i, expected, DetailsOf(c, LoadRequests(pending))) in ValidReports(c, ids, expected, pending)
  {
    var d := DetailsOf(c, LoadRequests(pending));
    var candidates := Unique(RunningOnes(c, ids));
    var reports := Reports(c, candidates, expected, d);
    forall x | x in ValidOnes(reports) ensures x.id in ids && x.id in c.running && Supports(c, x.id, expected, pending) {
      var l :| 0 <= l < |candidates| && reports[l] == x;
      assert candidates[l] in candidates;
      ReportMeans(c, candidates[l], expected, pending);
    }
    forall i | i in ids && i in c.running && Supports(c, i, expected, pending)
      ensures IsLoadingValid(c, i, expected, d) in ValidOnes(reports)
    {
      ReportMeans(c, i, expected, pending);
      assert i in candidates;
      var l :| 0 <= l < |candidates| && candidates[l] == i;
      assert reports[l] in reports;
    }
  }

  /** Out of the local strategy, the choice is one of the valid reports. */
  lemma {:induction false} ChosenIsValid(c: Cluster, s: Strategy, ids: seq<Identifier>, expected: nat, pending: seq<Request>)
    requires !s.Local?
    ensures var valid, r := ValidReports(c, ids, expected, pending), Placed(c, s, ids, expected, pending);
            if valid == [] then r.None? else r.Some? && exists i :: 0 <= i < |valid| && r.value == valid[i].id
  {
    var valid := ValidReports(c, ids, expected, pending);
    if valid != [] {
      match s
      case Config =>
      case LessLoaded => var i := SortedFirst(ByInstance(valid));
      case MostLoaded => var i := SortedLast(ByInstance(valid));
      case LessLoadedNode => var i := SortedFirst(ByNode(valid));
      case MostLoadedNode => var i := SortedLast(ByNode(valid));
    }
  }

  /** A strategy chooses a running candidate whose node can support the load, and fails only when
      there is none; the local strategy only considers the local instance. */
  lemma {:induction false} PlacedOrNone(c: Cluster, s: Strategy, ids: seq<Identifier>, expected: nat, pending: seq<Request>)
    requires c.Valid()
    ensures var r := Placed(c, s, ids, expected, pending);
            && (r.Some? ==> r.value in ids && r.value in c.running && Supports(c, r.value, expected, pending))
            && (r.None? && !s.Local? ==> forall i :: i in ids && i in c.running ==> !Supports(c, i, expected, pending))
            && (s.Local? ==> (r == Some(c.local) <==>
                                c.local in ids && c.local in c.running && Supports(c, c.local, expected, pending)))
            && (s.Local? && r.Some? ==> r.value == c.local)
  {
    if s.Local? {
      if c.local in c.running {
        ReportMeans(c, c.local, expected, pending);
      }
    } else {
      ValidReportsMean(c, ids, expected, pending);
      ChosenIsValid(c, s, ids, expected, pending);
    }
  }

  /** The load that a strategy compares first: of the instance, or of the node. */
  ghost function FirstLoad(c: Cluster, s: Strategy, i: Identifier, pending: seq<Request>): nat {
    if s.LessLoaded? || s.MostLoaded? then InstanceTotal(c, i, pending) else NodeTotal(c, c.machineOf(i), pending)
  }

  /** And the other one. */
  ghost function SecondLoad(c: Cluster, s: Strategy, i: Identifier, pending: seq<Request>): nat {
    if s.LessLoaded? || s.MostLoaded? then NodeTotal(c, c.machineOf(i), pending) else InstanceTotal(c, i, pending)
  }

  /** No load of `a` exceeds the one of `b`, the first load deciding. */
  ghost predicate NotMoreLoaded(c: Cluster, s: Strategy, a: Identifier, b: Identifier, pending: seq<Request>) {
    || FirstLoad(c, s, a, pending) < FirstLoad(c, s, b, pending)
    || (FirstLoad(c, s, a, pending) == FirstLoad(c, s, b, pending) && SecondLoad(c, s, a, pending) <= SecondLoad(c, s, b, pending))
  }

  /** The chosen report is the first or the last one of the sort. */
  lemma {:induction false} ChosenReport(c: Cluster, s: Strategy, ids: seq<Identifier>, expected: nat, pending: seq<Request>) returns (n: nat)
    requires !s.Local? && !s.Config? && ValidReports(c, ids, expected, pending) != []
    ensures var valid := ValidReports(c, ids, expected, pending);
            var ranked := if s.LessLoaded? || s.MostLoaded? then ByInstance(valid) else ByNode(valid);
            && n < |valid| && Placed(c, s, ids, expected, pending) == Some(valid[n].id)
            && (s.LessLoaded? || s.LessLoadedNode? ==> IsFirstMin(ranked, n))
            && (s.MostLoaded? || s.MostLoadedNode? ==> IsLastMax(ranked, n))
  {
    var valid := ValidReports(c, ids, expected, pending);
    var ranked := if s.LessLoaded? || s.MostLoaded? then ByInstance(valid) else ByNode(valid);
    if s.LessLoaded? || s.LessLoadedNode? {
      n := SortedFirst(ranked);
    } else {
      n := SortedLast(ranked);
    }
  }

  lemma {:induction false} LoadsOfReport(c: Cluster, s: Strategy, ids: seq<Identifier>, expected: nat, pending: seq<Request>, n: nat)
    requires c.Valid() && n < |ValidReports(c, ids, expected, pending)|
    ensures var valid := ValidReports(c, ids, expected, pending);
            var ranked := if s.LessLoaded? || s.MostLoaded? then ByInstance(valid) else ByNode(valid);
            ranked[n].first == FirstLoad(c, s, valid[n].id, pending) && ranked[n].second == SecondLoad(c, s, valid[n].id, pending)
  {
    var valid := ValidReports(c, ids, expected, pending);
    ValidIsReport(c, ids, expected, pending, n);
    ReportMeans(c, valid[n].id, expected, pending);
    RankedByLoads(c, s, valid[n], pending);
  }

  /** The least (or most) loaded strategies choose an instance whose loads are the least (or the
      greatest) among all running candidates whose node supports the load. */
  lemma {:induction false} ExtremeLoad(c: Cluster, s: Strategy, ids: seq<Identifier>, expected: nat, pending: seq<Request>, i: Identifier)
    requires c.Valid() && !s.Local? && !s.Config?
    requires i in ids && i in c.running && Supports(c, i, expected, pending)
    ensures var r := Placed(c, s, ids, expected, pending);
            && r.Some?
            && (s.LessLoaded? || s.LessLoadedNode? ==> NotMoreLoaded(c, s, r.value, i, pending))
            && (s.MostLoaded? || s.MostLoadedNode? ==> NotMoreLoaded(c, s, i, r.value, pending))
  {
    var l := ValidIsReported(c, ids, expected, pending, i);
    var n := ChosenReport(c, s, ids, expected, pending);
    LoadsOfReport(c, s, ids, expected, pending, n);
    LoadsOfReport(c, s, ids, expected, pending, l);
  }

  lemma {:induction false} ValidIsReported(c: Cluster, ids: seq<Identifier>, expected: nat, pending: seq<Request>, i: Identifier) returns (l: nat)
    requires c.Valid() && i in ids && i in c.running && Supports(c, i, expected, pending)
    ensures l < |ValidReports(c, ids, expected, pending)| && ValidReports(c, ids, expected, pending)[l].id == i
  {
    var valid := ValidReports(c, ids, expected, pending);
    ValidReportsMean(c, ids, expected, pending);
    l :| 0 <= l < |valid| && valid[l] == IsLoadingValid(c, i, expected, DetailsOf(c, LoadRequests(pending)));
  }

  lemma {:induction false} RankedByLoads(c: Cluster, s: Strategy, x: Report, pending: seq<Request>)
    requires x.nodeLoad == NodeTotal(c, c.machineOf(x.id), pending) && x.instanceLoad == InstanceTotal(c, x.id, pending)
    ensures var r := if s.LessLoaded? || s.MostLoaded? then Ranked(x.id, x.instanceLoad, x.nodeLoad) else Ranked(x.id, x.nodeLoad, x.instanceLoad);
            r.first == FirstLoad(c, s, x.id, pending) && r.second == SecondLoad(c, s, x.id, pending)
  {
  }

  // ---- The order of the candidates ----

  lemma {:induction false} UniqueAppend(ids: seq<Identifier>, i: Identifier)
    ensures Unique(ids + [i]) == Unique(ids) + if i in ids then [] else [i]
  {
    assert (ids + [i])[..|ids|] == ids;
  }

  lemma {:induction false} ReportsAppend(c: Cluster, ids: seq<Identifier>, i: Identifier, expected: nat, d: Details)
    ensures Reports(c, ids + [i], expected, d) == Reports(c, ids, expected, d) + [IsLoadingValid(c, i, expected, d)]
  {
  }

  lemma {:induction false} ValidAppend(rs: seq<Report>, x: Report)
    ensures ValidOnes(rs + [x]) == ValidOnes(rs) + if x.valid then [x] else []
  {
    assert (rs + [x])[..|rs|] == rs;
  }

  lemma {:induction false} RunningAppend(c: Cluster, ids: seq<Identifier>, i: Identifier)
    ensures RunningOnes(c, ids + [i]) == RunningOnes(c, ids) + if i in c.running then [i] else []
  {
    assert (ids + [i])[..|ids|] == ids;
  }

  lemma {:induction false} CandidatesAppend(c: Cluster, ids: seq<Identifier>, i: Identifier)
    ensures Unique(RunningOnes(c, ids + [i])) == Unique(RunningOnes(c, ids)) + if i in c.running && i !in ids then [i] else []
  {
    RunningAppend(c, ids, i);
    if i in c.running {
      UniqueAppend(RunningOnes(c, ids), i);
    } else {
      assert RunningOnes(c, ids) + [] == RunningOnes(c, ids);
    }
  }

  /** The reports of the candidates come in their order. */
  lemma {:induction false} ReportsInOrder(c: Cluster, ids: seq<Identifier>, i: Identifier, expected: nat, pending: seq<Request>)
    ensures var x := IsLoadingValid(c, i, expected, DetailsOf(c, LoadRequests(pending)));
            ValidReports(c, ids + [i], expected, pending) ==
            ValidReports(c, ids, expected, pending) + if i in c.running && i !in ids && x.valid then [x] else []
  {
    var d := DetailsOf(c, LoadRequests(pending));
    var before, x := Unique(RunningOnes(c, ids)), IsLoadingValid(c, i, expected, d);
    CandidatesAppend(c, ids, i);
    if i in c.running && i !in ids {
      ReportsAppend(c, before, i, expected, d);
      ValidAppend(Reports(c, before, expected, d), x);
    } else {
      assert before + [] == before;
    }
  }

  lemma {:induction false} ConfigTakesHead(c: Cluster, ids: seq<Identifier>, expected: nat, pending: seq<Request>)
    ensures var valid := ValidReports(c, ids, expected, pending);
            Placed(c, Config, ids, expected, pending) == if valid == [] then None else Some(valid[0].id)
  {
  }

  /** One more candidate does not change the choice of CONFIG; it is chosen when there was none. */
  lemma {:induction false} ConfigGrows(c: Cluster, ids: seq<Identifier>, i: Identifier, expected: nat, pending: seq<Request>)
    ensures var before, after := Placed(c, Config, ids, expected, pending), Placed(c, Config, ids + [i], expected, pending);
            if before.Some? then after == before else after.Some? ==> after == Some(i)
  {
    ConfigTakesHead(c, ids, expected, pending);
    ConfigTakesHead(c, ids + [i], expected, pending);
    ReportsInOrder(c, ids, i, expected, pending);
  }

  lemma {:induction false} NoneWithoutCandidate(c: Cluster, ids: seq<Identifier>, expected: nat, pending: seq<Request>)
    requires c.Valid()
    ensures Placed(c, Config, ids, expected, pending).Some? ==> ids != []
    ensures Placed(c, Config, ids, expected, pending).None? ==>
              forall l :: 0 <= l < |ids| ==> !(ids[l] in c.running && Supports(c, ids[l], expected, pending))
  {
    PlacedOrNone(c, Config, ids, expected, pending);
  }

  /** The CONFIG strategy follows the order of the candidates: it chooses the first one that is running
      and whose node supports the load. */
  lemma {:induction false} ConfigIsFirst(c: Cluster, ids: seq<Identifier>, expected: nat, pending: seq<Request>) returns (n: nat)
    requires c.Valid() && Placed(c, Config, ids, expected, pending).Some?
    ensures n < |ids| && Placed(c, Config, ids, expected, pending) == Some(ids[n])
    ensures forall l :: 0 <= l < n ==> !(ids[l] in c.running && Supports(c, ids[l], expected, pending))
    decreases |ids|
  {
    NoneWithoutCandidate(c, ids, expected, pending);
    n := |ids| - 1;
    var before := ids[..n];
    assert ids == before + [ids[n]];
    ConfigGrows(c, before, ids[n], expected, pending);
    if Placed(c, Config, before, expected, pending).Some? {
      n := ConfigIsFirst(c, before, expected, pending);
    } else {
      NoneWithoutCandidate(c, before, expected, pending);
    }
  }

  lemma {:induction false} ValidIsReport(c: Cluster, ids: seq<Identifier>, expected: nat, pending: seq<Request>, n: nat)
    requires n < |ValidReports(c, ids, expected, pending)|
    ensures var x := ValidReports(c, ids, expected, pending)[n];
            x.id in c.running && x == IsLoadingValid(c, x.id, expected, DetailsOf(c, LoadRequests(pending)))
  {
    var d := DetailsOf(c, LoadRequests(pending));
    var candidates := Unique(RunningOnes(c, ids));
    var x := ValidReports(c, ids, expected, pending)[n];
    assert x in ValidOnes(Reports(c, candidates, expected, d));
    var l :| 0 <= l < |candidates| && Reports(c, candidates, expected, d)[l] == x;
    assert candidates[l] in candidates;
  }

  // ---- A batch of distributed starts ----

  /** A process to start: its candidates, its strategy and its expected load. */
  datatype Start = Start(candidates: seq<Identifier>, strategy: Strategy, load: nat)

  /** A process that finds no instance is not requested. */
  ghost function AfterStart(c: Cluster, pending: seq<Request>, start: Start): seq<Request> {
    var target := Placed(c, start.strategy, start.candidates, start.load, pending);
    if target.Some? then pending + [Request(target.value, start.load)] else pending
  }

  /** A process is requested exactly once when an instance can support it (with the local strategy, when
      the local one can), and not at all otherwise. */
  lemma {:induction false} StartIsRequested(c: Cluster, pending: seq<Request>, start: Start)
    requires c.Valid()
    ensures var after := AfterStart(c, pending, start);
            var possible := exists i :: i in start.candidates && i in c.running && Supports(c, i, start.load, pending)
                                        && (start.strategy.Local? ==> i == c.local);
            if possible then
              |after| == |pending| + 1 && after[..|pending|] == pending
              && var r := after[|pending|]; r.load == start.load && r.target in start.candidates && r.target in c.running
            else after == pending
  {
    PlacedOrNone(c, start.strategy, start.candidates, start.load, pending);
  }

  /** The requests pending after a batch. */
  ghost function AfterStarts(c: Cluster, pending: seq<Request>, starts: seq<Start>): seq<Request>
    decreases |starts|
  {
    if starts == [] then pending
    else AfterStart(c, AfterStarts(c, pending, starts[..|starts| - 1]), starts[|starts| - 1])
  }

  /** The requests that the batch adds. */
  ghost predicate Receives(c: Cluster, m: Machine, pending: seq<Request>, after: seq<Request>) {
    exists l :: |pending| <= l < |after| && c.machineOf(after[l].target) == m
  }

  ghost function Max(a: nat, b: nat): nat {
    if a < b then b else a
  }

  lemma {:induction false} ReceivesAppend(c: Cluster, m: Machine, pending: seq<Request>, before: seq<Request>, r: Request)
    requires |pending| <= |before|
    ensures Receives(c, m, pending, before + [r]) <==> Receives(c, m, pending, before) || c.machineOf(r.target) == m
  {
    var after := before + [r];
    if c.machineOf(r.target) == m {
      assert c.machineOf(after[|before|].target) == m;
    }
    if Receives(c, m, pending, before) {
      var l :| |pending| <= l < |before| && c.machineOf(before[l].target) == m;
      assert c.machineOf(after[l].target) == m;
    }
  }

  /** Starting a batch, whatever the strategies, leaves the running and requested load of every
      node at most the greatest of 100 and what it was, and at most 100 on each node that received
      a command. */
  lemma {:induction false} NodeBound(c: Cluster, m: Machine, pending: seq<Request>, starts: seq<Start>)
    requires c.Valid()
    ensures var after := AfterStarts(c, pending, starts);
            && pending <= after
            && NodeTotal(c, m, pending) <= NodeTotal(c, m, after) <= Max(100, NodeTotal(c, m, pending))
            && (Receives(c, m, pending, after) ==> NodeTotal(c, m, after) <= 100)
            && (!Receives(c, m, pending, after) ==> NodeTotal(c, m, after) == NodeTotal(c, m, pending))
    decreases |starts|
  {
    if starts != [] {
      var n := |starts| - 1;
      var before, last := AfterStarts(c, pending, starts[..n]), starts[n];
      NodeBound(c, m, pending, starts[..n]);
      var target := Placed(c, last.strategy, last.candidates, last.load, before);
      if target.Some? {
        var r := Request(target.value, last.load);
        PlacedOrNone(c, last.strategy, last.candidates, last.load, before);
        ReceivesAppend(c, m, pending, before, r);
      }
    }
  }

  ghost predicate TargetsKnown(c: Cluster, pending: seq<Request>) {
    forall l :: 0 <= l < |pending| ==> c.machineOf(pending[l].target) in c.nodes
  }

  method StartOne(c: Cluster, pending: seq<Request>, start: Start) returns (after: seq<Request>)
    requires c.Valid() && TargetsKnown(c, pending)
    ensures after == AfterStart(c, pending, start) && TargetsKnown(c, after)
  {
    RequestedTargets(c, pending);
    var requests := LoadRequests(pending);
    var target := GetSupvisorsInstance(c, start.strategy, start.candidates, start.load, requests);
    PlacedOrNone(c, start.strategy, start.candidates, start.load, pending);
    after := if target == None then pending else pending + [Request(target.value, start.load)];
  }

  /** The processing of a batch of an ALL_INSTANCES application, one command after the other. */
  method StartBatch(c: Cluster, pending: seq<Request>, starts: seq<Start>) returns (after: seq<Request>)
    requires c.Valid() && TargetsKnown(c, pending)
    ensures after == AfterStarts(c, pending, starts) && TargetsKnown(c, after)
  {
    after := pending;
    var i := 0;
    while i < |starts|
      invariant 0 <= i <= |starts| && after == AfterStarts(c, pending, starts[..i]) && TargetsKnown(c, after)
    {
      assert starts[..i + 1][..i] == starts[..i];
      after := StartOne(c, after, starts[i]);
      i := i + 1;
    }
    assert starts[..i] == starts;
  }

  lemma {:induction false} RequestedTargets(c: Cluster, pending: seq<Request>)
    requires TargetsKnown(c, pending)
    ensures forall i :: i in LoadRequests(pending) ==> c.machineOf(i) in c.nodes
    decreases |pending|
  {
    if pending != [] {
      RequestedTargets(c, pending[..|pending| - 1]);
    }
  }

  // ---- A SINGLE_NODE application ----

  /** A planned command: the candidates of the process are those where it is configured. */
  datatype Planned = Planned(process: string, load: nat)

  ghost function SumPlanned(commands: seq<Planned>): nat
    decreases |commands|
  {
    if commands == [] then 0 else SumPlanned(commands[..|commands| - 1]) + commands[|commands| - 1].load
  }

  /** get_node. */
  ghost function NodeFor(c: Cluster, s: Strategy, ids: seq<Identifier>, load: nat, pending: seq<Request>): Option<Machine> {
    var r := Placed(c, s, ids, load, pending);
    if r.Some? then Some(c.machineOf(r.value)) else None
  }

  function OnNode(c: Cluster, m: Machine, ids: seq<Identifier>): (r: seq<Identifier>)
    ensures forall i :: i in r <==> i in ids && m in c.nodes && i in c.nodes[m]
    decreases |ids|
  {
    if ids == [] then []
    else
      var n := |ids| - 1;
      assert forall i :: i in ids <==> i in ids[..n] || i == ids[n];
      OnNode(c, m, ids[..n]) + if m in c.nodes && ids[n] in c.nodes[m] then [ids[n]] else []
  }

  /** When the node supports the load of a command, it gets an instance of that node; otherwise it
      gets none. */
  lemma {:induction false} CommandPlaced(c: Cluster, s: Strategy, ids: seq<Identifier>, total: nat, load: nat, pending: seq<Request>)
    requires c.Valid() && NodeFor(c, s, ids, total, pending).Some?
    ensures var m := NodeFor(c, s, ids, total, pending).value;
            var r := Placed(c, s, OnNode(c, m, ids), load, pending);
            && NodeTotal(c, m, pending) + total <= 100
            && (r.Some? <==> NodeTotal(c, m, pending) + load <= 100)
            && (r.Some? ==> r.value in ids && r.value in c.running && c.machineOf(r.value) == m)
  {
    var first := Placed(c, s, ids, total, pending).value;
    PlacedOrNone(c, s, ids, total, pending);
    var m := c.machineOf(first);
    assert c.Known(first);
    assert first in OnNode(c, m, ids);
    PlacedOrNone(c, s, OnNode(c, m, ids), load, pending);
    var r := Placed(c, s, OnNode(c, m, ids), load, pending);
  }

  lemma {:induction false} SameReport(c: Cluster, i: Identifier, a: nat, b: nat, pending: seq<Request>)
    requires c.Known(i) && NodeTotal(c, c.machineOf(i), pending) + a <= 100 && NodeTotal(c, c.machineOf(i), pending) + b <= 100
    ensures var d := DetailsOf(c, LoadRequests(pending));
            IsLoadingValid(c, i, a, d) == IsLoadingValid(c, i, b, d)
  {
    ReportMeans(c, i, a, pending);
    ReportMeans(c, i, b, pending);
  }

  /** The requests do not depend on the load of the command: all commands get the same instance. */
  lemma {:induction false} SameInstance(c: Cluster, s: Strategy, ids: seq<Identifier>, m: Machine, a: nat, b: nat, pending: seq<Request>)
    requires c.Valid() && NodeTotal(c, m, pending) + a <= 100 && NodeTotal(c, m, pending) + b <= 100
    ensures Placed(c, s, OnNode(c, m, ids), a, pending) == Placed(c, s, OnNode(c, m, ids), b, pending)
  {
    var d := DetailsOf(c, LoadRequests(pending));
    var candidates := RunningOnes(c, OnNode(c, m, ids));
    forall i | i in candidates ensures IsLoadingValid(c, i, a, d) == IsLoadingValid(c, i, b, d) {
      assert c.machineOf(i) == m;
      SameReport(c, i, a, b, pending);
    }
    var unique := Unique(candidates);
    forall l | 0 <= l < |unique| ensures IsLoadingValid(c, unique[l], a, d) == IsLoadingValid(c, unique[l], b, d) {
      assert unique[l] in unique;
    }
    assert Reports(c, unique, a, d) == Reports(c, unique, b, d);
  }

  /** The outcome of the distribution. It raises an exception when a command gets no instance, or an
      instance that has no information on the process to take the time to wait from. */
  datatype Distribution = NoNode | Assigned(targets: seq<Identifier>) | Raised

  ghost function AssignAll(commands: seq<Planned>, choose: nat -> Option<Identifier>, configured: (string, Identifier) -> bool): Distribution
    decreases |commands|
  {
    if commands == [] then Assigned([])
    else
      var last := commands[|commands| - 1];
      var r := choose(last.load);
      match AssignAll(commands[..|commands| - 1], choose, configured)
      case Assigned(targets) =>
        if r.Some? && configured(last.process, r.value) then Assigned(targets + [r.value]) else Raised
      case _ => Raised
  }

  /** The choice for a command of this load; the requests are not refreshed between commands. */
  ghost function Chooser(c: Cluster, s: Strategy, ids: seq<Identifier>, pending: seq<Request>): nat -> Option<Identifier> {
    (load: nat) => Placed(c, s, ids, load, pending)
  }

  /** distribute_to_single_node, for an application whose start sequence has the load `total`. */
  ghost function DistributeToNode(c: Cluster, s: Strategy, ids: seq<Identifier>, total: nat, commands: seq<Planned>,
                                  pending: seq<Request>, configured: (string, Identifier) -> bool): Distribution
  {
    var m := NodeFor(c, s, ids, total, pending);
    if m.None? then NoNode else AssignAll(commands, Chooser(c, s, OnNode(c, m.value, ids), pending), configured)
  }

  /** The instance that all the commands of the application get. */
  ghost function SingleTarget(c: Cluster, s: Strategy, ids: seq<Identifier>, total: nat, pending: seq<Request>): Option<Identifier> {
    var m := NodeFor(c, s, ids, total, pending);
    if m.None? then None else Placed(c, s, OnNode(c, m.value, ids), 0, pending)
  }

  /** The node supports each command, taken alone. */
  ghost predicate EachFits(c: Cluster, m: Machine, commands: seq<Planned>, pending: seq<Request>) {
    forall l :: 0 <= l < |commands| ==> NodeTotal(c, m, pending) + commands[l].load <= 100
  }

  ghost predicate AllConfigured(commands: seq<Planned>, i: Identifier, configured: (string, Identifier) -> bool) {
    forall l :: 0 <= l < |commands| ==> configured(commands[l].process, i)
  }

  function Repeat(n: nat, i: Identifier): (r: seq<Identifier>)
    ensures |r| == n && forall l :: 0 <= l < n ==> r[l] == i
  {
    if n == 0 then [] else Repeat(n - 1, i) + [i]
  }

  ghost predicate AllPlacedOn(commands: seq<Planned>, choose: nat -> Option<Identifier>, target: Identifier) {
    forall l :: 0 <= l < |commands| ==> choose(commands[l].load) == Some(target)
  }

  lemma {:induction false} AssignSame(commands: seq<Planned>, choose: nat -> Option<Identifier>,
                                      configured: (string, Identifier) -> bool, target: Identifier)
    requires AllPlacedOn(commands, choose, target)
    ensures AssignAll(commands, choose, configured) ==
            if AllConfigured(commands, target, configured) then Assigned(Repeat(|commands|, target)) else Raised
    decreases |commands|
  {
    if commands != [] {
      var n := |commands| - 1;
      AssignSame(commands[..n], choose, configured, target);
      assert AllConfigured(commands, target, configured) <==>
             AllConfigured(commands[..n], target, configured) && configured(commands[n].process, target);
    }
  }

  lemma {:induction false} PartOfSum(commands: seq<Planned>, l: nat)
    requires l < |commands|
    ensures commands[l].load <= SumPlanned(commands)
    decreases |commands|
  {
    if l < |commands| - 1 {
      PartOfSum(commands[..|commands| - 1], l);
    }
  }

  lemma {:induction false} AssignRefused(commands: seq<Planned>, choose: nat -> Option<Identifier>,
                                         configured: (string, Identifier) -> bool, l: nat)
    requires l < |commands| && choose(commands[l].load).None?
    ensures AssignAll(commands, choose, configured).Raised?
    decreases |commands|
  {
    if l < |commands| - 1 {
      AssignRefused(commands[..|commands| - 1], choose, configured, l);
    }
  }

  /** All the commands of the application get the same instance. */
  lemma {:induction false} CommandsPlaced(c: Cluster, s: Strategy, ids: seq<Identifier>, total: nat, commands: seq<Planned>, pending: seq<Request>)
    requires c.Valid() && NodeFor(c, s, ids, total, pending).Some?
    requires EachFits(c, NodeFor(c, s, ids, total, pending).value, commands, pending)
    ensures SingleTarget(c, s, ids, total, pending).Some?
    ensures AllPlacedOn(commands, Chooser(c, s, OnNode(c, NodeFor(c, s, ids, total, pending).value, ids), pending),
                        SingleTarget(c, s, ids, total, pending).value)
  {
    var m := NodeFor(c, s, ids, total, pending).value;
    CommandPlaced(c, s, ids, total, 0, pending);
    forall l | 0 <= l < |commands|
      ensures Placed(c, s, OnNode(c, m, ids), commands[l].load, pending) == SingleTarget(c, s, ids, total, pending)
    {
      SameInstance(c, s, ids, m, 0, commands[l].load, pending);
    }
  }

  function Requests(commands: seq<Planned>, target: Identifier): (r: seq<Request>)
    ensures |r| == |commands|
    decreases |commands|
  {
    if commands == [] then []
    else Requests(commands[..|commands| - 1], target) + [Request(target, commands[|commands| - 1].load)]
  }

  lemma {:induction false} RequestsSum(c: Cluster, m: Machine, pending: seq<Request>, commands: seq<Planned>, target: Identifier)
    requires c.machineOf(target) == m
    ensures NodeRequests(c, m, pending + Requests(commands, target)) == NodeRequests(c, m, pending) + SumPlanned(commands)
    decreases |commands|
  {
    if commands == [] {
      assert pending + [] == pending;
    } else {
      var n := |commands| - 1;
      RequestsSum(c, m, pending, commands[..n], target);
      var r := Request(target, commands[n].load);
      assert pending + (Requests(commands[..n], target) + [r]) == pending + Requests(commands[..n], target) + [r];
    }
  }

  /** When a node is found, the distribution assigns the same running instance of that node to all
      the commands. It succeeds exactly when the node supports each command and when every process is
      configured on this instance; otherwise it raises. */
  lemma {:induction false} SingleNodeExactly(c: Cluster, s: Strategy, ids: seq<Identifier>, total: nat, commands: seq<Planned>,
                                             pending: seq<Request>, configured: (string, Identifier) -> bool)
    requires c.Valid() && NodeFor(c, s, ids, total, pending).Some?
    ensures var m := NodeFor(c, s, ids, total, pending).value;
            var target := SingleTarget(c, s, ids, total, pending);
            var r := DistributeToNode(c, s, ids, total, commands, pending, configured);
            && target.Some? && target.value in ids && target.value in c.running && c.machineOf(target.value) == m
            && r == (if EachFits(c, m, commands, pending) && AllConfigured(commands, target.value, configured)
                     then Assigned(Repeat(|commands|, target.value)) else Raised)
  {
    var m := NodeFor(c, s, ids, total, pending).value;
    CommandPlaced(c, s, ids, total, 0, pending);
    var choose := Chooser(c, s, OnNode(c, m, ids), pending);
    if EachFits(c, m, commands, pending) {
      CommandsPlaced(c, s, ids, total, commands, pending);
      AssignSame(commands, choose, configured, SingleTarget(c, s, ids, total, pending).value);
    } else {
      var l :| 0 <= l < |commands| && NodeTotal(c, m, pending) + commands[l].load > 100;
      CommandPlaced(c, s, ids, total, commands[l].load, pending);
      AssignRefused(commands, choose, configured, l);
    }
  }

  /** When the commands are those of the start sequence, or part of them, the node supports them all
      together, and the running and requested load of the node stays at most 100. */
  lemma {:induction false} SingleNodeIsSafe(c: Cluster, s: Strategy, ids: seq<Identifier>, total: nat, commands: seq<Planned>,
                                            pending: seq<Request>, configured: (string, Identifier) -> bool)
    requires c.Valid() && NodeFor(c, s, ids, total, pending).Some? && SumPlanned(commands) <= total
    ensures var m := NodeFor(c, s, ids, total, pending).value;
            var target := SingleTarget(c, s, ids, total, pending);
            var r := DistributeToNode(c, s, ids, total, commands, pending, configured);
            && target.Some? && c.machineOf(target.value) == m
            && (r.Assigned? <==> AllConfigured(commands, target.value, configured))
            && (r.Assigned? ==> r.targets == Repeat(|commands|, target.value))
            && NodeTotal(c, m, pending + Requests(commands, target.value)) <= 100
  {
    SingleNodeExactly(c, s, ids, total, commands, pending, configured);
    CommandPlaced(c, s, ids, total, 0, pending);
    forall l | 0 <= l < |commands| ensures commands[l].load <= total {
      PartOfSum(commands, l);
    }
    RequestsSum(c, NodeFor(c, s, ids, total, pending).value, pending, commands, SingleTarget(c, s, ids, total, pending).value);
  }

  /** A process that is started alone may be out of the start sequence: the node keeps within the
      limit when it supports this process; otherwise the distribution raises. */
  lemma {:induction false} SingleProcessExactly(c: Cluster, s: Strategy, ids: seq<Identifier>, total: nat, command: Planned,
                                                pending: seq<Request>, configured: (string, Identifier) -> bool)
    requires c.Valid() && NodeFor(c, s, ids, total, pending).Some?
    ensures var m := NodeFor(c, s, ids, total, pending).value;
            var target := SingleTarget(c, s, ids, total, pending);
            var r := DistributeToNode(c, s, ids, total, [command], pending, configured);
            && target.Some?
            && (r.Assigned? <==> NodeTotal(c, m, pending) + command.load <= 100 && configured(command.process, target.value))
            && (r.Assigned? ==> r.targets == [target.value] && NodeTotal(c, m, pending + [Request(target.value, command.load)]) <= 100)
            && (!r.Assigned? ==> r.Raised?)
  {
    SingleNodeExactly(c, s, ids, total, [command], pending, configured);
    var m, target := NodeFor(c, s, ids, total, pending).value, SingleTarget(c, s, ids, total, pending).value;
    OneCommand(c, m, command, pending, target, configured);
  }

  lemma {:induction false} OneCommand(c: Cluster, m: Machine, command: Planned, pending: seq<Request>, target: Identifier,
                                      configured: (string, Identifier) -> bool)
    ensures EachFits(c, m, [command], pending) <==> NodeTotal(c, m, pending) + command.load <= 100
    ensures AllConfigured([command], target, configured) <==> configured(command.process, target)
    ensures Repeat(1, target) == [target]
    ensures c.machineOf(target) == m ==>
              NodeTotal(c, m, pending + [Request(target, command.load)]) == NodeTotal(c, m, pending) + command.load
  {
    assert [command][0] == command;
    assert (pending + [Request(target, command.load)])[..|pending|] == pending;
  }

  /** In particular it never raises when the node supports each command, and when all processes are
      configured on the candidates of the node. */
  lemma {:induction false} SingleNodeIsTotal(c: Cluster, s: Strategy, ids: seq<Identifier>, total: nat, commands: seq<Planned>,
                                             pending: seq<Request>, configured: (string, Identifier) -> bool)
    requires c.Valid() && forall l :: 0 <= l < |commands| ==> commands[l].load <= total
    requires var m := NodeFor(c, s, ids, total, pending);
             m.Some? ==> forall i :: i in OnNode(c, m.value, ids) ==> AllConfigured(commands, i, configured)
    ensures !DistributeToNode(c, s, ids, total, commands, pending, configured).Raised?
  {
    if NodeFor(c, s, ids, total, pending).Some? {
      SingleNodeExactly(c, s, ids, total, commands, pending, configured);
      CommandPlaced(c, s, ids, total, 0, pending);
    }
  }

  /** But it always raises when no candidate has all the processes configured. */
  lemma {:induction false} SplitNodeFails(c: Cluster, s: Strategy, ids: seq<Identifier>, total: nat, commands: seq<Planned>,
                                          pending: seq<Request>, configured: (string, Identifier) -> bool)
    requires c.Valid() && NodeFor(c, s, ids, total, pending).Some?
    requires forall i :: i in ids ==> !AllConfigured(commands, i, configured)
    ensures DistributeToNode(c, s, ids, total, commands, pending, configured).Raised?
  {
    SingleNodeExactly(c, s, ids, total, commands, pending, configured);
  }

  // ---- The candidates of a SINGLE_NODE application ----

  /** A process is enabled on an instance when it is configured there, and not disabled. */
  predicate IsEnabled(processes: seq<string>, i: Identifier, enabled: (string, Identifier) -> bool) {
    exists l :: 0 <= l < |processes| && enabled(processes[l], i)
  }

  function SolutionsFor(c: Cluster, m: Machine, ids: seq<Identifier>, process: string,
                        enabled: (string, Identifier) -> bool): set<Identifier>
    requires m in c.nodes
  {
    set i | i in c.nodes[m] && i in ids && enabled(process, i)
  }

  /** Every process has a solution among the candidates of the node, not necessarily the same one. */
  predicate Covers(c: Cluster, m: Machine, ids: seq<Identifier>, processes: seq<string>, enabled: (string, Identifier) -> bool)
    requires m in c.nodes
  {
    forall l :: 0 <= l < |processes| ==> SolutionsFor(c, m, ids, processes[l], enabled) != {}
  }

  /** A candidate: some process is enabled there, and the instances of a node that it belongs to
      cover all the processes together. */
  predicate IsPossible(c: Cluster, ids: seq<Identifier>, processes: seq<string>, enabled: (string, Identifier) -> bool, i: Identifier) {
    IsEnabled(processes, i, enabled) && exists m :: m in c.nodes && i in c.nodes[m] && Covers(c, m, ids, processes, enabled)
  }

  function Kept(ids: seq<Identifier>, keep: set<Identifier>): (r: seq<Identifier>)
    ensures forall i :: i in r <==> i in ids && i in keep
    decreases |ids|
  {
    if ids == [] then []
    else
      var n := |ids| - 1;
      assert forall i :: i in ids <==> i in ids[..n] || i == ids[n];
      Kept(ids[..n], keep) + if ids[n] in keep then [ids[n]] else []
  }

  function SolutionsOn(c: Cluster, m: Machine, ids: seq<Identifier>, processes: seq<string>,
                       enabled: (string, Identifier) -> bool): set<Identifier>
    requires m in c.nodes
  {
    set i | i in c.nodes[m] && i in ids && IsEnabled(processes, i, enabled)
  }

  lemma {:induction false} NextEnabled(processes: seq<string>, n: nat, enabled: (string, Identifier) -> bool, i: Identifier)
    requires n < |processes|
    ensures IsEnabled(processes[..n + 1], i, enabled) <==> (IsEnabled(processes[..n], i, enabled) || enabled(processes[n], i))
  {
    assert processes[..n + 1][n] == processes[n];
    assert forall l :: 0 <= l < n ==> processes[..n + 1][l] == processes[..n][l];
  }

  lemma {:induction false} NextSolutions(c: Cluster, m: Machine, ids: seq<Identifier>, processes: seq<string>, n: nat,
                                         enabled: (string, Identifier) -> bool)
    requires m in c.nodes && n < |processes|
    ensures SolutionsOn(c, m, ids, processes[..n + 1], enabled) ==
            SolutionsOn(c, m, ids, processes[..n], enabled) + SolutionsFor(c, m, ids, processes[n], enabled)
    ensures Covers(c, m, ids, processes[..n + 1], enabled) <==>
            (Covers(c, m, ids, processes[..n], enabled) && SolutionsFor(c, m, ids, processes[n], enabled) != {})
  {
    forall i {
      NextEnabled(processes, n, enabled, i);
    }
    assert forall l :: 0 <= l <= n ==> processes[..n + 1][l] == processes[l];
    assert forall l :: 0 <= l < n ==> processes[..n][l] == processes[..n + 1][l];
  }

  /** The solutions of one node, process after process; none if a process has no solution. */
  method NodeSolutions(c: Cluster, m: Machine, ids: seq<Identifier>, processes: seq<string>,
                       enabled: (string, Identifier) -> bool) returns (solutions: set<Identifier>)
    requires m in c.nodes
    ensures solutions == if Covers(c, m, ids, processes, enabled) then SolutionsOn(c, m, ids, processes, enabled) else {}
  {
    solutions := {};
    var n := 0;
    while n < |processes|
      invariant 0 <= n <= |processes| && Covers(c, m, ids, processes[..n], enabled)
      invariant solutions == SolutionsOn(c, m, ids, processes[..n], enabled)
    {
      var found := SolutionsFor(c, m, ids, processes[n], enabled);
      NextSolutions(c, m, ids, processes, n, enabled);
      if found == {} {
        return {};
      }
      solutions := solutions + found;
      n := n + 1;
    }
    assert processes[..n] == processes;
  }

  /** possible_node_identifiers: the candidates, in the order of the rules. */
  method PossibleNodeIdentifiers(c: Cluster, ids: seq<Identifier>, processes: seq<string>,
                                 enabled: (string, Identifier) -> bool) returns (r: seq<Identifier>)
    ensures forall i :: i in r <==> (i in ids && IsPossible(c, ids, processes, enabled, i))
    ensures exists keep :: r == Kept(ids, keep)
  {
    var all: set<Identifier> := {};
    var left := c.nodes.Keys;
    while left != {}
      invariant left <= c.nodes.Keys
      invariant forall i :: i in all <==> (i in ids && IsEnabled(processes, i, enabled)
                  && exists m :: m in c.nodes && m !in left && i in c.nodes[m] && Covers(c, m, ids, processes, enabled))
      decreases left
    {
      var m :| m in left;
      var solutions := NodeSolutions(c, m, ids, processes, enabled);
      all := all + solutions;
      left := left - {m};
    }
    r := Kept(ids, all);
  }

  // ---- Two instances of a node that share the processes ----

  const LEFT: Identifier := Id("left")
  const RIGHT: Identifier := Id("right")

  const SHARED := Cluster(map["node" := [LEFT, RIGHT]], (i: Identifier) => "node", (i: Identifier) => 0, {LEFT, RIGHT}, LEFT)

  const COMMANDS: seq<Planned> := [Planned("p", 10), Planned("q", 10)]

  function OneEach(): (string, Identifier) -> bool {
    (process: string, i: Identifier) => if process == "p" then i == LEFT else i == RIGHT
  }

  lemma {:induction false} SharedIsPossible(i: Identifier)
    requires i in [LEFT, RIGHT]
    ensures IsPossible(SHARED, [LEFT, RIGHT], ["p", "q"], OneEach(), i)
  {
    var processes := ["p", "q"];
    var ids := [LEFT, RIGHT];
    assert LEFT in SHARED.nodes["node"] && RIGHT in SHARED.nodes["node"];
    assert LEFT in SolutionsFor(SHARED, "node", ids, processes[0], OneEach());
    assert RIGHT in SolutionsFor(SHARED, "node", ids, processes[1], OneEach());
    assert Covers(SHARED, "node", [LEFT, RIGHT], processes, OneEach());
  }

  lemma {:induction false} SharedHasRoom()
    ensures SumPlanned(COMMANDS) == 20 && NodeTotal(SHARED, "node", []) == 0
  {
    assert COMMANDS[..1] == [Planned("p", 10)];
    assert [Planned("p", 10)][..0] == [];
    assert SumPlanned([Planned("p", 10)]) == 10;
    var ids := [LEFT, RIGHT];
    assert ids[..1] == [LEFT] && [LEFT][..0] == [];
    assert SumLoads(SHARED, [LEFT]) == 0;
    assert SumLoads(SHARED, ids) == 0;
  }

  lemma {:induction false} NoneHasBoth(i: Identifier)
    ensures !AllConfigured(COMMANDS, i, OneEach())
  {
    assert !OneEach()(COMMANDS[if i == LEFT then 1 else 0].process, i);
  }

  /** A SINGLE_NODE application that is started: its candidates, the commands of its start sequence,
      and where its processes are configured and enabled. */
  datatype Application = Application(
    ids: seq<Identifier>,
    commands: seq<Planned>,
    enabled: (string, Identifier) -> bool,
    configured: (string, Identifier) -> bool)
  {
    ghost predicate Valid() {
      forall process, i :: enabled(process, i) ==> configured(process, i)
    }
  }

  function Processes(commands: seq<Planned>): (r: seq<string>)
    ensures |r| == |commands| && forall l :: 0 <= l < |r| ==> r[l] == commands[l].process
  {
    seq(|commands|, l requires 0 <= l < |commands| => commands[l].process)
  }

  /** All the candidates are possible ones. */
  ghost predicate HasCandidates(c: Cluster, a: Application) {
    a.ids != [] && forall i {:trigger IsPossible(c, a.ids, Processes(a.commands), a.enabled, i)} :: i in a.ids ==> IsPossible(c, a.ids, Processes(a.commands), a.enabled, i)
  }

  lemma {:induction false} SharedIsReady()
    ensures SHARED.Valid() && SHARED.local == LEFT && LEFT in SHARED.running
    ensures Supports(SHARED, LEFT, SumPlanned(COMMANDS), [])
  {
    SharedHasRoom();
  }

  lemma {:induction false} SharedHasCandidates()
    ensures HasCandidates(SHARED, Application([LEFT, RIGHT], COMMANDS, OneEach(), OneEach()))
  {
    assert Processes(COMMANDS) == ["p", "q"];
    SharedIsPossible(LEFT);
    SharedIsPossible(RIGHT);
  }

  lemma {:induction false} SharedApplication() returns (c: Cluster, a: Application)
    ensures c.Valid() && c.local in a.ids && c.local in c.running && Supports(c, c.local, SumPlanned(a.commands), [])
    ensures a.Valid() && HasCandidates(c, a) && forall i :: !AllConfigured(a.commands, i, a.configured)
  {
    c, a := SHARED, Application([LEFT, RIGHT], COMMANDS, OneEach(), OneEach());
    SharedIsReady();
    SharedHasCandidates();
    forall i ensures !AllConfigured(a.commands, i, a.configured) {
      NoneHasBoth(i);
    }
  }

  /** A node that supports the application is chosen, but none of its instances has all processes. */
  lemma {:induction false} LocalNodeFails(c: Cluster, s: Strategy, ids: seq<Identifier>, commands: seq<Planned>,
                                          configured: (string, Identifier) -> bool)
    requires c.Valid() && c.local in ids && c.local in c.running && Supports(c, c.local, SumPlanned(commands), [])
    requires forall i :: !AllConfigured(commands, i, configured)
    ensures NodeFor(c, s, ids, SumPlanned(commands), []).Some?
    ensures DistributeToNode(c, s, ids, SumPlanned(commands), commands, [], configured).Raised?
  {
    PlacedOrNone(c, s, ids, SumPlanned(commands), []);
    SplitNodeFails(c, s, ids, SumPlanned(commands), commands, [], configured);
  }

  /** Such candidates are possible: each process is configured on one of the two instances of a node
      that has room for them. Whatever the strategy, no process can be started. */
  lemma {:induction false} SharedNodeFails(s: Strategy) returns (c: Cluster, a: Application)
    ensures c.Valid() && a.Valid() && HasCandidates(c, a) && NodeFor(c, s, a.ids, SumPlanned(a.commands), []).Some?
    ensures DistributeToNode(c, s, a.ids, SumPlanned(a.commands), a.commands, [], a.configured).Raised?
  {
    c, a := SharedApplication();
    LocalNodeFails(c, s, a.ids, a.commands, a.configured);
  }

  // ---- A process out of the start sequence ----

  function Everywhere(): (string, Identifier) -> bool {
    (process: string, i: Identifier) => true
  }

  lemma {:induction false} RequestIsCounted()
    ensures NodeTotal(SHARED, "node", [Request(LEFT, 50)]) == 50
  {
    SharedHasRoom();
    assert [Request(LEFT, 50)][..0] == [];
  }

  /** Such a process may be too much for the node that the start sequence is given: whatever the
      strategy, starting it alone raises, even though it is configured everywhere. */
  lemma {:induction false} HeavyProcessRaises(s: Strategy)
    ensures var m := NodeFor(SHARED, s, [LEFT, RIGHT], 20, [Request(LEFT, 50)]);
            m.Some? && DistributeToNode(SHARED, s, [LEFT, RIGHT], 20, [Planned("r", 60)], [Request(LEFT, 50)], Everywhere()).Raised?
  {
    var ids, pending := [LEFT, RIGHT], [Request(LEFT, 50)];
    RequestIsCounted();
    PlacedOrNone(SHARED, s, ids, 20, pending);
    assert LEFT in ids && Supports(SHARED, LEFT, 20, pending);
    SingleProcessExactly(SHARED, s, ids, 20, Planned("r", 60), pending, Everywhere());
  }

  // ---- The distribution ----

  /** `sequence` is the start sequence, which the load of the application is computed from. */
  method DistributeToSingleNode(c: Cluster, s: Strategy, ids: seq<Identifier>, sequence: seq<Planned>, commands: seq<Planned>,
                                pending: seq<Request>, configured: (string, Identifier) -> bool) returns (r: Distribution)
    requires c.Valid() && TargetsKnown(c, pending)
    ensures r == DistributeToNode(c, s, ids, SumPlanned(sequence), commands, pending, configured)
  {
    var total := 0;
    var i := 0;
    while i < |sequence|
      invariant 0 <= i <= |sequence| && total == SumPlanned(sequence[..i])
    {
      assert sequence[..i + 1][..i] == sequence[..i];
      total := total + sequence[i].load;
      i := i + 1;
    }
    assert sequence[..i] == sequence;
    RequestedTargets(c, pending);
    var requests := LoadRequests(pending);
    var first := GetSupvisorsInstance(c, s, ids, total, requests);
    if first == None {
      return NoNode;
    }
    r := AssignOneByOne(c, s, OnNode(c, c.machineOf(first.value), ids), commands, pending, configured);
  }

  method AssignOneByOne(c: Cluster, s: Strategy, ids: seq<Identifier>, commands: seq<Planned>,
                        pending: seq<Request>, configured: (string, Identifier) -> bool) returns (r: Distribution)
    requires TargetsKnown(c, pending)
    ensures r == AssignAll(commands, Chooser(c, s, ids, pending), configured)
  {
    RequestedTargets(c, pending);
    var requests := LoadRequests(pending);
    r := Assigned([]);
    var i := 0;
    while i < |commands|
      invariant 0 <= i <= |commands| && r == AssignAll(commands[..i], Chooser(c, s, ids, pending), configured)
    {
      assert commands[..i + 1][..i] == commands[..i];
      var target := GetSupvisorsInstance(c, s, ids, commands[i].load, requests);
      if r.Assigned? && target != None && configured(commands[i].process, target.value) {
        r := Assigned(r.targets + [target.value]);
      } else {
        r := Raised;
      }
      i := i + 1;
    }
    assert commands[..i] == commands;
  }
}
