/** Runs of a homogeneous group: processes are added and removed as their number is updated, and the
    rules are resolved each time that an application is started (supvisors/application.py). */
module HomogeneousGroupRuns {
  import opened SupvisorsTypes
  import opened HomogeneousGroup

  datatype Op = Add(m: Member, r: Rules) | Remove(name: string) | Resolve(candidates: seq<Identifier>)

  ghost function IndexOf(g: Group, name: string): (a: nat)
    requires g.Has(name)
    ensures a < |g.processes| && g.processes[a].name == name
  {
    var a :| 0 <= a < |g.processes| && g.processes[a].name == name;
    a
  }

  /** A process of the group is not added again. A resolution that raises changes nothing. */
  ghost function Perform(kind: Kind, g: Group, op: Op): (r: Group)
    requires g.Valid()
    ensures r.Valid()
  {
    match op
    case Add(m, r) => if g.Has(m.name) then g else Added(g, m, r)
    case Remove(name) => if g.Has(name) then Removed(g, IndexOf(g, name)) else g
    case Resolve(candidates) =>
      if kind.AtRule? then AtStep(g, candidates)
      else if candidates != [] && AssignedAreKnown(g, candidates) then g.(rules := HashResolved(g.processes, g.rules, candidates))
      else g
  }

  ghost function AtStep(g: Group, candidates: seq<Identifier>): (r: Group)
    requires g.Valid()
    ensures r.Valid() && r.processes == g.processes
  {
    ByIndexKnown(g.processes, g.rules);
    PendingKnown(ByIndex(g.processes), g.rules, AtRule);
    g.(rules := AtResolved(g.processes, g.rules, candidates))
  }

  ghost function Run(kind: Kind, g: Group, ops: seq<Op>): (r: Group)
    requires g.Valid()
    ensures r.Valid()
    decreases |ops|
  {
    if ops == [] then g else Run(kind, Perform(kind, g, ops[0]), ops[1..])
  }

  ghost predicate Distinct(ops: seq<Op>) {
    forall k :: 0 <= k < |ops| && ops[k].Resolve? ==> UniqueIds(ops[k].candidates)
  }

  /** The candidates of the last resolution. */
  function KnownAfter(known: seq<Identifier>, op: Op): seq<Identifier> {
    if op.Resolve? then op.candidates else known
  }

  function LastKnown(known: seq<Identifier>, ops: seq<Op>): seq<Identifier>
    decreases |ops|
  {
    if ops == [] then known else LastKnown(KnownAfter(known, ops[0]), ops[1..])
  }

  // ---- The '@' rule ----

  /** The rules of a new process: to be resolved, or resolved to an instance that is not taken. */
  ghost predicate FitsAt(g: Group, r: Rules)
    requires g.Valid()
  {
    if r.at then r.identifiers == []
    else |r.identifiers| == 1 && forall a :: 0 <= a < |g.processes| && !g.rules[g.processes[a].name].at ==>
           g.rules[g.processes[a].name].identifiers != r.identifiers
  }

  ghost predicate ExpectedAt(g: Group, op: Op)
    requires g.Valid()
  {
    match op
    case Add(m, r) => g.Has(m.name) || FitsAt(g, r)
    case Remove(_) => true
    case Resolve(candidates) => UniqueIds(candidates)
  }

  ghost predicate AllExpectedAt(g: Group, ops: seq<Op>)
    requires g.Valid()
    decreases |ops|
  {
    ops == [] || (ExpectedAt(g, ops[0]) && AllExpectedAt(Perform(AtRule, g, ops[0]), ops[1..]))
  }

  lemma {:induction false} AddKeepsAt(g: Group, m: Member, r: Rules)
    requires AtInv(g.processes, g.rules) && !g.Has(m.name) && FitsAt(g, r)
    ensures var g' := Added(g, m, r); AtInv(g'.processes, g'.rules)
  {
    var g' := Added(g, m, r);
    forall a | 0 <= a < |g'.processes| ensures AtShape(g'.rules, g'.processes[a].name) {
      assert a < |g.processes| ==> AtShape(g.rules, g.processes[a].name);
    }
  }

  lemma {:induction false} RemoveKeepsAt(g: Group, i: nat)
    requires AtInv(g.processes, g.rules) && i < |g.processes|
    ensures var g' := Removed(g, i); AtInv(g'.processes, g'.rules)
  {
    var g' := Removed(g, i);
    forall a | 0 <= a < |g'.processes| ensures AtShape(g'.rules, g'.processes[a].name) {
      assert AtShape(g.rules, g.processes[if a < i then a else a + 1].name);
    }
  }

  lemma {:induction false} PerformKeepsAt(g: Group, op: Op)
    requires AtInv(g.processes, g.rules) && ExpectedAt(g, op)
    ensures var g' := Perform(AtRule, g, op); AtInv(g'.processes, g'.rules)
  {
    match op
    case Add(m, r) =>
      if !g.Has(m.name) {
        AddKeepsAt(g, m, r);
      }
    case Remove(name) =>
      if g.Has(name) {
        RemoveKeepsAt(g, IndexOf(g, name));
      }
    case Resolve(candidates) => AtKeepsInv(g.processes, g.rules, candidates);
  }

  /** Over any run, assigned instances are pairwise distinct; each process has one of them, or a rule
      that is still to be resolved. */
  lemma {:induction false} AtHoldsOverRuns(g: Group, ops: seq<Op>)
    requires AtInv(g.processes, g.rules) && AllExpectedAt(g, ops)
    ensures var g' := Run(AtRule, g, ops); AtInv(g'.processes, g'.rules)
    decreases |ops|
  {
    if ops != [] {
      PerformKeepsAt(g, ops[0]);
      AtHoldsOverRuns(Perform(AtRule, g, ops[0]), ops[1..]);
    }
  }

  /** The instance that a process is assigned to, for good. */
  ghost predicate AssignedTo(kind: Kind, g: Group, name: string, i: Identifier) {
    g.Has(name) && name in g.rules && !IsPending(g.rules[name], kind) && g.rules[name].identifiers == [i]
  }

  lemma {:induction false} OthersStay(g: Group, i: nat, name: string)
    requires i < |g.processes| && g.Has(name) && g.processes[i].name != name
    ensures Removed(g, i).Has(name)
  {
    var a :| 0 <= a < |g.processes| && g.processes[a].name == name;
    assert Removed(g, i).processes[if a < i then a else a - 1].name == name;
  }

  lemma {:induction false} PerformKeepsAssigned(kind: Kind, g: Group, op: Op, name: string, i: Identifier)
    requires g.Valid() && AssignedTo(kind, g, name, i) && op != Remove(name)
    requires op.Resolve? ==> UniqueIds(op.candidates)
    ensures AssignedTo(kind, Perform(kind, g, op), name, i)
  {
    match op
    case Add(m, r) =>
      if !g.Has(m.name) {
        assert Added(g, m, r).processes[IndexOf(g, name)].name == name;
      }
    case Remove(other) =>
      if g.Has(other) {
        OthersStay(g, IndexOf(g, other), name);
      }
    case Resolve(candidates) =>
      if kind.AtRule? {
        AtAssignsInOrder(g.processes, g.rules, candidates);
        assert AtOutcome(g.processes, g.rules, candidates, name);
        NotPending(g.processes, g.rules, name);
      } else if candidates != [] && AssignedAreKnown(g, candidates) {
        HashGives(g.processes, g.rules, candidates, name);
      }
  }

  /** Over any run, an assignment is never changed, until the process is removed. */
  lemma {:induction false} AssignmentsAreFinal(kind: Kind, g: Group, ops: seq<Op>, name: string, i: Identifier)
    requires g.Valid() && AssignedTo(kind, g, name, i) && Remove(name) !in ops && Distinct(ops)
    ensures AssignedTo(kind, Run(kind, g, ops), name, i)
    decreases |ops|
  {
    if ops != [] {
      PerformKeepsAssigned(kind, g, ops[0], name, i);
      AssignmentsAreFinal(kind, Perform(kind, g, ops[0]), ops[1..], name, i);
    }
  }

  // ---- Each '@' resolution assigns as many processes as it can ----

  lemma {:induction false} SamePending(order: seq<Member>, rules: RulesMap, rules': RulesMap, kind: Kind)
    requires forall a :: 0 <= a < |order| ==> order[a].name in rules && order[a].name in rules'
    requires forall a :: 0 <= a < |order| ==> rules'[order[a].name] == rules[order[a].name]
    ensures Pending(order, rules', kind) == Pending(order, rules, kind)
    decreases |order|
  {
    if order != [] {
      SamePending(order[..|order| - 1], rules, rules', kind);
    }
  }

  /** Resolving the rule of the first pending process leaves the other ones. */
  lemma {:induction false} FirstResolved(order: seq<Member>, rules: RulesMap, r: Rules, kind: Kind)
    requires UniqueNames(order) && forall a :: 0 <= a < |order| ==> order[a].name in rules
    requires Pending(order, rules, kind) != [] && !IsPending(r, kind)
    ensures Pending(order, rules[Pending(order, rules, kind)[0] := r], kind) == Pending(order, rules, kind)[1..]
    decreases |order|
  {
    var n := |order| - 1;
    var before, first := Pending(order[..n], rules, kind), Pending(order, rules, kind)[0];
    var rules' := rules[first := r];
    if before != [] {
      PendingHas(order[..n], rules, kind, before[0]);
      assert before[0] in before;
    }
    if before == [] {
      assert first == order[n].name;
      SamePending(order[..n], rules, rules', kind);
    } else {
      var b :| 0 <= b < n && order[..n][b].name == before[0];
      FirstResolved(order[..n], rules, r, kind);
    }
  }

  lemma {:induction false} FirstOnesResolved(order: seq<Member>, rules: RulesMap, ids: seq<Identifier>, k: nat)
    requires UniqueNames(order) && forall a :: 0 <= a < |order| ==> order[a].name in rules
    requires k <= |Pending(order, rules, AtRule)| && k <= |ids|
    requires forall a :: 0 <= a < |Pending(order, rules, AtRule)| ==> Pending(order, rules, AtRule)[a] in rules
    ensures var names := Pending(order, rules, AtRule);
            Pending(order, AtAssigned(rules, names, ids, k), AtRule) == names[k..]
    decreases k
  {
    if k > 0 {
      var names := Pending(order, rules, AtRule);
      var before := AtAssigned(rules, names, ids, k - 1);
      FirstOnesResolved(order, rules, ids, k - 1);
      FirstResolved(order, before, before[names[k - 1]].(at := false, identifiers := [ids[k - 1]]), AtRule);
    }
  }

  /** A resolution assigns exactly the smallest of the pending processes and of the free candidates,
      the first ones of each; the other processes go on waiting. */
  lemma {:induction false} AtResolvesAllItCan(g: Group, candidates: seq<Identifier>)
    requires g.Valid()
    ensures var pending := PendingOf(g.processes, g.rules);
            var free := Free(candidates, TakenBy(g.processes, g.rules));
            PendingOf(g.processes, AtStep(g, candidates).rules) == pending[Min(|pending|, |free|)..]
  {
    var order := ByIndex(g.processes);
    ByIndexKnown(g.processes, g.rules);
    ByIndexKeeps(g.processes);
    PendingKnown(order, g.rules, AtRule);
    var names, ids := Pending(order, g.rules, AtRule), Free(candidates, Taken(order, g.rules));
    FirstOnesResolved(order, g.rules, ids, Min(|names|, |ids|));
    assert AtStep(g, candidates).rules == AtAssigned(g.rules, names, ids, Min(|names|, |ids|));
  }

  // ---- The '#' rule ----

  /** A new process has a rule to be resolved, or one of the candidates of the last resolution; the
      candidates only grow from one resolution to the next. */
  ghost predicate ExpectedHash(g: Group, known: seq<Identifier>, op: Op)
    requires g.Valid()
  {
    match op
    case Add(m, r) => g.Has(m.name) || HashShape(r, known)
    case Remove(_) => true
    case Resolve(candidates) => forall i :: i in known ==> i in candidates
  }

  ghost predicate AllExpectedHash(g: Group, known: seq<Identifier>, ops: seq<Op>)
    requires g.Valid()
    decreases |ops|
  {
    ops == [] || (ExpectedHash(g, known, ops[0])
                  && AllExpectedHash(Perform(HashRule, g, ops[0]), KnownAfter(known, ops[0]), ops[1..]))
  }

  lemma {:induction false} MoreKnown(g: Group, known: seq<Identifier>, candidates: seq<Identifier>)
    requires HashInv(g.processes, g.rules, known) && forall i :: i in known ==> i in candidates
    ensures HashInv(g.processes, g.rules, candidates) && AssignedAreKnown(g, candidates)
  {
    forall a | 0 <= a < |g.processes|
      ensures HashShape(g.rules[g.processes[a].name], candidates)
    {
      assert HashShape(g.rules[g.processes[a].name], known);
    }
  }

  lemma {:induction false} AddKeepsHash(g: Group, known: seq<Identifier>, m: Member, r: Rules)
    requires HashInv(g.processes, g.rules, known) && !g.Has(m.name) && HashShape(r, known)
    ensures var g' := Added(g, m, r); HashInv(g'.processes, g'.rules, known)
  {
    var g' := Added(g, m, r);
    forall a | 0 <= a < |g'.processes| ensures HashShape(g'.rules[g'.processes[a].name], known) {
      assert a < |g.processes| ==> HashShape(g.rules[g.processes[a].name], known);
    }
  }

  lemma {:induction false} RemoveKeepsHash(g: Group, known: seq<Identifier>, i: nat)
    requires HashInv(g.processes, g.rules, known) && i < |g.processes|
    ensures var g' := Removed(g, i); HashInv(g'.processes, g'.rules, known)
  {
    var g' := Removed(g, i);
    forall a | 0 <= a < |g'.processes| ensures HashShape(g'.rules[g'.processes[a].name], known) {
      assert HashShape(g.rules[g.processes[if a < i then a else a + 1].name], known);
    }
  }

  lemma {:induction false} PerformKeepsHash(g: Group, known: seq<Identifier>, op: Op)
    requires HashInv(g.processes, g.rules, known) && ExpectedHash(g, known, op)
    ensures var g' := Perform(HashRule, g, op); HashInv(g'.processes, g'.rules, KnownAfter(known, op))
  {
    match op
    case Add(m, r) =>
      if !g.Has(m.name) {
        AddKeepsHash(g, known, m, r);
      }
    case Remove(name) =>
      if g.Has(name) {
        RemoveKeepsHash(g, known, IndexOf(g, name));
      }
    case Resolve(candidates) =>
      MoreKnown(g, known, candidates);
      if candidates != [] {
        HashKeepsInv(g.processes, g.rules, candidates, candidates);
      }
  }

  /** Over any run with growing candidates, each process has one of the candidates, or a rule that is
      still to be resolved: counting the assignments never raises. */
  lemma {:induction false} HashHoldsOverRuns(g: Group, known: seq<Identifier>, ops: seq<Op>)
    requires HashInv(g.processes, g.rules, known) && AllExpectedHash(g, known, ops)
    ensures var g' := Run(HashRule, g, ops); HashInv(g'.processes, g'.rules, LastKnown(known, ops))
    decreases |ops|
  {
    if ops != [] {
      PerformKeepsHash(g, known, ops[0]);
      HashHoldsOverRuns(Perform(HashRule, g, ops[0]), KnownAfter(known, ops[0]), ops[1..]);
    }
  }

  lemma {:induction false} ResolutionSpreads(g: Group, known: seq<Identifier>, candidates: seq<Identifier>, d: nat)
    requires HashInv(g.processes, g.rules, known)
    requires candidates != [] && UniqueIds(candidates) && forall i :: i in known ==> i in candidates
    requires d >= 1 && SpreadWithin(Load(g.processes, g.rules, candidates), d)
    ensures var g' := Perform(HashRule, g, Resolve(candidates));
            && (forall a :: 0 <= a < |g'.processes| ==> !g'.rules[g'.processes[a].name].hash)
            && SpreadWithin(Load(g'.processes, g'.rules, candidates), d)
  {
    MoreKnown(g, known, candidates);
    HashKeepsInv(g.processes, g.rules, candidates, candidates);
    HashKeepsSpread(g.processes, g.rules, candidates, d);
  }

  /** After any run with growing candidates, the next resolution gives an instance to every process,
      and does not make the spread of the load larger than the greatest of 1 and what it was. */
  lemma {:induction false} HashSpreadsOverRuns(g: Group, known: seq<Identifier>, ops: seq<Op>, candidates: seq<Identifier>, d: nat)
    requires HashInv(g.processes, g.rules, known) && AllExpectedHash(g, known, ops)
    requires candidates != [] && UniqueIds(candidates) && forall i :: i in LastKnown(known, ops) ==> i in candidates
    requires var g' := Run(HashRule, g, ops); d >= 1 && SpreadWithin(Load(g'.processes, g'.rules, candidates), d)
    ensures var g' := Perform(HashRule, Run(HashRule, g, ops), Resolve(candidates));
            && (forall a :: 0 <= a < |g'.processes| ==> !g'.rules[g'.processes[a].name].hash)
            && SpreadWithin(Load(g'.processes, g'.rules, candidates), d)
  {
    HashHoldsOverRuns(g, known, ops);
    ResolutionSpreads(Run(HashRule, g, ops), LastKnown(known, ops), candidates, d);
  }
}
