/** The assignment of instances to the processes of a homogeneous group, with the '@' and '#' rules
    (HomogeneousGroup in supvisors/application.py). */
module HomogeneousGroup {
  import opened SupvisorsTypes
  import opened StableSort

  datatype Member = Member(name: string, index: int)

  /** `at` and `hash` tell that the rule of the process is still to be resolved. */
  datatype Rules = Rules(at: bool, hash: bool, identifiers: seq<Identifier>)

  type RulesMap = map<string, Rules>

  ghost predicate UniqueNames(ms: seq<Member>) {
    forall a, b :: 0 <= a < b < |ms| ==> ms[a].name != ms[b].name
  }

  ghost predicate UniqueIds(ids: seq<Identifier>) {
    forall a, b :: 0 <= a < b < |ids| ==> ids[a] != ids[b]
  }

  ghost predicate GroupValid(ms: seq<Member>, rules: RulesMap) {
    UniqueNames(ms) && forall a :: 0 <= a < |ms| ==> ms[a].name in rules
  }

  // ---- The processes, ordered by process index ----

  function Ranks(ms: seq<Member>): (r: seq<Ranked<Member>>)
    ensures |r| == |ms| && forall a :: 0 <= a < |ms| ==> r[a] == Ranked(ms[a], ms[a].index, 0)
    decreases |ms|
  {
    if ms == [] then []
    else Ranks(ms[..|ms| - 1]) + [Ranked(ms[|ms| - 1], ms[|ms| - 1].index, 0)]
  }

  function Values(rs: seq<Ranked<Member>>): (r: seq<Member>)
    ensures |r| == |rs| && forall a :: 0 <= a < |rs| ==> r[a] == rs[a].value
    decreases |rs|
  {
    if rs == [] then [] else Values(rs[..|rs| - 1]) + [rs[|rs| - 1].value]
  }

  function ByIndex(ms: seq<Member>): (r: seq<Member>)
    ensures |r| == |ms|
  {
    Values(Sorted(Ranks(ms)))
  }

  ghost predicate HasName(rs: seq<Ranked<Member>>, name: string) {
    exists a :: 0 <= a < |rs| && rs[a].value.name == name
  }

  ghost predicate Has(rs: seq<Ranked<Member>>, m: Member) {
    exists a :: 0 <= a < |rs| && rs[a].value == m
  }

  ghost predicate NamesDiffer(rs: seq<Ranked<Member>>) {
    forall a, b :: 0 <= a < b < |rs| ==> rs[a].value.name != rs[b].value.name
  }

  lemma {:induction false} HasAppend(rs: seq<Ranked<Member>>, x: Ranked<Member>, m: Member)
    ensures Has(rs + [x], m) <==> Has(rs, m) || x.value == m
    ensures HasName(rs + [x], m.name) <==> HasName(rs, m.name) || x.value.name == m.name
  {
    var all := rs + [x];
    assert all[|rs|] == x;
    if Has(rs, m) {
      var a :| 0 <= a < |rs| && rs[a].value == m;
      assert all[a].value == m;
    }
    if HasName(rs, m.name) {
      var a :| 0 <= a < |rs| && rs[a].value.name == m.name;
      assert all[a].value.name == m.name;
    }
  }

  lemma {:induction false} InsertHas(s: seq<Ranked<Member>>, x: Ranked<Member>, m: Member)
    ensures Has(Insert(s, x), m) <==> Has(s, m) || x.value == m
    ensures HasName(Insert(s, x), m.name) <==> HasName(s, m.name) || x.value.name == m.name
    decreases |s|
  {
    if s == [] || Leq(s[|s| - 1], x) {
      HasAppend(s, x, m);
    } else {
      var n := |s| - 1;
      InsertHas(s[..n], x, m);
      HasAppend(Insert(s[..n], x), s[n], m);
      HasAppend(s[..n], s[n], m);
      assert s == s[..n] + [s[n]];
    }
  }

  lemma {:induction false} InsertDiffers(s: seq<Ranked<Member>>, x: Ranked<Member>)
    requires NamesDiffer(s) && !HasName(s, x.value.name)
    ensures NamesDiffer(Insert(s, x))
    decreases |s|
  {
    if s != [] && !Leq(s[|s| - 1], x) {
      var n := |s| - 1;
      assert !HasName(s[..n], x.value.name) && !HasName(s[..n], s[n].value.name);
      InsertDiffers(s[..n], x);
      InsertHas(s[..n], x, s[n].value);
    }
  }

  /** Ordering the processes neither adds, removes nor repeats any of them. */
  lemma {:induction false} SortedKeeps(s: seq<Ranked<Member>>, m: Member)
    requires NamesDiffer(s)
    ensures NamesDiffer(Sorted(s)) && (Has(Sorted(s), m) <==> Has(s, m)) && (HasName(Sorted(s), m.name) <==> HasName(s, m.name))
    decreases |s|
  {
    if s != [] {
      var n := |s| - 1;
      assert s == s[..n] + [s[n]];
      SortedKeeps(s[..n], m);
      SortedKeeps(s[..n], s[n].value);
      assert !HasName(s[..n], s[n].value.name);
      InsertHas(Sorted(s[..n]), s[n], m);
      InsertDiffers(Sorted(s[..n]), s[n]);
      HasAppend(s[..n], s[n], m);
    }
  }

  lemma {:induction false} ByIndexKeeps(ms: seq<Member>)
    requires UniqueNames(ms)
    ensures UniqueNames(ByIndex(ms))
    ensures forall m :: m in ByIndex(ms) <==> m in ms
  {
    var ranks := Ranks(ms);
    SortedKeeps(ranks, Member("", 0));
    forall m ensures m in ByIndex(ms) <==> m in ms {
      SortedKeeps(ranks, m);
      assert Has(ranks, m) <==> m in ms;
      assert Has(Sorted(ranks), m) <==> m in ByIndex(ms);
    }
  }

  /** The processes come by increasing index. */
  lemma {:induction false} ByIndexOrdered(ms: seq<Member>, a: nat, b: nat)
    requires a < b < |ms|
    ensures ByIndex(ms)[a].index <= ByIndex(ms)[b].index
  {
    var sorted := Sorted(Ranks(ms));
    SortedIsSorted(Ranks(ms));
    RankIsIndex(ms, a);
    RankIsIndex(ms, b);
    assert Leq(sorted[a], sorted[b]);
    LeqIsIncreasing(sorted[b], sorted[a]);
  }

  lemma {:induction false} RankIsIndex(ms: seq<Member>, a: nat)
    requires a < |ms|
    ensures Sorted(Ranks(ms))[a].first == ByIndex(ms)[a].index
  {
    var l := SortedFrom(Ranks(ms), a);
  }

  /** Sorting brings in nothing. */
  lemma {:induction false} SortedFrom<T>(s: seq<Ranked<T>>, a: nat) returns (l: nat)
    requires a < |s|
    ensures l < |s| && Sorted(s)[a] == s[l]
    decreases |s|
  {
    var n := |s| - 1;
    if InsertedFrom(Sorted(s[..n]), s[n], a) {
      l := n;
    } else {
      var b :| 0 <= b < n && Insert(Sorted(s[..n]), s[n])[a] == Sorted(s[..n])[b];
      l := SortedFrom(s[..n], b);
    }
  }

  /** An element of the result is the inserted one, or one of before. */
  function InsertedFrom<T(==)>(s: seq<Ranked<T>>, x: Ranked<T>, a: nat): (r: bool)
    requires a <= |s|
    ensures if r then Insert(s, x)[a] == x else exists b :: 0 <= b < |s| && Insert(s, x)[a] == s[b]
    decreases |s|
  {
    if s == [] then true
    else if Leq(s[|s| - 1], x) then a == |s|
    else if a == |s| then false
    else InsertedFrom(s[..|s| - 1], x, a)
  }

  // ---- The '@' rule ----

  datatype Kind = AtRule | HashRule

  predicate IsPending(r: Rules, kind: Kind) {
    if kind.AtRule? then r.at else r.hash
  }

  /** The names of the processes whose rule is to be resolved, in order. */
  function Pending(order: seq<Member>, rules: RulesMap, kind: Kind): seq<string>
    requires forall a :: 0 <= a < |order| ==> order[a].name in rules
    decreases |order|
  {
    if order == [] then []
    else
      var last := order[|order| - 1].name;
      Pending(order[..|order| - 1], rules, kind) + if IsPending(rules[last], kind) then [last] else []
  }

  /** The instances that are assigned. */
  function Taken(order: seq<Member>, rules: RulesMap): set<Identifier>
    requires forall a :: 0 <= a < |order| ==> order[a].name in rules
  {
    set a | 0 <= a < |order| && rules[order[a].name].identifiers != [] :: rules[order[a].name].identifiers[0]
  }

  function Free(ids: seq<Identifier>, taken: set<Identifier>): seq<Identifier>
    decreases |ids|
  {
    if ids == [] then []
    else Free(ids[..|ids| - 1], taken) + if ids[|ids| - 1] in taken then [] else [ids[|ids| - 1]]
  }

  function Min(a: nat, b: nat): nat {
    if a < b then a else b
  }

  /** The first `k` pending processes get the first `k` free instances. */
  function AtAssigned(rules: RulesMap, names: seq<string>, ids: seq<Identifier>, k: nat): (r: RulesMap)
    requires k <= |names| && k <= |ids| && forall a :: 0 <= a < |names| ==> names[a] in rules
    ensures r.Keys == rules.Keys
    decreases k
  {
    if k == 0 then rules
    else
      var before := AtAssigned(rules, names, ids, k - 1);
      before[names[k - 1] := before[names[k - 1]].(at := false, identifiers := [ids[k - 1]])]
  }

  function AfterAt(ms: seq<Member>, rules: RulesMap, candidates: seq<Identifier>): (r: RulesMap)
    requires forall a :: 0 <= a < |ms| ==> ms[a].name in rules
    requires forall a :: 0 <= a < |ms| ==> ByIndex(ms)[a].name in rules
  {
    var names := Pending(ByIndex(ms), rules, AtRule);
    var ids := Free(candidates, Taken(ByIndex(ms), rules));
    PendingKnown(ByIndex(ms), rules, AtRule);
    AtAssigned(rules, names, ids, Min(|names|, |ids|))
  }

  lemma {:induction false} PendingKnown(order: seq<Member>, rules: RulesMap, kind: Kind)
    requires forall a :: 0 <= a < |order| ==> order[a].name in rules
    ensures forall a :: 0 <= a < |Pending(order, rules, kind)| ==> Pending(order, rules, kind)[a] in rules
    decreases |order|
  {
    if order != [] {
      PendingKnown(order[..|order| - 1], rules, kind);
    }
  }

  ghost predicate IsNamed(order: seq<Member>, name: string) {
    exists b :: 0 <= b < |order| && order[b].name == name
  }

  lemma {:induction false} PendingHas(order: seq<Member>, rules: RulesMap, kind: Kind, name: string)
    requires forall a :: 0 <= a < |order| ==> order[a].name in rules
    ensures name in Pending(order, rules, kind) <==> (IsNamed(order, name) && name in rules && IsPending(rules[name], kind))
    decreases |order|
  {
    if order != [] {
      var n := |order| - 1;
      PendingHas(order[..n], rules, kind, name);
      assert IsNamed(order, name) <==> (IsNamed(order[..n], name) || order[n].name == name) by {
        assert forall b :: 0 <= b < n ==> order[..n][b] == order[b];
      }
    }
  }

  lemma {:induction false} PendingDiffer(order: seq<Member>, rules: RulesMap, kind: Kind)
    requires UniqueNames(order) && forall a :: 0 <= a < |order| ==> order[a].name in rules
    ensures forall a, b :: 0 <= a < b < |Pending(order, rules, kind)| ==> Pending(order, rules, kind)[a] != Pending(order, rules, kind)[b]
    decreases |order|
  {
    if order != [] {
      var n := |order| - 1;
      PendingDiffer(order[..n], rules, kind);
      PendingHas(order[..n], rules, kind, order[n].name);
      assert !IsNamed(order[..n], order[n].name);
      var before := Pending(order[..n], rules, kind);
      forall a | 0 <= a < |before| ensures before[a] != order[n].name {
        assert before[a] in before;
      }
    }
  }

  lemma {:induction false} FreeIs(ids: seq<Identifier>, taken: set<Identifier>)
    requires UniqueIds(ids)
    ensures forall i :: i in Free(ids, taken) <==> i in ids && i !in taken
    ensures UniqueIds(Free(ids, taken))
    decreases |ids|
  {
    if ids != [] {
      var n := |ids| - 1;
      FreeIs(ids[..n], taken);
      assert forall i :: i in ids <==> i in ids[..n] || i == ids[n];
      var before := Free(ids[..n], taken);
      forall a | 0 <= a < |before| ensures before[a] != ids[n] {
        assert before[a] in before;
      }
    }
  }

  /** The free instances keep the order of the candidates. */
  lemma {:induction false} FreeInOrder(ids: seq<Identifier>, taken: set<Identifier>, a: nat, b: nat) returns (x: nat, y: nat)
    requires a < b < |Free(ids, taken)|
    ensures x < y < |ids| && Free(ids, taken)[a] == ids[x] && Free(ids, taken)[b] == ids[y]
    decreases |ids|
  {
    var n := |ids| - 1;
    var before := Free(ids[..n], taken);
    if b < |before| {
      x, y := FreeInOrder(ids[..n], taken, a, b);
    } else {
      y := n;
      x := FreeFrom(ids[..n], taken, a);
    }
  }

  lemma {:induction false} FreeFrom(ids: seq<Identifier>, taken: set<Identifier>, a: nat) returns (x: nat)
    requires a < |Free(ids, taken)|
    ensures x < |ids| && Free(ids, taken)[a] == ids[x]
    decreases |ids|
  {
    var n := |ids| - 1;
    if a < |Free(ids[..n], taken)| {
      x := FreeFrom(ids[..n], taken, a);
    } else {
      x := n;
    }
  }

  lemma {:induction false} NotBefore(names: seq<string>, k: nat)
    requires k < |names| && forall a, b :: 0 <= a < b < |names| ==> names[a] != names[b]
    ensures names[k] !in names[..k]
  {
    assert forall a :: 0 <= a < k ==> names[..k][a] == names[a];
  }

  /** What the resolution changes: these processes get these instances, and nothing else. */
  lemma {:induction false} AtAssignedIs(rules: RulesMap, names: seq<string>, ids: seq<Identifier>, k: nat, name: string)
    requires k <= |names| && k <= |ids| && forall a :: 0 <= a < |names| ==> names[a] in rules
    requires (forall a, b :: 0 <= a < b < |names| ==> names[a] != names[b]) && name in rules
    ensures forall a :: 0 <= a < k && names[a] == name ==>
              AtAssigned(rules, names, ids, k)[name] == rules[name].(at := false, identifiers := [ids[a]])
    ensures name !in names[..k] ==> AtAssigned(rules, names, ids, k)[name] == rules[name]
    decreases k
  {
    if k > 0 {
      AtAssignedIs(rules, names, ids, k - 1, name);
      assert names[..k] == names[..k - 1] + [names[k - 1]];
      NotBefore(names, k - 1);
    }
  }

  /** Every process has one instance or an '@' rule to be resolved. */
  ghost predicate AtShape(rules: RulesMap, name: string)
    requires name in rules
  {
    if rules[name].at then rules[name].identifiers == [] else |rules[name].identifiers| == 1
  }

  ghost predicate AtInv(ms: seq<Member>, rules: RulesMap) {
    && GroupValid(ms, rules)
    && (forall a :: 0 <= a < |ms| ==> AtShape(rules, ms[a].name))
    && (forall a, b :: 0 <= a < |ms| && 0 <= b < |ms| && a != b && !rules[ms[a].name].at && !rules[ms[b].name].at ==>
          rules[ms[a].name].identifiers != rules[ms[b].name].identifiers)
  }

  lemma {:induction false} ByIndexKnown(ms: seq<Member>, rules: RulesMap)
    requires GroupValid(ms, rules)
    ensures forall a :: 0 <= a < |ms| ==> ByIndex(ms)[a].name in rules
  {
    ByIndexKeeps(ms);
    forall a | 0 <= a < |ms| ensures ByIndex(ms)[a].name in rules {
      assert ByIndex(ms)[a] in ms;
    }
  }

  /** What one process gets. */
  ghost predicate AtOutcome(ms: seq<Member>, rules: RulesMap, candidates: seq<Identifier>, name: string)
    requires GroupValid(ms, rules) && name in rules
  {
    ByIndexKnown(ms, rules);
    var names := Pending(ByIndex(ms), rules, AtRule);
    var ids := Free(candidates, Taken(ByIndex(ms), rules));
    var k := Min(|names|, |ids|);
    var rules' := AfterAt(ms, rules, candidates);
    && name in rules'
    && (forall a :: 0 <= a < k && names[a] == name ==> rules'[name] == rules[name].(at := false, identifiers := [ids[a]]))
    && (name !in names[..k] ==> rules'[name] == rules[name])
  }

  /** Each resolution assigns exactly as many processes as it can: the first pending ones by index
      get the first free candidates, in the order of the candidates; the others do not change. */
  lemma {:induction false} AtAssignsInOrder(ms: seq<Member>, rules: RulesMap, candidates: seq<Identifier>)
    requires GroupValid(ms, rules) && UniqueIds(candidates)
    ensures forall name :: name in rules ==> AtOutcome(ms, rules, candidates, name)
  {
    ByIndexKnown(ms, rules);
    ByIndexKeeps(ms);
    var names := Pending(ByIndex(ms), rules, AtRule);
    var ids := Free(candidates, Taken(ByIndex(ms), rules));
    PendingKnown(ByIndex(ms), rules, AtRule);
    PendingDiffer(ByIndex(ms), rules, AtRule);
    forall name | name in rules ensures AtOutcome(ms, rules, candidates, name) {
      AtAssignedIs(rules, names, ids, Min(|names|, |ids|), name);
    }
  }

  /** The instance that a process gets is free, and belongs to the candidates. */
  lemma {:induction false} AtNewIsFree(ms: seq<Member>, rules: RulesMap, candidates: seq<Identifier>, name: string) returns (a: nat)
    requires AtInv(ms, rules) && UniqueIds(candidates) && name in rules
    requires name in AtResolved(ms, rules, candidates) && rules[name].at && !AtResolved(ms, rules, candidates)[name].at
    ensures var ids := Free(candidates, TakenBy(ms, rules));
            && a < |ids| && AtResolved(ms, rules, candidates)[name].identifiers == [ids[a]]
            && ids[a] in candidates && ids[a] !in TakenBy(ms, rules)
            && a < |PendingOf(ms, rules)| && PendingOf(ms, rules)[a] == name
  {
    AtAssignsInOrder(ms, rules, candidates);
    assert AtOutcome(ms, rules, candidates, name);
    var names, ids := PendingOf(ms, rules), Free(candidates, TakenBy(ms, rules));
    var k := Min(|names|, |ids|);
    assert name in names[..k];
    a :| 0 <= a < k && names[a] == name;
    FreeIs(candidates, TakenBy(ms, rules));
    assert ids[a] in ids;
  }

  ghost function AtResolved(ms: seq<Member>, rules: RulesMap, candidates: seq<Identifier>): RulesMap
    requires GroupValid(ms, rules)
  {
    ByIndexKnown(ms, rules);
    AfterAt(ms, rules, candidates)
  }

  ghost function TakenBy(ms: seq<Member>, rules: RulesMap): set<Identifier>
    requires GroupValid(ms, rules)
  {
    ByIndexKnown(ms, rules);
    Taken(ByIndex(ms), rules)
  }

  ghost function PendingOf(ms: seq<Member>, rules: RulesMap): seq<string>
    requires GroupValid(ms, rules)
  {
    ByIndexKnown(ms, rules);
    Pending(ByIndex(ms), rules, AtRule)
  }

  lemma {:induction false} ResolvedIsTaken(ms: seq<Member>, rules: RulesMap, b: nat)
    requires AtInv(ms, rules) && b < |ms| && !rules[ms[b].name].at
    ensures rules[ms[b].name].identifiers[0] in TakenBy(ms, rules)
  {
    ByIndexKeeps(ms);
    ByIndexKnown(ms, rules);
    assert AtShape(rules, ms[b].name);
    assert ms[b] in ByIndex(ms);
    var c :| 0 <= c < |ms| && ByIndex(ms)[c] == ms[b];
  }

  /** Assigned instances stay pairwise distinct, and an assignment is never changed. */
  lemma {:induction false} AtKeepsInv(ms: seq<Member>, rules: RulesMap, candidates: seq<Identifier>)
    requires AtInv(ms, rules) && UniqueIds(candidates)
    ensures var rules' := AtResolved(ms, rules, candidates);
            && AtInv(ms, rules')
            && forall name :: name in rules && !rules[name].at ==> rules'[name] == rules[name]
  {
    var rules' := AtResolved(ms, rules, candidates);
    AtAssignsInOrder(ms, rules, candidates);
    forall name | name in rules && !rules[name].at ensures rules'[name] == rules[name] {
      assert AtOutcome(ms, rules, candidates, name);
      NotPending(ms, rules, name);
    }
    forall a | 0 <= a < |ms| ensures AtShape(rules', ms[a].name) {
      var name := ms[a].name;
      assert AtShape(rules, name) && AtOutcome(ms, rules, candidates, name);
      if rules[name].at && !rules'[name].at {
        var l := AtNewIsFree(ms, rules, candidates, name);
      }
    }
    forall a, b | 0 <= a < |ms| && 0 <= b < |ms| && a != b && !rules'[ms[a].name].at && !rules'[ms[b].name].at
      ensures rules'[ms[a].name].identifiers != rules'[ms[b].name].identifiers
    {
      AtPairDiffers(ms, rules, candidates, a, b);
    }
  }

  lemma {:induction false} NotPending(ms: seq<Member>, rules: RulesMap, name: string)
    requires GroupValid(ms, rules) && name in rules && !rules[name].at
    ensures name !in PendingOf(ms, rules)
  {
    ByIndexKnown(ms, rules);
    PendingHas(ByIndex(ms), rules, AtRule, name);
  }

  /** A resolved process keeps its instance, which is taken; another one gets a free instance. */
  lemma {:induction false} AtFate(ms: seq<Member>, rules: RulesMap, candidates: seq<Identifier>, b: nat) returns (l: nat)
    requires AtInv(ms, rules) && UniqueIds(candidates) && b < |ms|
    requires ms[b].name in AtResolved(ms, rules, candidates) && !AtResolved(ms, rules, candidates)[ms[b].name].at
    ensures var x, ids := AtResolved(ms, rules, candidates)[ms[b].name].identifiers, Free(candidates, TakenBy(ms, rules));
            |x| == 1 &&
            if rules[ms[b].name].at then
              l < |ids| && l < |PendingOf(ms, rules)| && x == [ids[l]] && x[0] !in TakenBy(ms, rules)
              && PendingOf(ms, rules)[l] == ms[b].name
            else x == rules[ms[b].name].identifiers && x[0] in TakenBy(ms, rules)
  {
    var name := ms[b].name;
    l := 0;
    if rules[name].at {
      l := AtNewIsFree(ms, rules, candidates, name);
    } else {
      assert AtShape(rules, name);
      AtAssignsInOrder(ms, rules, candidates);
      assert AtOutcome(ms, rules, candidates, name);
      NotPending(ms, rules, name);
      ResolvedIsTaken(ms, rules, b);
    }
  }

  lemma {:induction false} AtPairDiffers(ms: seq<Member>, rules: RulesMap, candidates: seq<Identifier>, a: nat, b: nat)
    requires AtInv(ms, rules) && UniqueIds(candidates) && a < |ms| && b < |ms| && a != b
    requires AtResolved(ms, rules, candidates).Keys == rules.Keys
    requires !AtResolved(ms, rules, candidates)[ms[a].name].at && !AtResolved(ms, rules, candidates)[ms[b].name].at
    ensures AtResolved(ms, rules, candidates)[ms[a].name].identifiers != AtResolved(ms, rules, candidates)[ms[b].name].identifiers
  {
    var rules' := AtResolved(ms, rules, candidates);
    var x, y := rules'[ms[a].name].identifiers, rules'[ms[b].name].identifiers;
    var l := AtFate(ms, rules, candidates, a);
    var m := AtFate(ms, rules, candidates, b);
    assert ms[a].name != ms[b].name;
    if rules[ms[a].name].at && rules[ms[b].name].at {
      FreeIs(candidates, TakenBy(ms, rules));
      assert l != m;
      var ids := Free(candidates, TakenBy(ms, rules));
      assert ids[l] != ids[m];
    } else if rules[ms[a].name].at || rules[ms[b].name].at {
      assert x[0] in TakenBy(ms, rules) <==> y[0] !in TakenBy(ms, rules);
    } else {
      assert rules[ms[a].name].identifiers != rules[ms[b].name].identifiers;
    }
  }

  // ---- The '#' rule: the greedy choice ----

  /** The first of the least loaded candidates. */
  function LeastLoaded(counts: seq<nat>): (i: nat)
    requires counts != []
    ensures i < |counts|
    ensures forall j :: 0 <= j < |counts| ==> counts[i] <= counts[j]
    ensures forall j :: 0 <= j < i ==> counts[i] < counts[j]
    decreases |counts|
  {
    if |counts| == 1 then 0
    else
      var n := |counts| - 1;
      var best := LeastLoaded(counts[..n]);
      if counts[n] < counts[best] then n else best
  }

  /** The counts after `k` assignments. */
  function CountsAfter(counts: seq<nat>, k: nat): (r: seq<nat>)
    requires counts != []
    ensures |r| == |counts|
    decreases k
  {
    if k == 0 then counts
    else
      var before := CountsAfter(counts, k - 1);
      var i := LeastLoaded(before);
      before[i := before[i] + 1]
  }

  /** The candidate of assignment number `k`, from 0. */
  function Choice(counts: seq<nat>, k: nat): (i: nat)
    requires counts != []
    ensures i < |counts|
  {
    LeastLoaded(CountsAfter(counts, k))
  }

  ghost predicate SpreadWithin(counts: seq<nat>, d: nat) {
    forall i, j :: 0 <= i < |counts| && 0 <= j < |counts| ==> counts[i] <= counts[j] + d
  }

  /** The spread of the counts never becomes larger than the greatest of 1 and what it was. */
  lemma {:induction false} SpreadNeverGrows(counts: seq<nat>, d: nat, k: nat)
    requires counts != [] && SpreadWithin(counts, d) && d >= 1
    ensures SpreadWithin(CountsAfter(counts, k), d)
    decreases k
  {
    if k > 0 {
      SpreadNeverGrows(counts, d, k - 1);
      var before := CountsAfter(counts, k - 1);
      var i := LeastLoaded(before);
      forall j | 0 <= j < |before| ensures before[i] <= before[j] {
      }
    }
  }

  /** Turn after turn: the quotient and the remainder of `k` by the number of candidates. */
  function Turn(n: nat, k: nat): (r: (nat, nat))
    requires n > 0
    ensures r.1 < n
    decreases k
  {
    if k == 0 then (0, 0)
    else
      var before := Turn(n, k - 1);
      if before.1 + 1 == n then (before.0 + 1, 0) else (before.0, before.1 + 1)
  }

  lemma {:induction false} TurnIsDivision(n: nat, k: nat)
    requires n > 0
    ensures Turn(n, k).1 == k % n
    decreases k
  {
    if k > 0 {
      TurnIsDivision(n, k - 1);
      NextRemainder(n, k - 1);
    }
  }

  lemma {:induction false} NextRemainder(n: nat, k: nat)
    requires n > 0
    ensures (k + 1) % n == if k % n + 1 == n then 0 else k % n + 1
  {
    var q, r := k / n, k % n;
    assert k == q * n + r;
    if r + 1 == n {
      assert k + 1 == (q + 1) * n;
      Quotient(n, q + 1, 0, k + 1);
    } else {
      assert k + 1 == q * n + (r + 1);
      Quotient(n, q, r + 1, k + 1);
    }
  }

  lemma {:induction false} Quotient(n: nat, p: nat, r: nat, y: nat)
    requires r < n && y == p * n + r
    ensures y % n == r
  {
    var a, b := y / n, y % n;
    assert y == a * n + b && b < n;
    if a < p {
      assert a + 1 <= p;
      assert (a + 1) * n <= p * n by { Monotone(a + 1, p, n); }
    } else if p < a {
      assert (p + 1) * n <= a * n by { Monotone(p + 1, a, n); }
    }
  }

  lemma {:induction false} Monotone(a: nat, b: nat, n: nat)
    requires a <= b
    ensures a * n <= b * n
  {
  }

  /** The counts in the middle of a turn. */
  ghost predicate IsTurn(c: seq<nat>, q: nat, r: nat) {
    r < |c| && forall j :: 0 <= j < |c| ==> c[j] == if j < r then q + 1 else q
  }

  lemma {:induction false} LeastInTurn(c: seq<nat>, q: nat, r: nat)
    requires IsTurn(c, q, r)
    ensures LeastLoaded(c) == r
  {
    assert c[r] == q && c[LeastLoaded(c)] <= c[r];
  }

  /** From no assignment, the counts differ by one at most, and the first candidates are ahead. */
  lemma {:induction false} CountsFromEmpty(n: nat, k: nat)
    requires n > 0
    ensures IsTurn(CountsAfter(Zeros(n), k), Turn(n, k).0, Turn(n, k).1)
    decreases k
  {
    if k > 0 {
      CountsFromEmpty(n, k - 1);
      LeastInTurn(CountsAfter(Zeros(n), k - 1), Turn(n, k - 1).0, Turn(n, k - 1).1);
    }
  }

  function Zeros(n: nat): (r: seq<nat>)
    ensures |r| == n && forall j :: 0 <= j < n ==> r[j] == 0
  {
    if n == 0 then [] else Zeros(n - 1) + [0]
  }

  /** From no assignment, the processes go to the candidates in turn. */
  lemma {:induction false} RoundRobin(n: nat, k: nat)
    requires n > 0
    ensures Choice(Zeros(n), k) == k % n
  {
    CountsFromEmpty(n, k);
    TurnIsDivision(n, k);
    LeastInTurn(CountsAfter(Zeros(n), k), Turn(n, k).0, Turn(n, k).1);
  }

  // ---- The '#' rule: the resolution ----

  /** How many processes are assigned to an instance. */
  function CountOn(order: seq<Member>, rules: RulesMap, i: Identifier): nat
    requires forall a :: 0 <= a < |order| ==> order[a].name in rules
    decreases |order|
  {
    if order == [] then 0
    else
      var ids := rules[order[|order| - 1].name].identifiers;
      CountOn(order[..|order| - 1], rules, i) + if ids != [] && ids[0] == i then 1 else 0
  }

  function Counts(order: seq<Member>, rules: RulesMap, candidates: seq<Identifier>): (r: seq<nat>)
    requires forall a :: 0 <= a < |order| ==> order[a].name in rules
    ensures |r| == |candidates| && forall j :: 0 <= j < |r| ==> r[j] == CountOn(order, rules, candidates[j])
    decreases |candidates|
  {
    if candidates == [] then []
    else Counts(order, rules, candidates[..|candidates| - 1]) + [CountOn(order, rules, candidates[|candidates| - 1])]
  }

  /** The first `k` pending processes get the choices of the greedy loop. */
  function HashAssigned(rules: RulesMap, names: seq<string>, candidates: seq<Identifier>, counts: seq<nat>, k: nat): (r: RulesMap)
    requires k <= |names| && |counts| == |candidates| > 0 && forall a :: 0 <= a < |names| ==> names[a] in rules
    ensures r.Keys == rules.Keys
    decreases k
  {
    if k == 0 then rules
    else
      var before := HashAssigned(rules, names, candidates, counts, k - 1);
      var i := candidates[Choice(counts, k - 1)];
      before[names[k - 1] := before[names[k - 1]].(hash := false, identifiers := [i])]
  }

  lemma {:induction false} CountAssigned(order: seq<Member>, rules: RulesMap, name: string, i: Identifier, j: Identifier)
    requires UniqueNames(order) && forall a :: 0 <= a < |order| ==> order[a].name in rules
    requires name in rules && rules[name].identifiers == []
    ensures var rules' := rules[name := rules[name].(hash := false, identifiers := [i])];
            CountOn(order, rules', j) == CountOn(order, rules, j) +
              if IsNamed(order, name) && i == j then 1 else 0
    decreases |order|
  {
    if order != [] {
      var n := |order| - 1;
      CountAssigned(order[..n], rules, name, i, j);
      if order[n].name == name {
        assert forall a :: 0 <= a < n ==> order[..n][a].name != name;
      } else if IsNamed(order, name) {
        var a :| 0 <= a < |order| && order[a].name == name;
        assert order[..n][a].name == name;
      } else {
        assert forall a :: 0 <= a < n ==> order[..n][a].name != name;
      }
    }
  }

  lemma {:induction false} HashKept(rules: RulesMap, names: seq<string>, candidates: seq<Identifier>, counts: seq<nat>, k: nat, name: string)
    requires k <= |names| && |counts| == |candidates| > 0 && forall a :: 0 <= a < |names| ==> names[a] in rules
    requires name in rules && forall a :: 0 <= a < k ==> names[a] != name
    ensures HashAssigned(rules, names, candidates, counts, k)[name] == rules[name]
    decreases k
  {
    if k > 0 {
      HashKept(rules, names, candidates, counts, k - 1, name);
    }
  }

  lemma {:induction false} HashGiven(rules: RulesMap, names: seq<string>, candidates: seq<Identifier>, counts: seq<nat>, k: nat, a: nat)
    requires a < k <= |names| && |counts| == |candidates| > 0 && forall a :: 0 <= a < |names| ==> names[a] in rules
    requires forall a, b :: 0 <= a < b < |names| ==> names[a] != names[b]
    ensures HashAssigned(rules, names, candidates, counts, k)[names[a]]
            == rules[names[a]].(hash := false, identifiers := [candidates[Choice(counts, a)]])
    decreases k
  {
    if a == k - 1 {
      HashKept(rules, names, candidates, counts, a, names[a]);
    } else {
      HashGiven(rules, names, candidates, counts, k - 1, a);
    }
  }

  lemma {:induction false} HashUntouched(rules: RulesMap, names: seq<string>, candidates: seq<Identifier>, counts: seq<nat>, k: nat, name: string)
    requires k <= |names| && |counts| == |candidates| > 0 && forall a :: 0 <= a < |names| ==> names[a] in rules
    requires (forall a, b :: 0 <= a < b < |names| ==> names[a] != names[b]) && name in rules
    ensures forall a :: 0 <= a < k && names[a] == name ==>
              HashAssigned(rules, names, candidates, counts, k)[name]
              == rules[name].(hash := false, identifiers := [candidates[Choice(counts, a)]])
    ensures name !in names[..k] ==> HashAssigned(rules, names, candidates, counts, k)[name] == rules[name]
  {
    forall a | 0 <= a < k && names[a] == name
      ensures HashAssigned(rules, names, candidates, counts, k)[name]
              == rules[name].(hash := false, identifiers := [candidates[Choice(counts, a)]])
    {
      HashGiven(rules, names, candidates, counts, k, a);
    }
    if name !in names[..k] {
      assert forall a :: 0 <= a < k ==> names[a] in names[..k];
      HashKept(rules, names, candidates, counts, k, name);
    }
  }

  /** One more assignment. */
  lemma {:induction false} HashCountStep(order: seq<Member>, rules: RulesMap, names: seq<string>, candidates: seq<Identifier>,
                                         counts: seq<nat>, k: nat, j: nat)
    requires UniqueNames(order) && (forall a :: 0 <= a < |order| ==> order[a].name in rules) && UniqueIds(candidates)
    requires |counts| == |candidates| && j < |candidates| && k < |names| && forall a :: 0 <= a < |names| ==> names[a] in rules
    requires (forall a :: 0 <= a < k ==> names[a] != names[k]) && IsNamed(order, names[k]) && rules[names[k]].identifiers == []
    ensures CountOn(order, HashAssigned(rules, names, candidates, counts, k + 1), candidates[j]) ==
            CountOn(order, HashAssigned(rules, names, candidates, counts, k), candidates[j]) + if Choice(counts, k) == j then 1 else 0
  {
    HashKept(rules, names, candidates, counts, k, names[k]);
    var c := Choice(counts, k);
    CountAssigned(order, HashAssigned(rules, names, candidates, counts, k), names[k], candidates[c], candidates[j]);
    assert candidates[c] == candidates[j] <==> c == j;
  }

  /** The counts of the loop are the counts of the assignments. */
  lemma {:induction false} HashCountsOf(order: seq<Member>, rules: RulesMap, names: seq<string>, candidates: seq<Identifier>,
                                        counts: seq<nat>, k: nat, j: nat)
    requires UniqueNames(order) && (forall a :: 0 <= a < |order| ==> order[a].name in rules) && UniqueIds(candidates)
    requires |counts| == |candidates| && j < |candidates| && k <= |names| && counts[j] == CountOn(order, rules, candidates[j])
    requires forall a :: 0 <= a < |names| ==> names[a] in rules && rules[names[a]].identifiers == [] && IsNamed(order, names[a])
    requires forall a, b :: 0 <= a < b < |names| ==> names[a] != names[b]
    ensures CountOn(order, HashAssigned(rules, names, candidates, counts, k), candidates[j]) == CountsAfter(counts, k)[j]
    decreases k
  {
    if k > 0 {
      var n: nat := k - 1;
      HashCountsOf(order, rules, names, candidates, counts, n, j);
      OneMoreOnBoth(order, rules, names, candidates, counts, n, j);
      assert k == n + 1;
    }
  }

  lemma {:induction false} OneMoreOnBoth(order: seq<Member>, rules: RulesMap, names: seq<string>, candidates: seq<Identifier>,
                                         counts: seq<nat>, k: nat, j: nat)
    requires UniqueNames(order) && (forall a :: 0 <= a < |order| ==> order[a].name in rules) && UniqueIds(candidates)
    requires |counts| == |candidates| && j < |candidates| && k < |names| && forall a :: 0 <= a < |names| ==> names[a] in rules
    requires (forall a :: 0 <= a < k ==> names[a] != names[k]) && IsNamed(order, names[k]) && rules[names[k]].identifiers == []
    requires CountOn(order, HashAssigned(rules, names, candidates, counts, k), candidates[j]) == CountsAfter(counts, k)[j]
    ensures CountOn(order, HashAssigned(rules, names, candidates, counts, k + 1), candidates[j]) == CountsAfter(counts, k + 1)[j]
  {
    HashCountStep(order, rules, names, candidates, counts, k, j);
    CountsStep(counts, k, j);
  }

  lemma {:induction false} CountsStep(counts: seq<nat>, k: nat, j: nat)
    requires j < |counts|
    ensures CountsAfter(counts, k + 1)[j] == CountsAfter(counts, k)[j] + if Choice(counts, k) == j then 1 else 0
  {
  }

  lemma {:induction false} PendingUnassigned(order: seq<Member>, rules: RulesMap, a: nat)
    requires forall b :: 0 <= b < |order| ==> order[b].name in rules
    requires forall b :: 0 <= b < |order| && rules[order[b].name].hash ==> rules[order[b].name].identifiers == []
    requires a < |Pending(order, rules, HashRule)|
    ensures var name := Pending(order, rules, HashRule)[a];
            name in rules && rules[name].identifiers == [] && IsNamed(order, name)
  {
    var names := Pending(order, rules, HashRule);
    PendingHas(order, rules, HashRule, names[a]);
    assert names[a] in names;
    var b :| 0 <= b < |order| && order[b].name == names[a];
  }

  lemma {:induction false} HashCounts(order: seq<Member>, rules: RulesMap, candidates: seq<Identifier>, k: nat, j: nat)
    requires UniqueNames(order) && (forall a :: 0 <= a < |order| ==> order[a].name in rules) && UniqueIds(candidates)
    requires forall a :: 0 <= a < |order| && rules[order[a].name].hash ==> rules[order[a].name].identifiers == []
    requires k <= |Pending(order, rules, HashRule)| && j < |candidates|
    requires forall a :: 0 <= a < |Pending(order, rules, HashRule)| ==> Pending(order, rules, HashRule)[a] in rules
    ensures var names, counts := Pending(order, rules, HashRule), Counts(order, rules, candidates);
            CountOn(order, HashAssigned(rules, names, candidates, counts, k), candidates[j]) == CountsAfter(counts, k)[j]
  {
    var names := Pending(order, rules, HashRule);
    forall a | 0 <= a < |names| ensures names[a] in rules && rules[names[a]].identifiers == [] && IsNamed(order, names[a]) {
      PendingUnassigned(order, rules, a);
    }
    PendingDiffer(order, rules, HashRule);
    HashCountsOf(order, rules, names, candidates, Counts(order, rules, candidates), k, j);
  }

  /** Every process has one of the candidates, or a '#' rule to be resolved. */
  ghost predicate HashInv(ms: seq<Member>, rules: RulesMap, candidates: seq<Identifier>) {
    && GroupValid(ms, rules)
    && (forall a :: 0 <= a < |ms| ==> HashShape(rules[ms[a].name], candidates))
  }

  predicate HashShape(r: Rules, candidates: seq<Identifier>) {
    if r.hash then r.identifiers == [] else |r.identifiers| == 1 && r.identifiers[0] in candidates
  }

  ghost function HashResolved(ms: seq<Member>, rules: RulesMap, candidates: seq<Identifier>): (r: RulesMap)
    requires GroupValid(ms, rules) && candidates != []
    ensures r.Keys == rules.Keys
  {
    ByIndexKnown(ms, rules);
    PendingKnown(ByIndex(ms), rules, HashRule);
    var names, counts := Pending(ByIndex(ms), rules, HashRule), Counts(ByIndex(ms), rules, candidates);
    HashAssigned(rules, names, candidates, counts, |names|)
  }

  /** How many processes each candidate has. */
  ghost function Load(ms: seq<Member>, rules: RulesMap, candidates: seq<Identifier>): (r: seq<nat>)
    requires GroupValid(ms, rules)
    ensures |r| == |candidates|
  {
    ByIndexKnown(ms, rules);
    Counts(ByIndex(ms), rules, candidates)
  }

  lemma {:induction false} HashLoad(ms: seq<Member>, rules: RulesMap, candidates: seq<Identifier>)
    requires HashInv(ms, rules, candidates) && candidates != [] && UniqueIds(candidates)
    ensures Load(ms, HashResolved(ms, rules, candidates), candidates) ==
            CountsAfter(Load(ms, rules, candidates), |HashPending(ms, rules)|)
  {
    ByIndexKnown(ms, rules);
    ByIndexKeeps(ms);
    PendingKnown(ByIndex(ms), rules, HashRule);
    forall a | 0 <= a < |ms| && rules[ByIndex(ms)[a].name].hash ensures rules[ByIndex(ms)[a].name].identifiers == [] {
      assert ByIndex(ms)[a] in ms;
      var b :| 0 <= b < |ms| && ms[b] == ByIndex(ms)[a];
      assert HashShape(rules[ms[b].name], candidates);
    }
    var k := |HashPending(ms, rules)|;
    forall j | 0 <= j < |candidates|
      ensures Load(ms, HashResolved(ms, rules, candidates), candidates)[j] == CountsAfter(Load(ms, rules, candidates), k)[j]
    {
      HashCounts(ByIndex(ms), rules, candidates, k, j);
    }
  }

  ghost function HashPending(ms: seq<Member>, rules: RulesMap): seq<string>
    requires GroupValid(ms, rules)
  {
    ByIndexKnown(ms, rules);
    Pending(ByIndex(ms), rules, HashRule)
  }

  /** A resolution never makes the spread of the load larger than the greatest of 1 and what it
      was for the candidates known by then. */
  lemma {:induction false} HashKeepsSpread(ms: seq<Member>, rules: RulesMap, candidates: seq<Identifier>, d: nat)
    requires HashInv(ms, rules, candidates) && candidates != [] && UniqueIds(candidates)
    requires d >= 1 && SpreadWithin(Load(ms, rules, candidates), d)
    ensures SpreadWithin(Load(ms, HashResolved(ms, rules, candidates), candidates), d)
  {
    HashLoad(ms, rules, candidates);
    SpreadNeverGrows(Load(ms, rules, candidates), d, |HashPending(ms, rules)|);
  }

  lemma {:induction false} HashFate(ms: seq<Member>, rules: RulesMap, candidates: seq<Identifier>, name: string)
    requires GroupValid(ms, rules) && candidates != [] && name in rules
    ensures var rules', names := HashResolved(ms, rules, candidates), HashPending(ms, rules);
            && (forall a :: 0 <= a < |names| && names[a] == name ==>
                  rules'[name] == rules[name].(hash := false, identifiers := [candidates[Choice(Load(ms, rules, candidates), a)]]))
            && (name !in names ==> rules'[name] == rules[name])
  {
    ByIndexKnown(ms, rules);
    ByIndexKeeps(ms);
    PendingKnown(ByIndex(ms), rules, HashRule);
    PendingDiffer(ByIndex(ms), rules, HashRule);
    var names := HashPending(ms, rules);
    HashUntouched(rules, names, candidates, Load(ms, rules, candidates), |names|, name);
    assert names[..|names|] == names;
  }

  lemma {:induction false} HashPendingHas(ms: seq<Member>, rules: RulesMap, name: string)
    requires GroupValid(ms, rules)
    ensures name in HashPending(ms, rules) ==> name in rules && rules[name].hash
    ensures IsNamed(ms, name) && name in rules && rules[name].hash ==> name in HashPending(ms, rules)
  {
    ByIndexKnown(ms, rules);
    PendingHas(ByIndex(ms), rules, HashRule, name);
    if IsNamed(ms, name) {
      ByIndexKeeps(ms);
      var a :| 0 <= a < |ms| && ms[a].name == name;
      assert ms[a] in ByIndex(ms);
    }
  }

  /** An assigned process keeps its instance, and a pending one gets one of the candidates. */
  lemma {:induction false} HashGives(ms: seq<Member>, rules: RulesMap, candidates: seq<Identifier>, name: string)
    requires GroupValid(ms, rules) && candidates != [] && name in rules
    ensures var rules' := HashResolved(ms, rules, candidates);
            && (!rules[name].hash ==> rules'[name] == rules[name])
            && (rules[name].hash && IsNamed(ms, name) ==>
                  !rules'[name].hash && |rules'[name].identifiers| == 1 && rules'[name].identifiers[0] in candidates)
  {
    HashFate(ms, rules, candidates, name);
    HashPendingHas(ms, rules, name);
    var names := HashPending(ms, rules);
    if name in names {
      var l :| 0 <= l < |names| && names[l] == name;
      assert candidates[Choice(Load(ms, rules, candidates), l)] in candidates;
    }
  }

  /** Every process gets an instance, and an assignment is never changed; the candidates may grow
      before the next resolution. */
  lemma {:induction false} HashKeepsInv(ms: seq<Member>, rules: RulesMap, candidates: seq<Identifier>, later: seq<Identifier>)
    requires HashInv(ms, rules, candidates) && candidates != [] && forall i :: i in candidates ==> i in later
    ensures var rules' := HashResolved(ms, rules, candidates);
            && HashInv(ms, rules', later)
            && (forall a :: 0 <= a < |ms| ==> !rules'[ms[a].name].hash)
            && (forall name :: name in rules && !rules[name].hash ==> rules'[name] == rules[name])
  {
    var rules' := HashResolved(ms, rules, candidates);
    forall name | name in rules && !rules[name].hash ensures rules'[name] == rules[name] {
      HashGives(ms, rules, candidates, name);
    }
    forall a | 0 <= a < |ms| ensures HashShape(rules'[ms[a].name], later) && !rules'[ms[a].name].hash {
      assert IsNamed(ms, ms[a].name) && HashShape(rules[ms[a].name], candidates);
      HashGives(ms, rules, candidates, ms[a].name);
    }
  }

  lemma {:induction false} AllPending(order: seq<Member>, rules: RulesMap, candidates: seq<Identifier>)
    requires forall a :: 0 <= a < |order| ==> order[a].name in rules
    requires forall a :: 0 <= a < |order| ==> rules[order[a].name].hash && rules[order[a].name].identifiers == []
    ensures |Pending(order, rules, HashRule)| == |order|
    ensures forall a :: 0 <= a < |order| ==> Pending(order, rules, HashRule)[a] == order[a].name
    ensures forall i :: CountOn(order, rules, i) == 0
    decreases |order|
  {
    if order != [] {
      AllPending(order[..|order| - 1], rules, candidates);
    }
  }

  /** When no process is assigned, the resolution is the round-robin by process index. */
  lemma {:induction false} HashFromEmptyIsRoundRobin(ms: seq<Member>, rules: RulesMap, candidates: seq<Identifier>, a: nat)
    requires GroupValid(ms, rules) && candidates != [] && a < |ms|
    requires forall b :: 0 <= b < |ms| ==> rules[ms[b].name].hash && rules[ms[b].name].identifiers == []
    ensures ByIndex(ms)[a].name in rules
    ensures HashResolved(ms, rules, candidates)[ByIndex(ms)[a].name].identifiers == [candidates[a % |candidates|]]
  {
    ByIndexKnown(ms, rules);
    ByIndexKeeps(ms);
    var order := ByIndex(ms);
    forall b | 0 <= b < |ms| ensures rules[order[b].name].hash && rules[order[b].name].identifiers == [] {
      assert order[b] in ms;
    }
    AllPending(order, rules, candidates);
    assert Load(ms, rules, candidates) == Zeros(|candidates|);
    RoundRobin(|candidates|, a);
    HashFate(ms, rules, candidates, order[a].name);
    assert HashPending(ms, rules)[a] == order[a].name;
  }

  // ---- The loops ----

  /** Resolves what can be resolved, as the two lists are walked together. */
  method ZipAt(rules: RulesMap, names: seq<string>, ids: seq<Identifier>) returns (r: RulesMap)
    requires forall a :: 0 <= a < |names| ==> names[a] in rules
    ensures r == AtAssigned(rules, names, ids, Min(|names|, |ids|))
  {
    r := rules;
    var k := 0;
    while k < |names| && k < |ids|
      invariant 0 <= k <= Min(|names|, |ids|) && r == AtAssigned(rules, names, ids, k)
    {
      r := r[names[k] := r[names[k]].(at := false, identifiers := [ids[k]])];
      k := k + 1;
    }
  }

  /** The choice of the first least loaded candidate. */
  method Least(counts: seq<nat>) returns (i: nat)
    requires counts != []
    ensures i == LeastLoaded(counts)
  {
    i := 0;
    var n := 1;
    assert counts[..1] == [counts[0]];
    while n < |counts|
      invariant 1 <= n <= |counts| && i == LeastLoaded(counts[..n])
    {
      assert counts[..n + 1][..n] == counts[..n];
      if counts[n] < counts[i] {
        i := n;
      }
      n := n + 1;
    }
    assert counts[..n] == counts;
  }

  /** One process gets the least loaded candidate. */
  method GreedyStep(rules: RulesMap, names: seq<string>, candidates: seq<Identifier>, ghost start: seq<nat>, k: nat,
                    before: RulesMap, counts: seq<nat>) returns (r: RulesMap, counts': seq<nat>)
    requires |start| == |candidates| > 0 && k < |names| && forall a :: 0 <= a < |names| ==> names[a] in rules
    requires before == HashAssigned(rules, names, candidates, start, k) && counts == CountsAfter(start, k)
    ensures r == HashAssigned(rules, names, candidates, start, k + 1) && counts' == CountsAfter(start, k + 1)
  {
    var i := Least(counts);
    var name := names[k];
    r := before[name := before[name].(hash := false, identifiers := [candidates[i]])];
    counts' := counts[i := counts[i] + 1];
  }

  /** Gives an instance to every pending process, counting as it goes. */
  method Greedy(rules: RulesMap, names: seq<string>, candidates: seq<Identifier>, start: seq<nat>) returns (r: RulesMap)
    requires |start| == |candidates| > 0 && forall a :: 0 <= a < |names| ==> names[a] in rules
    ensures r == HashAssigned(rules, names, candidates, start, |names|)
  {
    r := rules;
    var counts := start;
    var k := 0;
    while k < |names|
      invariant 0 <= k <= |names| && counts == CountsAfter(start, k)
      invariant r == HashAssigned(rules, names, candidates, start, k)
    {
      r, counts := GreedyStep(rules, names, candidates, start, k, r, counts);
      k := k + 1;
    }
  }

  // ---- The group ----

  datatype Group = Group(processes: seq<Member>, rules: RulesMap) {
    ghost predicate Valid() {
      GroupValid(processes, rules)
    }

    predicate Has(name: string) {
      exists a :: 0 <= a < |processes| && processes[a].name == name
    }
  }

  function Added(g: Group, m: Member, r: Rules): Group {
    Group(g.processes + [m], g.rules[m.name := r])
  }

  /** The rules of a process go with it. */
  function Removed(g: Group, a: nat): Group
    requires a < |g.processes|
  {
    Group(g.processes[..a] + g.processes[a + 1..], g.rules - {g.processes[a].name})
  }

  /** The assigned instances are candidates; otherwise counting the assignments raises KeyError. */
  ghost predicate AssignedAreKnown(g: Group, candidates: seq<Identifier>)
    requires g.Valid()
  {
    forall a :: 0 <= a < |g.processes| && g.rules[g.processes[a].name].identifiers != [] ==>
      g.rules[g.processes[a].name].identifiers[0] in candidates
  }

  class HomogeneousGroup {
    var processes: seq<Member>
    var rules: RulesMap

    ghost function View(): Group
      reads this
    {
      Group(processes, rules)
    }

    ghost predicate Valid()
      reads this
    {
      View().Valid()
    }

    constructor ()
      ensures Valid() && View() == Group([], map[])
    {
      processes, rules := [], map[];
    }

    /** Adds a process, with its rules. */
    method AddProcess(m: Member, r: Rules)
      requires Valid() && !View().Has(m.name)
      modifies this
      ensures Valid() && View() == Added(old(View()), m, r)
    {
      processes := processes + [m];
      rules := rules[m.name := r];
    }

    /** Removes a process; its instance is free again. */
    method RemoveProcess(a: nat)
      requires Valid() && a < |processes|
      modifies this
      ensures Valid() && View() == Removed(old(View()), a)
    {
      rules := rules - {processes[a].name};
      processes := processes[..a] + processes[a + 1..];
    }

    method AssignAtIdentifiers(candidates: seq<Identifier>)
      requires Valid() && UniqueIds(candidates)
      modifies this`rules
      ensures Valid() && rules == AtResolved(processes, old(rules), candidates)
      ensures old(AtInv(processes, rules)) ==> AtInv(processes, rules)
    {
      ByIndexKnown(processes, rules);
      PendingKnown(ByIndex(processes), rules, AtRule);
      if AtInv(processes, rules) {
        AtKeepsInv(processes, rules, candidates);
      }
      var order := ByIndex(processes);
      rules := ZipAt(rules, Pending(order, rules, AtRule), Free(candidates, Taken(order, rules)));
    }

    /** Counts the assigned processes; `ok` is false when an instance is not a candidate. */
    method CheckAssigned(order: seq<Member>, candidates: seq<Identifier>) returns (ok: bool)
      requires Valid() && order == ByIndex(processes)
      ensures ok <==> AssignedAreKnown(View(), candidates)
    {
      ByIndexKeeps(processes);
      ByIndexKnown(processes, rules);
      var n := 0;
      while n < |order|
        invariant 0 <= n <= |order|
        invariant forall a :: 0 <= a < n && rules[order[a].name].identifiers != [] ==>
                    rules[order[a].name].identifiers[0] in candidates
      {
        var ids := rules[order[n].name].identifiers;
        if ids != [] && ids[0] !in candidates {
          assert order[n] in processes;
          return false;
        }
        n := n + 1;
      }
      forall a | 0 <= a < |processes| && rules[processes[a].name].identifiers != []
        ensures rules[processes[a].name].identifiers[0] in candidates
      {
        assert processes[a] in order;
      }
      return true;
    }

    /** When a process is pending, an assigned instance that is not a candidate raises KeyError, and
        having no candidate raises ValueError: nothing is assigned then. */
    method AssignHashIdentifiers(candidates: seq<Identifier>) returns (ok: bool)
      requires Valid()
      modifies this`rules
      ensures Valid()
      ensures ok <==> HashPending(processes, old(rules)) == [] || (candidates != [] && AssignedAreKnown(old(View()), candidates))
      ensures rules == if ok && candidates != [] then HashResolved(processes, old(rules), candidates) else old(rules)
    {
      ByIndexKnown(processes, rules);
      PendingKnown(ByIndex(processes), rules, HashRule);
      var order := ByIndex(processes);
      var names := Pending(order, rules, HashRule);
      if names == [] {
        return true;
      }
      var known := CheckAssigned(order, candidates);
      if !known || candidates == [] {
        return false;
      }
      rules := Greedy(rules, names, candidates, Counts(order, rules, candidates));
      return true;
    }
  }
}
