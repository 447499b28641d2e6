/** The stable sort of Python on pairs of keys, and what its first and last elements are. */
module StableSort {

  datatype Ranked<T> = Ranked(value: T, first: int, second: int)

  predicate Leq<T>(a: Ranked<T>, b: Ranked<T>) {
    a.first < b.first || (a.first == b.first && a.second <= b.second)
  }

  /** Inserts `x` after the elements that are not greater. */
  function Insert<T>(s: seq<Ranked<T>>, x: Ranked<T>): (r: seq<Ranked<T>>)
    ensures |r| == |s| + 1
    decreases |s|
  {
    if s == [] || Leq(s[|s| - 1], x) then s + [x]
    else Insert(s[..|s| - 1], x) + [s[|s| - 1]]
  }

  function Sorted<T>(s: seq<Ranked<T>>): (r: seq<Ranked<T>>)
    ensures |r| == |s|
    decreases |s|
  {
    if s == [] then [] else Insert(Sorted(s[..|s| - 1]), s[|s| - 1])
  }

  /** The order is the lexicographic one, on increasing numbers. */
  lemma {:induction false} LeqIsIncreasing<T>(a: Ranked<T>, b: Ranked<T>)
    ensures a.first < b.first ==> Leq(a, b) && !Leq(b, a)
    ensures a.first == b.first ==> (Leq(a, b) <==> a.second <= b.second)
  {
  }

  ghost predicate IsSorted<T>(s: seq<Ranked<T>>) {
    forall i, j :: 0 <= i < j < |s| ==> Leq(s[i], s[j])
  }

  lemma {:induction false} InsertBelow<T>(s: seq<Ranked<T>>, x: Ranked<T>, top: Ranked<T>)
    requires Leq(x, top) && forall i :: 0 <= i < |s| ==> Leq(s[i], top)
    ensures forall i :: 0 <= i <= |s| ==> Leq(Insert(s, x)[i], top)
    decreases |s|
  {
    if s != [] && !Leq(s[|s| - 1], x) {
      InsertBelow(s[..|s| - 1], x, top);
    }
  }

  lemma {:induction false} InsertSorted<T>(s: seq<Ranked<T>>, x: Ranked<T>)
    requires IsSorted(s)
    ensures IsSorted(Insert(s, x))
    decreases |s|
  {
    if s != [] && !Leq(s[|s| - 1], x) {
      var n := |s| - 1;
      InsertSorted(s[..n], x);
      InsertBelow(s[..n], x, s[n]);
    }
  }

  lemma {:induction false} InsertEnds<T>(s: seq<Ranked<T>>, x: Ranked<T>)
    requires IsSorted(s)
    ensures Insert(s, x)[0] == if s == [] || !Leq(s[0], x) then x else s[0]
    ensures Insert(s, x)[|s|] == if s == [] || Leq(s[|s| - 1], x) then x else s[|s| - 1]
    decreases |s|
  {
    if s != [] && !Leq(s[|s| - 1], x) {
      InsertEnds(s[..|s| - 1], x);
    }
  }

  lemma {:induction false} SortedIsSorted<T>(s: seq<Ranked<T>>)
    ensures IsSorted(Sorted(s))
    decreases |s|
  {
    if s != [] {
      SortedIsSorted(s[..|s| - 1]);
      InsertSorted(Sorted(s[..|s| - 1]), s[|s| - 1]);
    }
  }

  /** `i` is the place of the first of the smallest elements, for the first key then the second one. */
  ghost predicate IsFirstMin<T>(s: seq<Ranked<T>>, i: nat) {
    && i < |s|
    && (forall j :: 0 <= j < |s| ==> s[i].first < s[j].first || (s[i].first == s[j].first && s[i].second <= s[j].second))
    && (forall j :: 0 <= j < i ==> s[j].first > s[i].first || (s[j].first == s[i].first && s[j].second > s[i].second))
  }

  /** `i` is the place of the last of the greatest elements. */
  ghost predicate IsLastMax<T>(s: seq<Ranked<T>>, i: nat) {
    && i < |s|
    && (forall j :: 0 <= j < |s| ==> s[j].first < s[i].first || (s[j].first == s[i].first && s[j].second <= s[i].second))
    && (forall j :: i < j < |s| ==> s[j].first < s[i].first || (s[j].first == s[i].first && s[j].second < s[i].second))
  }

  /** As the sort is stable, its first element is the first of the smallest ones. */
  lemma {:induction false} SortedFirst<T>(s: seq<Ranked<T>>) returns (i: nat)
    requires s != []
    ensures IsFirstMin(s, i) && Sorted(s)[0] == s[i]
    decreases |s|
  {
    var n := |s| - 1;
    var t := s[..n];
    SortedIsSorted(t);
    InsertEnds(Sorted(t), s[n]);
    if n == 0 {
      i := 0;
    } else {
      var l := SortedFirst(t);
      i := if Leq(s[l], s[n]) then l else n;
      assert forall j :: 0 <= j < n ==> t[j] == s[j];
    }
  }

  /** As the sort is stable, its last element is the last of the greatest ones. */
  lemma {:induction false} SortedLast<T>(s: seq<Ranked<T>>) returns (i: nat)
    requires s != []
    ensures IsLastMax(s, i) && Sorted(s)[|s| - 1] == s[i]
    decreases |s|
  {
    var n := |s| - 1;
    var t := s[..n];
    SortedIsSorted(t);
    InsertEnds(Sorted(t), s[n]);
    if n == 0 {
      i := 0;
    } else {
      var l := SortedLast(t);
      i := if Leq(s[l], s[n]) then n else l;
      assert forall j :: 0 <= j < n ==> t[j] == s[j];
    }
  }
}
