/** `Array.prototype.sort(compare)` and the "keep the latest entry per key"
    folds that the dashboard's derivations are built from. */
module Ordering {
  import opened JsValues

  // ---------------------------------------------------------------------------
  // Sorting with a comparator

  /** No later element should come before an earlier one: `compare(a, b) <= 0`
      for every `a` that stands before `b`. */
  ghost predicate SortedBy<T>(s: seq<T>, compare: (T, T) -> int) {
    forall i, j :: 0 <= i < j < |s| ==> compare(s[i], s[j]) <= 0
  }

  /** A comparator is consistent on a set of values when its sign is
      antisymmetric and "not after" is transitive there; ECMAScript leaves
      the order of `sort` implementation-defined for any other comparator. */
  ghost predicate ConsistentOn<T>(compare: (T, T) -> int, S: set<T>) {
    && (forall a, b :: a in S && b in S ==> (compare(a, b) > 0 <==> compare(b, a) < 0))
    && (forall a, b, c {:trigger compare(a, b), compare(b, c), compare(a, c)} ::
          a in S && b in S && c in S && compare(a, b) <= 0 && compare(b, c) <= 0 ==> compare(a, c) <= 0)
  }

  ghost function Elements<T>(s: seq<T>): set<T> {
    set x | x in s
  }

  /** One step of a stable insertion sort: `x` moves left past every trailing
      element that the comparator puts after it. */
  function Insert<T>(s: seq<T>, x: T, compare: (T, T) -> int): (r: seq<T>)
    ensures |r| == |s| + 1
  {
    if s == [] then [x]
    else if compare(s[|s| - 1], x) > 0 then
      assert s == s[..|s| - 1] + [s[|s| - 1]];
      Insert(s[..|s| - 1], x, compare) + [s[|s| - 1]]
    else s + [x]
  }

  /** `s.slice().sort(compare)`, as a stable insertion sort. */
  function Sort<T>(s: seq<T>, compare: (T, T) -> int): (r: seq<T>)
    ensures |r| == |s|
  {
    if s == [] then []
    else Insert(Sort(s[..|s| - 1], compare), s[|s| - 1], compare)
  }

  /** `x` lands at `j` when everything from `j` on is put after it and the
      element before `j` is not. */
  lemma {:induction false} InsertAt<T>(s: seq<T>, x: T, compare: (T, T) -> int, j: nat)
    requires j <= |s|
    requires forall k :: j <= k < |s| ==> compare(s[k], x) > 0
    requires j == 0 || compare(s[j - 1], x) <= 0
    ensures Insert(s, x, compare) == s[..j] + [x] + s[j..]
    decreases |s|
  {
    if j == |s| {
      assert s[..j] == s;
    } else {
      var n := |s| - 1;
      var front := s[..n];
      InsertAt(front, x, compare, j);
      assert front[..j] == s[..j];
      assert front[j..] + [s[n]] == s[j..];
    }
  }

  /** `a.sort(compare)` in place, as a stable insertion sort. */
  method SortInPlace<T>(a: array<T>, compare: (T, T) -> int)
    modifies a
    ensures a[..] == Sort(old(a[..]), compare)
  {
    ghost var s0 := a[..];
    var i := 0;
    while i < a.Length
      invariant 0 <= i <= a.Length
      invariant a[..i] == Sort(s0[..i], compare)
      invariant a[i..] == s0[i..]
    {
      InsertInPlace(a, i, compare);
      assert s0[..i + 1][..i] == s0[..i];
      i := i + 1;
    }
    assert s0[..a.Length] == s0;
  }

  /** One step of the sort: `a[i]` is taken out and the elements of the
      prefix that the comparator puts after it shift one place right. */
  method InsertInPlace<T>(a: array<T>, i: nat, compare: (T, T) -> int)
    requires i < a.Length
    modifies a
    ensures a[..i + 1] == Insert(old(a[..i]), old(a[i]), compare)
    ensures a[i + 1..] == old(a[i + 1..])
  {
    var x := a[i];
    ghost var sorted := a[..i];
    var j := i;
    while j > 0 && compare(a[j - 1], x) > 0
      invariant 0 <= j <= i
      invariant forall k :: 0 <= k < j ==> a[k] == sorted[k]
      invariant forall k :: j < k <= i ==> a[k] == sorted[k - 1]
      invariant forall k :: i < k < a.Length ==> a[k] == old(a[k])
      invariant forall k :: j <= k < i ==> compare(sorted[k], x) > 0
    {
      a[j] := a[j - 1];
      j := j - 1;
    }
    a[j] := x;
    InsertAt(sorted, x, compare, j);
    assert a[..i + 1] == sorted[..j] + [x] + sorted[j..];
  }

  /** Inserting adds `x` and loses nothing. */
  lemma {:induction false} InsertPermutes<T>(s: seq<T>, x: T, compare: (T, T) -> int)
    ensures multiset(Insert(s, x, compare)) == multiset(s) + multiset{x}
  {
    if s != [] && compare(s[|s| - 1], x) > 0 {
      var n := |s| - 1;
      InsertPermutes(s[..n], x, compare);
      assert s == s[..n] + [s[n]];
    }
  }

  /** The sort is a permutation: same elements, same multiplicities. */
  lemma {:induction false} SortPermutes<T>(s: seq<T>, compare: (T, T) -> int)
    ensures multiset(Sort(s, compare)) == multiset(s)
  {
    if s != [] {
      var n := |s| - 1;
      SortPermutes(s[..n], compare);
      InsertPermutes(Sort(s[..n], compare), s[n], compare);
      assert s == s[..n] + [s[n]];
    }
  }

  /** The sorted sequence holds exactly the elements of `s`. */
  lemma SortMembers<T>(s: seq<T>, compare: (T, T) -> int)
    ensures forall e :: e in Sort(s, compare) ==> e in s
    ensures forall e :: e in s ==> e in Sort(s, compare)
  {
    SortPermutes(s, compare);
    forall e | e in Sort(s, compare) ensures e in s {
      assert e in multiset(Sort(s, compare));
    }
    forall e | e in s ensures e in Sort(s, compare) {
      assert e in multiset(s);
    }
  }

  lemma {:induction false} InsertSorted<T>(s: seq<T>, x: T, compare: (T, T) -> int, S: set<T>)
    requires ConsistentOn(compare, S)
    requires forall e | e in s :: e in S
    requires x in S
    requires SortedBy(s, compare)
    ensures SortedBy(Insert(s, x, compare), compare)
  {
    if s != [] {
      var n := |s| - 1;
      var last := s[n];
      if compare(last, x) > 0 {
        var front := s[..n];
        InsertSorted(front, x, compare, S);
        InsertBefore(front, x, last, compare, S);
        var t := Insert(front, x, compare);
        assert Insert(s, x, compare) == t + [last];
        SortedAppend(t, last, compare);
      } else {
        forall e | e in s ensures compare(e, x) <= 0 {
          var i :| 0 <= i < |s| && s[i] == e;
          if i < n {
            assert compare(s[i], last) <= 0;
          }
        }
        SortedAppend(s, x, compare);
      }
    }
  }

  /** Every element of `front` and `x` itself comes before `last`. */
  lemma InsertBefore<T>(front: seq<T>, x: T, last: T, compare: (T, T) -> int, S: set<T>)
    requires ConsistentOn(compare, S)
    requires x in S && last in S
    requires compare(last, x) > 0
    requires forall e | e in front :: compare(e, last) <= 0
    ensures forall e | e in Insert(front, x, compare) :: compare(e, last) <= 0
  {
    InsertPermutes(front, x, compare);
    forall e | e in Insert(front, x, compare) ensures compare(e, last) <= 0 {
      assert e in multiset(Insert(front, x, compare));
      if e != x {
        assert e in multiset(front);
      }
    }
  }

  lemma SortedAppend<T>(s: seq<T>, x: T, compare: (T, T) -> int)
    requires SortedBy(s, compare)
    requires forall e | e in s :: compare(e, x) <= 0
    ensures SortedBy(s + [x], compare)
  {
    var r := s + [x];
    forall i, j | 0 <= i < j < |r| ensures compare(r[i], r[j]) <= 0 {
      if j == |s| {
        assert r[i] in s;
      }
    }
  }

  /** Sorting with a comparator that is consistent on the elements orders them. */
  lemma {:induction false} SortSorted<T>(s: seq<T>, compare: (T, T) -> int, S: set<T>)
    requires ConsistentOn(compare, S)
    requires forall e | e in s :: e in S
    ensures SortedBy(Sort(s, compare), compare)
  {
    if s != [] {
      var front := s[..|s| - 1];
      assert forall e | e in front :: e in s;
      SortSorted(front, compare, S);
      SortMembers(front, compare);
      forall e | e in Sort(front, compare) ensures e in S {
        assert e in front;
      }
      InsertSorted(Sort(front, compare), s[|s| - 1], compare, S);
    }
  }

  /** Every element of `s` is put after `x`. */
  ghost predicate AllAfter<T>(s: seq<T>, x: T, compare: (T, T) -> int) {
    forall i :: 0 <= i < |s| ==> compare(s[i], x) > 0
  }

  /** The first element after an insertion is `x` exactly when every element
      already there is put after it. */
  lemma {:induction false} InsertHead<T>(s: seq<T>, x: T, compare: (T, T) -> int)
    requires s != []
    ensures Insert(s, x, compare)[0] == if AllAfter(s, x, compare) then x else s[0]
  {
    var n := |s| - 1;
    var front := s[..n];
    if compare(s[n], x) <= 0 {
      assert Insert(s, x, compare) == s + [x];
      assert !AllAfter(s, x, compare);
    } else if n == 0 {
      assert Insert(s, x, compare) == [x] + [s[0]];
      assert AllAfter(s, x, compare);
    } else {
      assert Insert(s, x, compare) == Insert(front, x, compare) + [s[n]];
      InsertHead(front, x, compare);
      if AllAfter(front, x, compare) {
        forall i | 0 <= i < |s| ensures compare(s[i], x) > 0 {
          if i < n { assert s[i] == front[i]; }
        }
      } else {
        var i :| 0 <= i < |front| && compare(front[i], x) <= 0;
        assert compare(s[i], x) <= 0;
      }
    }
  }

  /** The sign `sort` reads from a numeric difference. */
  function Sign(x: real): (r: int)
    ensures r > 0 <==> x > 0.0
    ensures r < 0 <==> x < 0.0
  {
    if x > 0.0 then 1 else if x < 0.0 then -1 else 0
  }

  /** The comparators `(a, b) => key(b) - key(a)` (descending) and
      `(a, b) => key(a) - key(b)` (ascending) on numeric keys, where a missing
      key stands for NaN and a NaN difference counts as 0. */
  function NumericOrder(ka: Option<real>, kb: Option<real>, descending: bool): int {
    if ka.None? || kb.None? then 0
    else if descending then Sign(kb.value - ka.value)
    else Sign(ka.value - kb.value)
  }

  /** A numeric comparator is consistent on values that all have a key. */
  lemma NumericConsistent<T>(compare: (T, T) -> int, key: T -> Option<real>, descending: bool, S: set<T>)
    requires forall a :: a in S ==> key(a).Some?
    requires forall a, b :: a in S && b in S ==> compare(a, b) == NumericOrder(key(a), key(b), descending)
    ensures ConsistentOn(compare, S)
  {
  }

  /** Sorted by a numeric comparator means the keys are ordered. */
  lemma NumericSorted<T>(s: seq<T>, compare: (T, T) -> int, key: T -> Option<real>, descending: bool)
    requires forall a :: a in s ==> key(a).Some?
    requires forall a, b :: a in s && b in s ==> compare(a, b) == NumericOrder(key(a), key(b), descending)
    requires SortedBy(s, compare)
    ensures forall i, j :: 0 <= i < j < |s| ==>
      if descending then key(s[i]).value >= key(s[j]).value else key(s[i]).value <= key(s[j]).value
  {
    forall i, j | 0 <= i < j < |s|
      ensures if descending then key(s[i]).value >= key(s[j]).value else key(s[i]).value <= key(s[j]).value
    {
      assert s[i] in s && s[j] in s;
      assert compare(s[i], s[j]) <= 0;
    }
  }

  /** Every element has a key, and the keys rise (fall when descending). */
  ghost predicate OrderedByKey<T>(s: seq<T>, key: T -> Option<real>, descending: bool) {
    && (forall i :: 0 <= i < |s| ==> key(s[i]).Some?)
    && (forall i, j :: 0 <= i < j < |s| ==>
          if descending then key(s[i]).value >= key(s[j]).value else key(s[i]).value <= key(s[j]).value)
  }

  /** Sorting by a numeric comparator orders the elements by their keys. */
  lemma SortByNumber<T>(s: seq<T>, compare: (T, T) -> int, key: T -> Option<real>, descending: bool)
    requires forall a :: a in s ==> key(a).Some?
    requires forall a, b :: a in s && b in s ==> compare(a, b) == NumericOrder(key(a), key(b), descending)
    ensures OrderedByKey(Sort(s, compare), key, descending)
  {
    var S := Elements(s);
    NumericConsistent(compare, key, descending, S);
    SortSorted(s, compare, S);
    SortMembers(s, compare);
    NumericSorted(Sort(s, compare), compare, key, descending);
  }

  // ---------------------------------------------------------------------------
  // Filtering

  /** `s.filter(keep)`, in order. */
  function Keep<T>(s: seq<T>, keep: T -> bool): (r: seq<T>)
    ensures |r| <= |s|
  {
    if s == [] then []
    else Keep(s[..|s| - 1], keep) + (if keep(s[|s| - 1]) then [s[|s| - 1]] else [])
  }

  /** The filter keeps exactly the elements that pass, never more often
      than they occur. */
  lemma {:induction false} KeepMembers<T>(s: seq<T>, keep: T -> bool)
    ensures forall x :: x in Keep(s, keep) <==> x in s && keep(x)
    ensures multiset(Keep(s, keep)) <= multiset(s)
  {
    if s != [] {
      var front := s[..|s| - 1];
      KeepMembers(front, keep);
      assert s == front + [s[|s| - 1]];
    }
  }

  /** Filtering a concatenation filters each part in turn: the elements kept
      stay in their order. */
  lemma {:induction false} KeepAppend<T>(a: seq<T>, b: seq<T>, keep: T -> bool)
    ensures Keep(a + b, keep) == Keep(a, keep) + Keep(b, keep)
    decreases |b|
  {
    if b != [] {
      var front := b[..|b| - 1];
      assert (a + b)[..|a + b| - 1] == a + front;
      KeepAppend(a, front, keep);
    } else {
      assert a + b == a;
    }
  }

  /** Filtering twice by the same test is filtering once. */
  lemma {:induction false} KeepIdempotent<T>(s: seq<T>, keep: T -> bool)
    ensures Keep(Keep(s, keep), keep) == Keep(s, keep)
  {
    if s != [] {
      var front := s[..|s| - 1];
      var last := if keep(s[|s| - 1]) then [s[|s| - 1]] else [];
      KeepIdempotent(front, keep);
      KeepAppend(Keep(front, keep), last, keep);
      if last != [] {
        assert Keep(last, keep) == Keep([], keep) + [last[0]];
      }
    }
  }

  /** A filter that every element passes keeps the whole sequence. */
  lemma {:induction false} KeepAll<T>(s: seq<T>, keep: T -> bool)
    requires forall i :: 0 <= i < |s| ==> keep(s[i])
    ensures Keep(s, keep) == s
  {
    if s != [] {
      KeepAll(s[..|s| - 1], keep);
    }
  }

  // ---------------------------------------------------------------------------
  // Keeping the latest entry

  /** The fold `cur = s[0]; for each later x: if later(x, cur) then cur = x`. */
  function KeepLatest<T>(s: seq<T>, later: (T, T) -> bool): (r: T)
    requires |s| > 0
    ensures r in s
  {
    if |s| == 1 then s[0]
    else
      var cur := KeepLatest(s[..|s| - 1], later);
      if later(s[|s| - 1], cur) then s[|s| - 1] else cur
  }

  /** `s[i]` has the greatest key of `s`, and no earlier element has that key. */
  ghost predicate IsFirstMax<T>(s: seq<T>, key: T -> int, i: int) {
    && 0 <= i < |s|
    && (forall j :: 0 <= j < |s| ==> key(s[j]) <= key(s[i]))
    && (forall j :: 0 <= j < i ==> key(s[j]) < key(s[i]))
  }

  /** When "later" means "strictly greater key", the fold keeps the first
      element with the greatest key: ties keep the earlier entry. */
  lemma {:induction false} KeepLatestIsFirstMax<T>(s: seq<T>, later: (T, T) -> bool, key: T -> int)
    requires |s| > 0
    requires forall x, y :: x in s && y in s ==> (later(x, y) <==> key(x) > key(y))
    ensures exists i :: IsFirstMax(s, key, i) && KeepLatest(s, later) == s[i]
  {
    if |s| == 1 {
      assert IsFirstMax(s, key, 0);
    } else {
      var n := |s| - 1;
      var front, x := s[..n], s[n];
      assert s == front + [x];
      assert forall y | y in front :: y in s;
      KeepLatestIsFirstMax(front, later, key);
      var i :| IsFirstMax(front, key, i) && KeepLatest(front, later) == front[i];
      assert front[i] in s && x in s;
      FirstMaxPush(front, x, key, i);
    }
  }

  /** The first greatest element after one more element: the new one when its
      key is greater, the old one otherwise. */
  lemma FirstMaxPush<T>(front: seq<T>, x: T, key: T -> int, i: int)
    requires IsFirstMax(front, key, i)
    ensures key(x) > key(front[i]) ==> IsFirstMax(front + [x], key, |front|)
    ensures key(x) <= key(front[i]) ==> IsFirstMax(front + [x], key, i)
  {
    var s := front + [x];
    assert forall j :: 0 <= j < |front| ==> s[j] == front[j];
  }

  /** With a consistent comparator, the head of the sorted sequence is what
      the "keep unless strictly preferred" fold keeps: `sort` is stable. */
  lemma {:induction false} SortHeadIsKeepLatest<T>(s: seq<T>, compare: (T, T) -> int, later: (T, T) -> bool, S: set<T>)
    requires |s| > 0
    requires ConsistentOn(compare, S)
    requires forall e | e in s :: e in S
    requires forall x, y :: x in s && y in s ==> (later(x, y) <==> compare(y, x) > 0)
    ensures Sort(s, compare)[0] == KeepLatest(s, later)
  {
    if |s| > 1 {
      var n := |s| - 1;
      var front := s[..n];
      var x := s[n];
      assert forall e | e in front :: e in s;
      SortHeadIsKeepLatest(front, compare, later, S);
      var t := Sort(front, compare);
      SortSorted(front, compare, S);
      InsertHead(t, x, compare);
      SortMembers(front, compare);
      assert Sort(s, compare) == Insert(t, x, compare);
      assert t[0] in front;
      if compare(t[0], x) > 0 {
        HeadPrecedesAll(t, x, compare, S);
        assert AllAfter(t, x, compare);
      } else {
        assert !AllAfter(t, x, compare);
      }
    }
  }

  /** In a sorted sequence, whatever the head is put before, every element is. */
  lemma HeadPrecedesAll<T>(t: seq<T>, x: T, compare: (T, T) -> int, S: set<T>)
    requires ConsistentOn(compare, S)
    requires forall e | e in t :: e in S
    requires x in S
    requires SortedBy(t, compare)
    requires |t| > 0 && compare(t[0], x) > 0
    ensures forall i :: 0 <= i < |t| ==> compare(t[i], x) > 0
  {
    forall i | 0 < i < |t| ensures compare(t[i], x) > 0 {
      assert t[0] in S && t[i] in S;
      assert compare(t[0], t[i]) <= 0;
    }
  }

  // ---------------------------------------------------------------------------
  // One entry per key

  /** The elements of `s` whose key is `k`, in order. */
  function WithKey<T(!new)>(s: seq<T>, keyOf: T -> string, k: string): (r: seq<T>)
    ensures |r| <= |s|
    ensures forall x :: x in r <==> x in s && keyOf(x) == k
  {
    if s == [] then []
    else
      assert s == s[..|s| - 1] + [s[|s| - 1]];
      var front := WithKey(s[..|s| - 1], keyOf, k);
      if keyOf(s[|s| - 1]) == k then front + [s[|s| - 1]] else front
  }

  lemma {:induction false} WithKeyAbsent<T(!new)>(s: seq<T>, keyOf: T -> string, k: string)
    requires forall x :: x in s ==> keyOf(x) != k
    ensures WithKey(s, keyOf, k) == []
  {
    if s != [] {
      assert forall x :: x in s[..|s| - 1] ==> x in s;
      WithKeyAbsent(s[..|s| - 1], keyOf, k);
    }
  }

  ghost predicate Distinct<K>(s: seq<K>) {
    forall i, j :: 0 <= i < j < |s| ==> s[i] != s[j]
  }

  /** The keys met so far, in order of first appearance, and the entry kept for
      each: a new key takes its first entry, a known key is replaced only by
      an entry `later` than the one kept. */
  datatype Latest<T> = Latest(order: seq<string>, kept: map<string, T>)

  /** The distinct keys of `s` in order of first appearance. */
  function FirstAppearance<T(!new)>(s: seq<T>, keyOf: T -> string): (r: seq<string>)
    ensures Distinct(r)
    ensures forall k :: k in r <==> exists x :: x in s && keyOf(x) == k
  {
    if s == [] then []
    else
      var n := |s| - 1;
      assert s == s[..n] + [s[n]];
      var front := FirstAppearance(s[..n], keyOf);
      if keyOf(s[n]) in front then front else front + [keyOf(s[n])]
  }

  function LatestPerKey<T(!new)>(s: seq<T>, keyOf: T -> string, later: (T, T) -> bool): (d: Latest<T>)
    ensures d.order == FirstAppearance(s, keyOf)
    ensures forall k :: k in d.kept <==> k in d.order
    ensures forall k :: k in d.kept ==> keyOf(d.kept[k]) == k && d.kept[k] in s
  {
    if s == [] then Latest([], map[])
    else
      var n := |s| - 1;
      assert s == s[..n] + [s[n]];
      var d := LatestPerKey(s[..n], keyOf, later);
      var x := s[n];
      var k := keyOf(x);
      if k !in d.kept then Latest(d.order + [k], d.kept[k := x])
      else if later(x, d.kept[k]) then Latest(d.order, d.kept[k := x])
      else d
  }

  /** The entry kept for a key is the "latest" of the entries with that key. */
  lemma {:induction false} LatestPerKeyKeeps<T(!new)>(s: seq<T>, keyOf: T -> string, later: (T, T) -> bool, k: string)
    requires k in LatestPerKey(s, keyOf, later).kept
    ensures |WithKey(s, keyOf, k)| > 0
    ensures LatestPerKey(s, keyOf, later).kept[k] == KeepLatest(WithKey(s, keyOf, k), later)
  {
    var n := |s| - 1;
    var front, x := s[..n], s[n];
    assert s == front + [x];
    var d := LatestPerKey(front, keyOf, later);
    LatestPerKeyPush(front, x, keyOf, later, k);
    WithKeyPush(front, x, keyOf, k);
    if k in d.kept {
      LatestPerKeyKeeps(front, keyOf, later, k);
      if keyOf(x) == k {
        KeepLatestPush(WithKey(front, keyOf, k), x, later);
      }
    } else {
      WithKeyAbsent(front, keyOf, k);
    }
  }

  /** What the per-key fold keeps for `k` after one more element. */
  lemma LatestPerKeyPush<T(!new)>(front: seq<T>, x: T, keyOf: T -> string, later: (T, T) -> bool, k: string)
    ensures var d := LatestPerKey(front, keyOf, later);
      var r := LatestPerKey(front + [x], keyOf, later);
      && (k in r.kept <==> k in d.kept || keyOf(x) == k)
      && (k in r.kept && keyOf(x) != k ==> r.kept[k] == d.kept[k])
      && (keyOf(x) == k && k in d.kept ==> r.kept[k] == if later(x, d.kept[k]) then x else d.kept[k])
      && (keyOf(x) == k && k !in d.kept ==> r.kept[k] == x)
  {
    assert (front + [x])[..|front|] == front;
  }

  /** The elements with key `k` after one more element. */
  lemma WithKeyPush<T(!new)>(front: seq<T>, x: T, keyOf: T -> string, k: string)
    ensures WithKey(front + [x], keyOf, k) == WithKey(front, keyOf, k) + (if keyOf(x) == k then [x] else [])
  {
    assert (front + [x])[..|front|] == front;
  }

  /** The fold's choice after one more element. */
  lemma KeepLatestPush<T>(w: seq<T>, x: T, later: (T, T) -> bool)
    requires |w| > 0
    ensures KeepLatest(w + [x], later) == if later(x, KeepLatest(w, later)) then x else KeepLatest(w, later)
  {
    assert (w + [x])[..|w|] == w;
  }

  /** One step of the per-key loop: a new key is stored, a known key is
      replaced only by a later entry. */
  method RecordLatest<T(!new)>(order: seq<string>, kept: map<string, T>, x: T, ghost seen: seq<T>,
                               keyOf: T -> string, later: (T, T) -> bool)
    returns (order': seq<string>, kept': map<string, T>)
    requires Latest(order, kept) == LatestPerKey(seen, keyOf, later)
    ensures Latest(order', kept') == LatestPerKey(seen + [x], keyOf, later)
  {
    var s := seen + [x];
    assert s[..|s| - 1] == seen;
    var key := keyOf(x);
    order', kept' := order, kept;
    if key !in kept {
      order', kept' := order + [key], kept[key := x];
    } else if later(x, kept[key]) {
      kept' := kept[key := x];
    }
  }

  /** `Object.values(byKey)`: the kept entries in key order. */
  function KeptValues<T(!new)>(s: seq<T>, keyOf: T -> string, later: (T, T) -> bool): (r: seq<T>)
    ensures |r| == |FirstAppearance(s, keyOf)|
  {
    KeptInOrder(LatestPerKey(s, keyOf, later))
  }

  /** The kept entries in the order of their keys. */
  function KeptInOrder<T>(d: Latest<T>): (r: seq<T>)
    requires forall k :: k in d.order ==> k in d.kept
    ensures |r| == |d.order|
  {
    seq(|d.order|, i requires 0 <= i < |d.order| => d.kept[d.order[i]])
  }

  /** No two entries with one key: the kept entries and any permutation of
      them hold exactly one entry per key of `s`, taken from `s`. */
  lemma OnePerKey<T(!new)>(s: seq<T>, keyOf: T -> string, later: (T, T) -> bool, r: seq<T>)
    requires multiset(r) == multiset(KeptValues(s, keyOf, later))
    ensures |r| == |FirstAppearance(s, keyOf)|
    ensures forall x, y :: x in r && y in r && keyOf(x) == keyOf(y) ==> x == y
    ensures forall x :: x in r ==> x in s
    ensures forall x :: x in s ==> exists y :: y in r && keyOf(y) == keyOf(x)
  {
    var d := LatestPerKey(s, keyOf, later);
    var v := KeptValues(s, keyOf, later);
    assert |r| == |v| by {
      assert |multiset(r)| == |multiset(v)|;
    }
    forall x | x in r ensures x in v && x in s {
      assert x in multiset(r);
      assert x in multiset(v);
      var i :| 0 <= i < |v| && v[i] == x;
      assert d.order[i] in d.kept;
    }
    forall x, y | x in r && y in r && keyOf(x) == keyOf(y) ensures x == y {
      KeptInjective(s, keyOf, later, x, y);
    }
    forall x | x in s ensures exists y :: y in r && keyOf(y) == keyOf(x) {
      var k := keyOf(x);
      assert k in d.order;
      var i :| 0 <= i < |d.order| && d.order[i] == k;
      assert v[i] in multiset(v);
      assert v[i] in r;
    }
  }

  /** Two kept values with one key are the same value. */
  lemma KeptInjective<T(!new)>(s: seq<T>, keyOf: T -> string, later: (T, T) -> bool, x: T, y: T)
    requires x in KeptValues(s, keyOf, later) && y in KeptValues(s, keyOf, later)
    requires keyOf(x) == keyOf(y)
    ensures x == y
  {
    var d := LatestPerKey(s, keyOf, later);
    var v := KeptValues(s, keyOf, later);
    var i :| 0 <= i < |v| && v[i] == x;
    var j :| 0 <= j < |v| && v[j] == y;
    assert d.order[i] in d.kept && d.order[j] in d.kept;
    assert d.order[i] == d.order[j];
  }

  /** The kept entry of a key is the first of that key's entries with the
      greatest `key` value, when "later" means "strictly greater key". */
  lemma KeptIsFirstMax<T(!new)>(s: seq<T>, keyOf: T -> string, later: (T, T) -> bool, key: T -> int, k: string)
    requires forall x, y :: x in s && y in s ==> (later(x, y) <==> key(x) > key(y))
    requires k in LatestPerKey(s, keyOf, later).kept
    ensures var w := WithKey(s, keyOf, k);
      exists i :: IsFirstMax(w, key, i) && LatestPerKey(s, keyOf, later).kept[k] == w[i]
  {
    LatestPerKeyKeeps(s, keyOf, later, k);
    var w := WithKey(s, keyOf, k);
    KeepLatestIsFirstMax(w, later, key);
  }
}
