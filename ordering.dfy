/** Orders the screens rely on: JavaScript's `<` on strings (code unit by
    code unit), the stable `Array.prototype.sort` with a numeric
    comparator `(a, b) => key(a) - key(b)`, and "the first element with the
    greatest key", which is what taking `[0]` of a list sorted with
    `(a, b) => key(b) - key(a)` yields, or what a scan that replaces its
    candidate only on a strictly greater key keeps. */
module Ordering {

  // ---------------------------------------------------------------------------
  // String comparison

  /** `a < b` on strings: the first differing character decides, and a
      proper prefix comes first. */
  predicate StringLess(a: string, b: string) {
    if a == [] then b != []
    else if b == [] then false
    else if a[0] != b[0] then a[0] < b[0]
    else StringLess(a[1..], b[1..])
  }

  lemma {:induction false} StringLessIrreflexive(a: string)
    ensures !StringLess(a, a)
  {
    if a != [] {
      StringLessIrreflexive(a[1..]);
    }
  }

  lemma {:induction false} StringLessAsymmetric(a: string, b: string)
    ensures !(StringLess(a, b) && StringLess(b, a))
  {
    if a != [] && b != [] && a[0] == b[0] {
      StringLessAsymmetric(a[1..], b[1..]);
    }
  }

  lemma {:induction false} StringLessTotal(a: string, b: string)
    ensures a == b || StringLess(a, b) || StringLess(b, a)
  {
    if a != [] && b != [] && a[0] == b[0] {
      StringLessTotal(a[1..], b[1..]);
      if a[1..] == b[1..] {
        assert a == [a[0]] + a[1..] && b == [b[0]] + b[1..];
      }
    }
  }

  lemma {:induction false} StringLessTransitive(a: string, b: string, c: string)
    ensures StringLess(a, b) && StringLess(b, c) ==> StringLess(a, c)
  {
    if a != [] && b != [] && c != [] && a[0] == b[0] && b[0] == c[0] {
      StringLessTransitive(a[1..], b[1..], c[1..]);
    }
  }

  /** `!(a < b) && !(b < c)` gives `!(a < c)`: "not less" is transitive. */
  lemma NotLessTransitive(a: string, b: string, c: string)
    requires !StringLess(a, b) && !StringLess(b, c)
    ensures !StringLess(a, c)
  {
    StringLessTotal(a, b);
    StringLessTotal(b, c);
    if a != b && b != c {
      StringLessTransitive(c, b, a);
      StringLessAsymmetric(a, c);
    }
  }

  // ---------------------------------------------------------------------------
  // Sorting by a numeric key

  predicate SortedBy<T>(s: seq<T>, key: T -> real) {
    forall i, j :: 0 <= i < j < |s| ==> key(s[i]) <= key(s[j])
  }

  /** Puts `x` after every element whose key is not greater than its own. */
  function Insert<T>(x: T, s: seq<T>, key: T -> real): (r: seq<T>)
    requires SortedBy(s, key)
    ensures SortedBy(r, key)
    ensures multiset(r) == multiset(s) + multiset{x}
    ensures |r| == |s| + 1
    ensures r[0] == x || (s != [] && r[0] == s[0])
  {
    if s == [] then [x]
    else if key(x) < key(s[0]) then
      ConsSorted(x, s, key);
      [x] + s
    else
      var t := Insert(x, s[1..], key);
      assert s == [s[0]] + s[1..];
      ConsSorted(s[0], t, key);
      assert multiset([s[0]] + t) == multiset{s[0]} + multiset(t);
      [s[0]] + t
  }

  /** An element no greater than the head of a sorted list can go in
      front of it. */
  lemma ConsSorted<T>(a: T, t: seq<T>, key: T -> real)
    requires SortedBy(t, key) && t != [] && key(a) <= key(t[0])
    ensures SortedBy([a] + t, key)
  {
    var r := [a] + t;
    forall i, j | 0 <= i < j < |r| ensures key(r[i]) <= key(r[j]) {
      if i == 0 { assert r[j] == t[j - 1]; }
      else { assert r[i] == t[i - 1] && r[j] == t[j - 1]; }
    }
  }

  /** The list ordered by ascending key, elements with equal keys keeping
      their order (the sort is stable). */
  function SortBy<T>(s: seq<T>, key: T -> real): (r: seq<T>)
    ensures SortedBy(r, key)
    ensures multiset(r) == multiset(s)
    ensures |r| == |s|
  {
    if s == [] then []
    else
      assert s == s[..|s| - 1] + [s[|s| - 1]];
      Insert(s[|s| - 1], SortBy(s[..|s| - 1], key), key)
  }

  // ---------------------------------------------------------------------------
  // Sorting by a text key, greatest first

  /** No element is followed by one with a greater key. */
  predicate SortedByTextDesc<T>(s: seq<T>, key: T -> string) {
    forall i, j :: 0 <= i < j < |s| ==> !StringLess(key(s[i]), key(s[j]))
  }

  /** Puts `x` before the first element whose key is less than its own. */
  function InsertTextDesc<T>(x: T, s: seq<T>, key: T -> string): (r: seq<T>)
    requires SortedByTextDesc(s, key)
    ensures SortedByTextDesc(r, key)
    ensures multiset(r) == multiset(s) + multiset{x}
    ensures |r| == |s| + 1
    ensures r[0] == x || (s != [] && r[0] == s[0])
  {
    if s == [] then [x]
    else if StringLess(key(s[0]), key(x)) then
      StringLessAsymmetric(key(s[0]), key(x));
      forall k | 0 < k < |s|
        ensures !StringLess(key(x), key(s[k]))
      {
        StringLessTransitive(key(s[0]), key(x), key(s[k]));
      }
      [x] + s
    else
      var t := InsertTextDesc(x, s[1..], key);
      assert s == [s[0]] + s[1..];
      assert !StringLess(key(s[0]), key(t[0]));
      forall j | 0 < j < |t|
        ensures !StringLess(key(s[0]), key(t[j]))
      {
        NotLessTransitive(key(s[0]), key(t[0]), key(t[j]));
      }
      [s[0]] + t
  }

  /** The list ordered by descending key, elements with equal keys keeping
      their order. */
  function SortByTextDesc<T>(s: seq<T>, key: T -> string): (r: seq<T>)
    ensures SortedByTextDesc(r, key)
    ensures multiset(r) == multiset(s)
    ensures |r| == |s|
  {
    if s == [] then []
    else
      assert s == s[..|s| - 1] + [s[|s| - 1]];
      InsertTextDesc(s[|s| - 1], SortByTextDesc(s[..|s| - 1], key), key)
  }

  /** No element is followed by one with a smaller key. */
  predicate SortedByText<T>(s: seq<T>, key: T -> string) {
    forall i, j :: 0 <= i < j < |s| ==> !StringLess(key(s[j]), key(s[i]))
  }

  function Reverse<T>(s: seq<T>): (r: seq<T>)
    ensures |r| == |s|
    ensures forall i :: 0 <= i < |s| ==> r[i] == s[|s| - 1 - i]
    ensures multiset(r) == multiset(s)
  {
    if s == [] then []
    else
      assert s == [s[0]] + s[1..];
      Reverse(s[1..]) + [s[0]]
  }

  /** The list ordered by ascending text key: the descending order read
      backwards, so elements with equal keys come out in reverse order. */
  function SortByText<T>(s: seq<T>, key: T -> string): (r: seq<T>)
    ensures SortedByText(r, key)
    ensures multiset(r) == multiset(s)
    ensures |r| == |s|
  {
    var d := SortByTextDesc(s, key);
    var r := Reverse(d);
    ReversedDescIsAsc(d, r, key);
    r
  }

  /** A list in descending text order, read backwards, is in ascending order. */
  lemma ReversedDescIsAsc<T>(d: seq<T>, r: seq<T>, key: T -> string)
    requires SortedByTextDesc(d, key)
    requires |r| == |d| && forall i :: 0 <= i < |d| ==> r[i] == d[|d| - 1 - i]
    ensures SortedByText(r, key)
  {
    forall i, j | 0 <= i < j < |r|
      ensures !StringLess(key(r[j]), key(r[i]))
    {
      assert r[i] == d[|d| - 1 - i] && r[j] == d[|d| - 1 - j];
    }
  }

  // ---------------------------------------------------------------------------
  // The first element with the greatest key

  /** The index of the first element whose key no element exceeds. */
  function FirstMaxIndex<T>(s: seq<T>, key: T -> real): (k: nat)
    requires s != []
    ensures k < |s|
    ensures forall i :: 0 <= i < |s| ==> key(s[i]) <= key(s[k])
    ensures forall i :: 0 <= i < k ==> key(s[i]) < key(s[k])
  {
    if |s| == 1 then 0
    else
      var k := FirstMaxIndex(s[..|s| - 1], key);
      assert forall i :: 0 <= i < |s| - 1 ==> s[..|s| - 1][i] == s[i];
      if key(s[|s| - 1]) > key(s[k]) then |s| - 1 else k
  }

  // ---------------------------------------------------------------------------
  // Filtering and taking a prefix

  /** `s.filter(p)`: the elements satisfying `p`, in order. */
  function Where<T>(s: seq<T>, p: T -> bool): (r: seq<T>)
    ensures forall i :: 0 <= i < |r| ==> r[i] in s && p(r[i])
    ensures forall i :: 0 <= i < |s| && p(s[i]) ==> s[i] in r
    ensures |r| <= |s|
  {
    if s == [] then []
    else
      var rest := Where(s[1..], p);
      WhereStep(s, p, rest);
      if p(s[0]) then [s[0]] + rest else rest
  }

  /** One step of `Where`: the head is kept exactly when it passes. */
  lemma WhereStep<T>(s: seq<T>, p: T -> bool, rest: seq<T>)
    requires s != []
    requires forall i :: 0 <= i < |rest| ==> rest[i] in s[1..] && p(rest[i])
    requires forall i :: 0 <= i < |s[1..]| && p(s[1..][i]) ==> s[1..][i] in rest
    requires |rest| <= |s[1..]|
    ensures var r := if p(s[0]) then [s[0]] + rest else rest;
      (forall i :: 0 <= i < |r| ==> r[i] in s && p(r[i]))
      && (forall i :: 0 <= i < |s| && p(s[i]) ==> s[i] in r)
      && |r| <= |s|
  {
    var tail := s[1..];
    assert s == [s[0]] + tail;
    var r := if p(s[0]) then [s[0]] + rest else rest;
    forall i | 0 <= i < |r| ensures r[i] in s && p(r[i]) {
      if p(s[0]) && i > 0 { assert r[i] == rest[i - 1]; }
    }
    forall i | 0 <= i < |s| && p(s[i]) ensures s[i] in r {
      if i > 0 { assert s[i] == tail[i - 1]; }
    }
  }

  lemma WhereCons<T>(x: T, t: seq<T>, p: T -> bool)
    ensures Where([x] + t, p) == (if p(x) then [x] else []) + Where(t, p)
  {
    assert ([x] + t)[0] == x && ([x] + t)[1..] == t;
  }

  /** `filter` keeps the order: filtering a concatenation filters each
      part. With `WhereCons`, this says a filtered list is its input with
      the failing elements struck out. */
  lemma {:induction false} WhereAppend<T>(a: seq<T>, b: seq<T>, p: T -> bool)
    ensures Where(a + b, p) == Where(a, p) + Where(b, p)
    decreases |a|
  {
    if a == [] {
      assert a + b == b;
    } else {
      var h, t := a[0], a[1..];
      var x := if p(h) then [h] else [];
      assert a == [h] + t;
      assert a + b == [h] + (t + b);
      WhereCons(h, t + b, p);
      WhereCons(h, t, p);
      WhereAppend(t, b, p);
      var wt, wb := Where(t, p), Where(b, p);
      assert Where(a + b, p) == x + (wt + wb);
      assert Where(a, p) == x + wt;
    }
  }

  /** The elements whose key is `k`. */
  function KeyIs<T>(key: T -> real, k: real): T -> bool {
    x => key(x) == k
  }

  lemma {:induction false} NoneWithKey<T>(t: seq<T>, key: T -> real, k: real)
    requires forall i :: 0 <= i < |t| ==> key(t[i]) > k
    ensures Where(t, KeyIs(key, k)) == []
    decreases |t|
  {
    if t != [] {
      assert forall i :: 0 <= i < |t[1..]| ==> t[1..][i] == t[i + 1];
      NoneWithKey(t[1..], key, k);
    }
  }

  /** `Insert` puts `x` after every element with the same key. */
  lemma {:induction false} InsertAfterEqualKeys<T>(x: T, t: seq<T>, key: T -> real, k: real)
    requires SortedBy(t, key)
    ensures Where(Insert(x, t, key), KeyIs(key, k)) == Where(t, KeyIs(key, k)) + Where([x], KeyIs(key, k))
    decreases |t|
  {
    var p := KeyIs(key, k);
    WhereCons(x, [], p);
    assert [x] + [] == [x];
    if t == [] {
      assert Insert(x, t, key) == [x];
    } else if key(x) < key(t[0]) {
      InsertInFront(x, t, key, k);
    } else {
      var u := Insert(x, t[1..], key);
      assert Insert(x, t, key) == [t[0]] + u;
      InsertAfterEqualKeys(x, t[1..], key, k);
      InsertBehind(t[0], t[1..], u, x, p);
    }
  }

  lemma InsertInFront<T>(x: T, t: seq<T>, key: T -> real, k: real)
    requires SortedBy(t, key) && t != [] && key(x) < key(t[0])
    ensures Where(Insert(x, t, key), KeyIs(key, k)) == Where(t, KeyIs(key, k)) + Where([x], KeyIs(key, k))
  {
    var p := KeyIs(key, k);
    assert Insert(x, t, key) == [x] + t;
    WhereCons(x, t, p);
    WhereCons(x, [], p);
    assert [x] + [] == [x];
    if key(x) == k {
      NoneWithKey(t, key, k);
    }
  }

  lemma InsertBehind<T>(h: T, t: seq<T>, u: seq<T>, x: T, p: T -> bool)
    requires Where(u, p) == Where(t, p) + Where([x], p)
    ensures Where([h] + u, p) == Where([h] + t, p) + Where([x], p)
  {
    WhereCons(h, u, p);
    WhereCons(h, t, p);
  }

  /** The sort is stable: the elements with any one key come out in the
      order they went in. */
  lemma {:induction false} SortByIsStable<T>(s: seq<T>, key: T -> real, k: real)
    ensures Where(SortBy(s, key), KeyIs(key, k)) == Where(s, KeyIs(key, k))
    decreases |s|
  {
    if s != [] {
      var init, last := s[..|s| - 1], s[|s| - 1];
      SortByIsStable(init, key, k);
      InsertAfterEqualKeys(last, SortBy(init, key), key, k);
      assert s == init + [last];
      WhereAppend(init, [last], KeyIs(key, k));
    }
  }

  /** `s.slice(0, n)` */
  function Take<T>(s: seq<T>, n: nat): (r: seq<T>)
    ensures |r| == if n < |s| then n else |s|
    ensures r == s[..|r|]
  {
    if n < |s| then s[..n] else s
  }

  /** Taking the first `n` of the filtered list sorted by ascending key
      keeps `n` elements satisfying `p`, or all of them when fewer pass, in ascending key order,
      and no element left out has a smaller key than one kept. */
  lemma TopByKey<T>(s: seq<T>, p: T -> bool, key: T -> real, n: nat, top: seq<T>)
    requires top == Take(SortBy(Where(s, p), key), n)
    ensures |top| == (if n < |Where(s, p)| then n else |Where(s, p)|)
    ensures forall i :: 0 <= i < |top| ==> top[i] in s && p(top[i])
    ensures forall i, j :: 0 <= i < j < |top| ==> key(top[i]) <= key(top[j])
    ensures forall k, i :: 0 <= k < |s| && p(s[k]) && s[k] !in top && 0 <= i < |top| ==> key(top[i]) <= key(s[k])
  {
    var kept := Where(s, p);
    var sorted := SortBy(kept, key);
    assert top == sorted[..|top|];
    forall i | 0 <= i < |top| ensures top[i] in s && p(top[i]) {
      assert top[i] == sorted[i];
      assert sorted[i] in multiset(kept);
    }
    forall k | 0 <= k < |s| && p(s[k]) && s[k] !in top
      ensures forall i :: 0 <= i < |top| ==> key(top[i]) <= key(s[k])
    {
      assert s[k] in kept;
      assert s[k] in multiset(sorted);
      PrefixBelowRest(sorted, |top|, s[k], key);
    }
  }

  /** An element of a sorted list outside its first `m` elements has a key
      no smaller than theirs. */
  lemma PrefixBelowRest<T>(sorted: seq<T>, m: nat, x: T, key: T -> real)
    requires SortedBy(sorted, key) && m <= |sorted|
    requires x in sorted && x !in sorted[..m]
    ensures forall i :: 0 <= i < m ==> key(sorted[..m][i]) <= key(x)
  {
    forall i | 0 <= i < m ensures sorted[i] != x && sorted[..m][i] == sorted[i] {
      assert sorted[..m][i] == sorted[i];
    }
    var j :| 0 <= j < |sorted| && sorted[j] == x;
    assert j >= m;
  }

  // ---------------------------------------------------------------------------
  // Column comparators

  /** The direction a list column is sorted in. */
  datatype SortOrder = Asc | Desc

  function Flip(o: SortOrder): (p: SortOrder)
    ensures p != o
  {
    if o.Asc? then Desc else Asc
  }

  /** The comparator on numbers: `a > b ? 1 : -1` ascending, `a < b ? 1 : -1`
      descending. */
  function CompareNum(a: real, b: real, o: SortOrder): (c: int)
    ensures c == 1 || c == -1
    ensures c == 1 <==> (if o.Asc? then a > b else a < b)
  {
    if o.Asc? then (if a > b then 1 else -1) else (if a < b then 1 else -1)
  }

  /** The same comparator on lower-case strings. */
  function CompareText(a: string, b: string, o: SortOrder): (c: int)
    ensures c == 1 || c == -1
    ensures c == 1 <==> (if o.Asc? then StringLess(b, a) else StringLess(a, b))
  {
    if o.Asc? then (if StringLess(b, a) then 1 else -1) else (if StringLess(a, b) then 1 else -1)
  }

  /** The comparator never returns 0: on distinct keys it is antisymmetric,
      on equal keys it answers -1 both ways. */
  lemma ComparatorNeverTies(a: real, b: real, s: string, t: string, o: SortOrder)
    ensures a != b ==> CompareNum(a, b, o) == -CompareNum(b, a, o)
    ensures CompareNum(a, a, o) == -1
    ensures s != t ==> CompareText(s, t, o) == -CompareText(t, s, o)
    ensures CompareText(s, s, o) == -1
  {
    StringLessTotal(s, t);
    StringLessAsymmetric(s, t);
    StringLessIrreflexive(s);
  }
}
