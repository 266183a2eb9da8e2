/** The array library calls the stores rely on, as functions on sequences:
    `find`, `filter`, and the stable `sort` with a "larger key first"
    comparator (`(a, b) => key(b) - key(a)`). */
module Seqs {
  import opened Wrappers

  /** The position `find` stops at: the first element satisfying `p`. */
  function FindIndex<T>(s: seq<T>, p: T -> bool): (r: Option<nat>)
    ensures r.Some? ==> r.value < |s| && p(s[r.value])
    ensures r.Some? ==> forall j :: 0 <= j < r.value ==> !p(s[j])
    ensures r.None? ==> forall j :: 0 <= j < |s| ==> !p(s[j])
  {
    if s == [] then None
    else if p(s[0]) then Some(0)
    else match FindIndex(s[1..], p)
      case None => None
      case Some(k) => Some(k + 1)
  }

  /** `s.find(p)`: the first element satisfying `p`, if any. */
  function Find<T>(s: seq<T>, p: T -> bool): (r: Option<T>)
    ensures r.Some? <==> exists i :: 0 <= i < |s| && p(s[i])
    ensures r.Some? ==> exists i :: 0 <= i < |s| && s[i] == r.value && p(s[i])
                                    && forall j :: 0 <= j < i ==> !p(s[j])
  {
    match FindIndex(s, p)
    case None => None
    case Some(i) => Some(s[i])
  }

  /** `s.filter(p)`. */
  function Filter<T>(s: seq<T>, p: T -> bool): (r: seq<T>)
    ensures |r| <= |s|
    ensures forall i :: 0 <= i < |r| ==> r[i] in s && p(r[i])
    ensures forall i :: 0 <= i < |s| && p(s[i]) ==> s[i] in r
  {
    if s == [] then []
    else if p(s[0]) then [s[0]] + Filter(s[1..], p)
    else Filter(s[1..], p)
  }

  /** Filtering keeps order: it distributes over concatenation. */
  lemma {:induction false} FilterConcat<T>(a: seq<T>, b: seq<T>, p: T -> bool)
    ensures Filter(a + b, p) == Filter(a, p) + Filter(b, p)
  {
    if a == [] {
      assert a + b == b;
    } else {
      assert (a + b)[1..] == a[1..] + b;
      FilterConcat(a[1..], b, p);
    }
  }

  /** Filtering keeps every selected element exactly as often as it occurs. */
  lemma {:induction false} FilterCount<T>(s: seq<T>, p: T -> bool, x: T)
    ensures multiset(Filter(s, p))[x] == if p(x) then multiset(s)[x] else 0
  {
    if s != [] {
      FilterCount(s[1..], p, x);
      var rest := Filter(s[1..], p);
      assert s == [s[0]] + s[1..];
      assert multiset(s) == multiset{s[0]} + multiset(s[1..]);
      if p(s[0]) {
        assert multiset(Filter(s, p)) == multiset{s[0]} + multiset(rest);
      } else {
        assert Filter(s, p) == rest;
      }
    }
  }

  /** Filtering with a selection every element passes changes nothing. */
  lemma {:induction false} FilterAll<T>(s: seq<T>, p: T -> bool)
    requires forall i :: 0 <= i < |s| ==> p(s[i])
    ensures Filter(s, p) == s
  {
    if s != [] {
      FilterAll(s[1..], p);
      assert s == [s[0]] + s[1..];
    }
  }

  /** No element occurs twice. */
  ghost predicate Distinct<T(!new)>(s: seq<T>) {
    forall x :: multiset(s)[x] <= 1
  }

  /** `s.map(x => p(x) ? f(x) : x)`: update the selected elements. */
  function MapIf<T>(s: seq<T>, p: T -> bool, f: T -> T): (r: seq<T>)
    ensures |r| == |s|
    ensures forall i :: 0 <= i < |s| ==> r[i] == if p(s[i]) then f(s[i]) else s[i]
  {
    seq(|s|, i requires 0 <= i < |s| => if p(s[i]) then f(s[i]) else s[i])
  }

  /** When the update keeps the selection, `find` after the update returns
      the update of what it returned before, and still misses when it missed. */
  lemma {:induction false} FindAfterMapIf<T>(s: seq<T>, p: T -> bool, f: T -> T)
    requires forall x :: p(x) ==> p(f(x))
    ensures Find(MapIf(s, p, f), p) == match Find(s, p) { case None => None case Some(x) => Some(f(x)) }
  {
    if s != [] {
      FindAfterMapIf(s[1..], p, f);
      assert MapIf(s, p, f)[1..] == MapIf(s[1..], p, f);
    }
  }

  /** `t` is ordered by `key`, larger keys first. */
  ghost predicate SortedDesc<T>(t: seq<T>, key: T -> int) {
    forall i, j :: 0 <= i < j < |t| ==> key(t[i]) >= key(t[j])
  }

  /** An element no smaller than all of a sorted sequence can go in front. */
  lemma SortedCons<T>(a: T, s: seq<T>, key: T -> int)
    requires SortedDesc(s, key)
    requires forall j :: 0 <= j < |s| ==> key(a) >= key(s[j])
    ensures SortedDesc([a] + s, key)
  {
    var r := [a] + s;
    forall i, j | 0 <= i < j < |r|
      ensures key(r[i]) >= key(r[j])
    {
      assert r[j] == s[j - 1];
      if i > 0 {
        assert r[i] == s[i - 1];
      }
    }
  }

  /** Every element of `r` is `x` or one of `t`, so below a bound of both. */
  lemma BoundOfMultiset<T>(b: int, x: T, t: seq<T>, r: seq<T>, key: T -> int)
    requires multiset(r) == multiset(t) + multiset{x}
    requires b >= key(x) && forall m :: 0 <= m < |t| ==> b >= key(t[m])
    ensures forall j :: 0 <= j < |r| ==> b >= key(r[j])
  {
    forall j | 0 <= j < |r|
      ensures b >= key(r[j])
    {
      assert r[j] in multiset(r);
      if r[j] != x {
        assert r[j] in multiset(t);
        var m :| 0 <= m < |t| && t[m] == r[j];
      }
    }
  }

  /** Put `x` in front of the first element whose key is not larger. */
  function Insert<T>(x: T, t: seq<T>, key: T -> int): (r: seq<T>)
    requires SortedDesc(t, key)
    ensures SortedDesc(r, key)
    ensures multiset(r) == multiset(t) + multiset{x}
    ensures |r| == |t| + 1
  {
    if t == [] || key(x) >= key(t[0]) then
      SortedCons(x, t, key);
      [x] + t
    else
      var rest := Insert(x, t[1..], key);
      assert t == [t[0]] + t[1..];
      BoundOfMultiset(key(t[0]), x, t[1..], rest, key);
      SortedCons(t[0], rest, key);
      [t[0]] + rest
  }

  /** The copy `[...s].sort((a, b) => key(b) - key(a))` (a stable sort). */
  function SortDesc<T>(s: seq<T>, key: T -> int): (r: seq<T>)
    ensures SortedDesc(r, key)
    ensures multiset(r) == multiset(s)
    ensures |r| == |s|
  {
    if s == [] then []
    else
      assert s == [s[0]] + s[1..];
      Insert(s[0], SortDesc(s[1..], key), key)
  }

  /** Sorting a non-empty sequence inserts its head into its sorted tail. */
  lemma SortDescUnfold<T>(s: seq<T>, key: T -> int)
    requires s != []
    ensures SortDesc(s, key) == Insert(s[0], SortDesc(s[1..], key), key)
  {
  }

  /** An element no smaller than the first goes in front. */
  lemma InsertFront<T>(x: T, t: seq<T>, key: T -> int)
    requires SortedDesc(t, key) && (t == [] || key(x) >= key(t[0]))
    ensures Insert(x, t, key) == [x] + t
  {
  }

  /** An element smaller than the first goes past it. */
  lemma InsertPast<T>(x: T, t: seq<T>, key: T -> int)
    requires SortedDesc(t, key) && t != [] && key(x) < key(t[0])
    ensures Insert(x, t, key) == [t[0]] + Insert(x, t[1..], key)
  {
  }

  /** Sorting two elements whose keys are in the order b < c. */
  lemma SortTwo<T>(b: T, c: T, key: T -> int)
    requires key(b) < key(c)
    ensures SortDesc([b, c], key) == [c, b]
  {
    var s := [b, c];
    SortDescUnfold(s, key);
    assert s[1..] == [c];
    SortDescUnfold([c], key);
    assert [c][1..] == [];
    InsertFront(c, [], key);
    InsertPast(b, [c], key);
    InsertFront(b, [], key);
  }

  /** Inserting a middle key into two sorted elements. */
  lemma InsertMiddle<T>(a: T, b: T, c: T, key: T -> int)
    requires key(b) < key(a) < key(c)
    ensures Insert(a, [c, b], key) == [c, a, b]
  {
    var t := [c, b];
    InsertPast(a, t, key);
    assert t[1..] == [b];
    InsertFront(a, [b], key);
  }

  lemma SortThreeUnfold<T>(a: T, b: T, c: T, key: T -> int)
    ensures SortDesc([a, b, c], key) == Insert(a, SortDesc([b, c], key), key)
  {
    var s := [a, b, c];
    SortDescUnfold(s, key);
    assert s[1..] == [b, c];
  }

  /** Sorting three elements whose keys are in the order b < a < c. */
  lemma SortThree<T>(a: T, b: T, c: T, key: T -> int)
    requires key(b) < key(a) < key(c)
    ensures SortDesc([a, b, c], key) == [c, a, b]
  {
    SortThreeUnfold(a, b, c, key);
    SortTwo(b, c, key);
    InsertMiddle(a, b, c, key);
  }

  /** The elements of `s` whose key is `k`, in order. */
  function WithKey<T>(s: seq<T>, key: T -> int, k: int): seq<T> {
    if s == [] then []
    else (if key(s[0]) == k then [s[0]] else []) + WithKey(s[1..], key, k)
  }

  lemma WithKeyCons<T>(a: T, s: seq<T>, key: T -> int, k: int)
    ensures WithKey([a] + s, key, k) == (if key(a) == k then [a] else []) + WithKey(s, key, k)
  {
    assert ([a] + s)[1..] == s;
  }

  /** Inserting moves `x` only past elements with larger keys, never past
      one with the same key. */
  lemma {:induction false} InsertStable<T>(x: T, t: seq<T>, key: T -> int, k: int)
    requires SortedDesc(t, key)
    ensures WithKey(Insert(x, t, key), key, k) == WithKey([x] + t, key, k)
  {
    if !(t == [] || key(x) >= key(t[0])) {
      var rest := Insert(x, t[1..], key);
      InsertStable(x, t[1..], key, k);
      assert t == [t[0]] + t[1..];
      WithKeyCons(t[0], rest, key, k);
      WithKeyCons(x, t[1..], key, k);
      WithKeyCons(x, t, key, k);
      WithKeyCons(t[0], t[1..], key, k);
    }
  }

  /** The sort is stable: elements with equal keys keep their relative order. */
  lemma {:induction false} SortStable<T>(s: seq<T>, key: T -> int, k: int)
    ensures WithKey(SortDesc(s, key), key, k) == WithKey(s, key, k)
  {
    if s != [] {
      SortStable(s[1..], key, k);
      InsertStable(s[0], SortDesc(s[1..], key), key, k);
      WithKeyCons(s[0], SortDesc(s[1..], key), key, k);
      WithKeyCons(s[0], s[1..], key, k);
      assert s == [s[0]] + s[1..];
    }
  }
}
