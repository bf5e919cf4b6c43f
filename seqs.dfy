/** The array operations the stores and pages are built from — `filter`,
    `map` over the entries with a given id, `find`, `Array.from(new Set(..))`
    and a stable `sort` — as functions on sequences. */
module Seqs {
  import opened Wrappers

  /** `r` is `s` with some elements left out; the rest keep their order. */
  predicate IsSubseq<T(==,!new)>(r: seq<T>, s: seq<T>)
    decreases |s|
  {
    if r == [] then true
    else if s == [] then false
    else if r[0] == s[0] then IsSubseq(r[1..], s[1..])
    else IsSubseq(r, s[1..])
  }

  /** `s.filter(p)`. */
  function Filter<T(==,!new)>(s: seq<T>, p: T -> bool): (r: seq<T>)
    ensures forall x :: x in r <==> x in s && p(x)
    ensures |r| <= |s|
    ensures IsSubseq(r, s)
    ensures (forall x :: x in s ==> p(x)) ==> r == s
  {
    if s == [] then []
    else
      var rest := Filter(s[1..], p);
      assert forall x :: x in s <==> x == s[0] || x in s[1..];
      if p(s[0]) then [s[0]] + rest else rest
  }

  predicate NoDuplicates<T(==,!new)>(s: seq<T>) {
    forall i, j :: 0 <= i < j < |s| ==> s[i] != s[j]
  }

  /** Filtering never introduces a duplicate. */
  lemma {:induction false} FilterNoDuplicates<T(!new)>(s: seq<T>, p: T -> bool)
    requires NoDuplicates(s)
    ensures NoDuplicates(Filter(s, p))
  {
    if s != [] {
      assert NoDuplicates(s[1..]) by {
        forall i, j | 0 <= i < j < |s[1..]| ensures s[1..][i] != s[1..][j] {
          assert s[1..][i] == s[i + 1] && s[1..][j] == s[j + 1];
        }
      }
      FilterNoDuplicates(s[1..], p);
      var rest := Filter(s[1..], p);
      if p(s[0]) {
        assert s[0] !in s[1..];
        assert s[0] !in rest;
        var r := [s[0]] + rest;
        forall i, j | 0 <= i < j < |r| ensures r[i] != r[j] {
          if i == 0 {
            assert r[j] == rest[j - 1];
          } else {
            assert r[i] == rest[i - 1] && r[j] == rest[j - 1];
          }
        }
      }
    }
  }

  /** `Array.from(new Set(s))`: the elements of `s` in order of first
      occurrence, each once. */
  function Distinct<T(==,!new)>(s: seq<T>): (r: seq<T>)
    ensures NoDuplicates(r)
    ensures forall x :: x in r <==> x in s
    ensures |r| <= |s|
  {
    if s == [] then []
    else
      var front := Distinct(s[..|s| - 1]);
      var last := s[|s| - 1];
      assert forall x :: x in s <==> x in s[..|s| - 1] || x == last;
      if last in front then front else front + [last]
  }

  /** `new Set` keeps first-occurrence order: the distinct values of any
      prefix of `s` come first in the distinct values of `s`, in the same
      order, so a value enters at the place where it first occurs. */
  lemma {:induction false} DistinctPrefix<T(!new)>(s: seq<T>, k: nat)
    requires k <= |s|
    ensures Distinct(s[..k]) <= Distinct(s)
    decreases |s|
  {
    if k < |s| {
      var front := s[..|s| - 1];
      assert front[..k] == s[..k];
      DistinctPrefix(front, k);
    } else {
      assert s[..k] == s;
    }
  }

  /** `values.filter(Boolean)` on nullable strings: the present, non-empty
      values in order. */
  function Present(values: seq<Option<string>>): (r: seq<string>)
    ensures forall c :: c in r <==> c != "" && Some(c) in values
  {
    if values == [] then []
    else
      var rest := Present(values[1..]);
      assert forall v :: v in values <==> v == values[0] || v in values[1..];
      if Truthy(values[0]) then [values[0].value] + rest else rest
  }

  /** `Array.from(new Set(s.map(field).filter(Boolean)))`: the distinct
      non-empty values a field takes, in order of first occurrence. */
  function DistinctPresent<T>(s: seq<T>, field: T -> Option<string>): (r: seq<string>)
    ensures NoDuplicates(r)
    ensures forall c :: c in r <==> c != "" && exists i :: 0 <= i < |s| && field(s[i]) == Some(c)
  {
    var values := seq(|s|, i requires 0 <= i < |s| => field(s[i]));
    assert forall v :: v in values <==> exists i :: 0 <= i < |s| && field(s[i]) == v by {
      forall v | v in values ensures exists i :: 0 <= i < |s| && field(s[i]) == v {
        var i :| 0 <= i < |values| && values[i] == v;
      }
      forall i | 0 <= i < |s| ensures field(s[i]) in values {
        assert values[i] == field(s[i]);
      }
    }
    Distinct(Present(values))
  }

  /** `s.flatMap(f)`. */
  function FlatMap<T, U(!new)>(s: seq<T>, f: T -> seq<U>): (r: seq<U>)
    ensures forall y :: y in r <==> exists i :: 0 <= i < |s| && y in f(s[i])
  {
    if s == [] then []
    else
      var rest := FlatMap(s[1..], f);
      assert forall i :: 1 <= i < |s| ==> s[i] == s[1..][i - 1];
      f(s[0]) + rest
  }

  // ---- lists of records identified by a key (the `id` of a row) ----

  function KeySet<T(!new)>(s: seq<T>, key: T -> string): (ks: set<string>)
    ensures forall i :: 0 <= i < |s| ==> key(s[i]) in ks
    ensures forall k :: k in ks ==> exists i :: 0 <= i < |s| && key(s[i]) == k
  {
    if s == [] then {}
    else
      var ks := {key(s[0])} + KeySet(s[1..], key);
      assert forall i :: 1 <= i < |s| ==> s[i] == s[1..][i - 1];
      ks
  }

  /** No key occurs twice in `s`. */
  predicate UniqueKeys<T(!new)>(s: seq<T>, key: T -> string) {
    forall i, j :: 0 <= i < j < |s| ==> key(s[i]) != key(s[j])
  }

  lemma KeySetCons<T(!new)>(x: T, s: seq<T>, key: T -> string)
    ensures KeySet([x] + s, key) == {key(x)} + KeySet(s, key)
  {
    assert ([x] + s)[1..] == s;
  }

  lemma UniqueKeysCons<T(!new)>(x: T, s: seq<T>, key: T -> string)
    ensures UniqueKeys([x] + s, key) <==> key(x) !in KeySet(s, key) && UniqueKeys(s, key)
  {
    if key(x) !in KeySet(s, key) && UniqueKeys(s, key) {
      UniqueKeysConsIntro(x, s, key);
    }
    if UniqueKeys([x] + s, key) {
      UniqueKeysConsElim(x, s, key);
    }
  }

  lemma UniqueKeysConsIntro<T(!new)>(x: T, s: seq<T>, key: T -> string)
    requires key(x) !in KeySet(s, key) && UniqueKeys(s, key)
    ensures UniqueKeys([x] + s, key)
  {
    var t := [x] + s;
    forall i, j | 0 <= i < j < |t| ensures key(t[i]) != key(t[j]) {
      if i > 0 {
        assert t[i] == s[i - 1] && t[j] == s[j - 1];
      } else {
        assert t[j] == s[j - 1];
      }
    }
  }

  lemma UniqueKeysConsElim<T(!new)>(x: T, s: seq<T>, key: T -> string)
    requires UniqueKeys([x] + s, key)
    ensures key(x) !in KeySet(s, key) && UniqueKeys(s, key)
  {
    var t := [x] + s;
    forall i | 0 <= i < |s| ensures key(s[i]) != key(x) {
      assert t[0] == x && t[i + 1] == s[i];
    }
    forall i, j | 0 <= i < j < |s| ensures key(s[i]) != key(s[j]) {
      assert t[i + 1] == s[i] && t[j + 1] == s[j];
    }
  }

  /** `s.filter(x => x.id !== k)`. */
  function WithoutKey<T(==,!new)>(s: seq<T>, k: string, key: T -> string): (r: seq<T>)
    ensures forall x :: x in r <==> x in s && key(x) != k
    ensures IsSubseq(r, s)
    ensures k !in KeySet(s, key) ==> r == s
  {
    if s == [] then []
    else
      var rest := WithoutKey(s[1..], k, key);
      assert forall x :: x in s <==> x == s[0] || x in s[1..];
      if key(s[0]) != k then [s[0]] + rest else rest
  }

  /** Removing key `k` removes exactly `k` from the key set. */
  lemma {:induction false} WithoutKeyKeySet<T(!new)>(s: seq<T>, k: string, key: T -> string)
    ensures KeySet(WithoutKey(s, k, key), key) == KeySet(s, key) - {k}
  {
    if s != [] {
      WithoutKeyKeySet(s[1..], k, key);
      var rest := WithoutKey(s[1..], k, key);
      if key(s[0]) != k {
        assert WithoutKey(s, k, key) == [s[0]] + rest;
        KeySetCons(s[0], rest, key);
      } else {
        assert WithoutKey(s, k, key) == rest;
      }
    }
  }

  /** Removing every entry with key `k` keeps the keys unique. */
  lemma {:induction false} WithoutKeyUnique<T(!new)>(s: seq<T>, k: string, key: T -> string)
    requires UniqueKeys(s, key)
    ensures UniqueKeys(WithoutKey(s, k, key), key)
  {
    if s != [] {
      assert s == [s[0]] + s[1..];
      UniqueKeysCons(s[0], s[1..], key);
      WithoutKeyUnique(s[1..], k, key);
      WithoutKeyKeySet(s[1..], k, key);
      var rest := WithoutKey(s[1..], k, key);
      if key(s[0]) != k {
        assert WithoutKey(s, k, key) == [s[0]] + rest;
        UniqueKeysCons(s[0], rest, key);
      } else {
        assert WithoutKey(s, k, key) == rest;
      }
    }
  }

  /** `s.map(x => x.id === k ? f(x) : x)`. */
  function UpdateWhere<T(!new)>(s: seq<T>, k: string, key: T -> string, f: T -> T): (r: seq<T>)
    ensures |r| == |s|
    ensures forall i :: 0 <= i < |s| && key(s[i]) == k ==> r[i] == f(s[i])
    ensures forall i :: 0 <= i < |s| && key(s[i]) != k ==> r[i] == s[i]
    ensures k !in KeySet(s, key) ==> r == s
  {
    seq(|s|, i requires 0 <= i < |s| => if key(s[i]) == k then f(s[i]) else s[i])
  }

  /** A map that keeps every key keeps the key set and its uniqueness. */
  lemma UpdateWhereKeepsKeys<T(!new)>(s: seq<T>, k: string, key: T -> string, f: T -> T)
    requires forall x :: key(f(x)) == key(x)
    ensures KeySet(UpdateWhere(s, k, key, f), key) == KeySet(s, key)
    ensures UniqueKeys(s, key) ==> UniqueKeys(UpdateWhere(s, k, key, f), key)
  {
    var r := UpdateWhere(s, k, key, f);
    assert forall i :: 0 <= i < |s| ==> key(r[i]) == key(s[i]);
  }

  /** `s.find(x => x.id === k)`: the first element with key `k`. */
  function FindKey<T(==,!new)>(s: seq<T>, k: string, key: T -> string): (r: Option<T>)
    ensures r.None? <==> k !in KeySet(s, key)
    ensures r.Some? ==> exists i ::
      (&& 0 <= i < |s| && s[i] == r.value && key(s[i]) == k
       && forall j :: 0 <= j < i ==> key(s[j]) != k)
  {
    if s == [] then None
    else if key(s[0]) == k then Some(s[0])
    else
      var r := FindKey(s[1..], k, key);
      assert s == [s[0]] + s[1..];
      KeySetCons(s[0], s[1..], key);
      if r.Some? then
        var i :| 0 <= i < |s[1..]| && s[1..][i] == r.value && key(s[1..][i]) == k
          && forall j :: 0 <= j < i ==> key(s[1..][j]) != k;
        assert s[i + 1] == r.value;
        assert forall j :: 0 <= j < i + 1 ==> key(s[j]) != k by {
          forall j | 0 <= j < i + 1 ensures key(s[j]) != k {
            if j > 0 { assert s[j] == s[1..][j - 1]; }
          }
        }
        r
      else
        r
  }

  // ---- a stable sort by a JavaScript comparator ----

  /** `r` is ordered for `cmp`: no neighbour pair that `cmp` would swap. */
  predicate SortedBy<T>(r: seq<T>, cmp: (T, T) -> int) {
    forall i :: 0 <= i < |r| - 1 ==> cmp(r[i], r[i + 1]) <= 0
  }

  /** A comparator never asks to swap a pair both ways round. */
  ghost predicate Asymmetric<T(!new)>(cmp: (T, T) -> int) {
    forall a, b :: cmp(a, b) > 0 ==> cmp(b, a) <= 0
  }

  /** Insert `x` behind every element `cmp` does not place after it. */
  function Insert<T>(r: seq<T>, x: T, cmp: (T, T) -> int): (t: seq<T>)
    ensures multiset(t) == multiset(r) + multiset{x}
    ensures |t| == |r| + 1
    ensures t[|t| - 1] == x || (r != [] && t[|t| - 1] == r[|r| - 1])
  {
    if r == [] then [x]
    else if cmp(r[|r| - 1], x) > 0 then
      assert r == r[..|r| - 1] + [r[|r| - 1]];
      Insert(r[..|r| - 1], x, cmp) + [r[|r| - 1]]
    else r + [x]
  }

  /** `s.sort(cmp)` for a comparator that orders stably: insertion sort, which
      keeps equal elements in their original order as ECMAScript requires. */
  function SortBy<T>(s: seq<T>, cmp: (T, T) -> int): (r: seq<T>)
    ensures multiset(r) == multiset(s)
    ensures |r| == |s|
  {
    if s == [] then []
    else
      assert s == s[..|s| - 1] + [s[|s| - 1]];
      Insert(SortBy(s[..|s| - 1], cmp), s[|s| - 1], cmp)
  }

  lemma {:induction false} InsertSorted<T(!new)>(r: seq<T>, x: T, cmp: (T, T) -> int)
    requires Asymmetric(cmp) && SortedBy(r, cmp)
    ensures SortedBy(Insert(r, x, cmp), cmp)
  {
    if r != [] && cmp(r[|r| - 1], x) > 0 {
      var front := r[..|r| - 1];
      assert SortedBy(front, cmp) by {
        forall i | 0 <= i < |front| - 1 ensures cmp(front[i], front[i + 1]) <= 0 {
          assert front[i] == r[i] && front[i + 1] == r[i + 1];
        }
      }
      InsertSorted(front, x, cmp);
      var t := Insert(front, x, cmp);
      var last := r[|r| - 1];
      if t[|t| - 1] == x {
        assert cmp(x, last) <= 0;
      } else {
        assert front != [] && t[|t| - 1] == front[|front| - 1] == r[|r| - 2];
      }
      SortedSnoc(t, last, cmp);
    } else {
      SortedSnoc(r, x, cmp);
    }
  }

  lemma SortedSnoc<T>(t: seq<T>, y: T, cmp: (T, T) -> int)
    requires SortedBy(t, cmp) && (t != [] ==> cmp(t[|t| - 1], y) <= 0)
    ensures SortedBy(t + [y], cmp)
  {
    var u := t + [y];
    forall i | 0 <= i < |u| - 1 ensures cmp(u[i], u[i + 1]) <= 0 {
      if i < |t| - 1 {
        assert u[i] == t[i] && u[i + 1] == t[i + 1];
      }
    }
  }

  /** `filter` distributes over concatenation. */
  lemma {:induction false} FilterAppend<T(!new)>(a: seq<T>, b: seq<T>, p: T -> bool)
    ensures Filter(a + b, p) == Filter(a, p) + Filter(b, p)
    decreases |a|
  {
    if a == [] {
      assert a + b == b;
    } else {
      assert (a + b)[0] == a[0] && (a + b)[1..] == a[1..] + b;
      FilterAppend(a[1..], b, p);
    }
  }

  /** `p` picks a class of elements that `cmp` never asks to reorder among
      themselves: ties, such as notes with the same sort key. */
  ghost predicate Ties<T(!new)>(cmp: (T, T) -> int, p: T -> bool) {
    forall a, b :: p(a) && p(b) ==> cmp(a, b) <= 0
  }

  /** One element, filtered. */
  lemma FilterSingle<T(!new)>(x: T, p: T -> bool)
    ensures Filter([x], p) == if p(x) then [x] else []
  {
    assert [x][1..] == [];
  }

  /** The step of `Insert` that passes `last`, an element `cmp` puts after
      `x`, leaving it behind; `t` is the insertion into `front`. */
  lemma InsertPasses<T(!new)>(t: seq<T>, front: seq<T>, last: T, x: T, cmp: (T, T) -> int, p: T -> bool)
    requires Ties(cmp, p) && cmp(last, x) > 0
    requires Filter(t, p) == Filter(front, p) + Filter([x], p)
    ensures Filter(t + [last], p) == Filter(front + [last], p) + Filter([x], p)
  {
    FilterAppend(t, [last], p);
    FilterAppend(front, [last], p);
    FilterSingle(last, p);
    FilterSingle(x, p);
    var ft, ff := Filter(t, p), Filter(front, p);
    if p(last) {
      assert !p(x);
      assert ft == ff && ft + [last] == ff + [last] + [];
    } else {
      assert ft + [] == ft && ff + [] == ff;
    }
  }

  /** Inserting `x` puts it behind every element of its own class. */
  lemma {:induction false} InsertStable<T(!new)>(r: seq<T>, x: T, cmp: (T, T) -> int, p: T -> bool)
    requires Ties(cmp, p)
    ensures Filter(Insert(r, x, cmp), p) == Filter(r, p) + Filter([x], p)
    decreases |r|
  {
    if r == [] {
      assert Insert(r, x, cmp) == [x] && r + [x] == [x];
      FilterAppend(r, [x], p);
    } else if cmp(r[|r| - 1], x) > 0 {
      var front, last := r[..|r| - 1], r[|r| - 1];
      assert r == front + [last];
      InsertStable(front, x, cmp, p);
      InsertPasses(Insert(front, x, cmp), front, last, x, cmp, p);
    } else {
      FilterAppend(r, [x], p);
    }
  }

  /** The sort is stable: the elements of a class of ties come out in the
      order they went in. */
  lemma {:induction false} SortByStable<T(!new)>(s: seq<T>, cmp: (T, T) -> int, p: T -> bool)
    requires Ties(cmp, p)
    ensures Filter(SortBy(s, cmp), p) == Filter(s, p)
    decreases |s|
  {
    if s != [] {
      var front, last := s[..|s| - 1], s[|s| - 1];
      assert s == front + [last];
      SortByStable(front, cmp, p);
      InsertStable(SortBy(front, cmp), last, cmp, p);
      FilterAppend(front, [last], p);
    }
  }

  /** With an asymmetric comparator the sorted output has no neighbour pair
      out of order. */
  lemma {:induction false} SortBySorted<T(!new)>(s: seq<T>, cmp: (T, T) -> int)
    requires Asymmetric(cmp)
    ensures SortedBy(SortBy(s, cmp), cmp)
  {
    if s != [] {
      SortBySorted(s[..|s| - 1], cmp);
      InsertSorted(SortBy(s[..|s| - 1], cmp), s[|s| - 1], cmp);
    }
  }
}
