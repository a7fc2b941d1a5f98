/** The array methods the source leans on — `filter`, `find`, `includes`-based
    removal and a comparator `sort` — as functions on sequences. */
module Seqs {
  import opened Wrappers

  /** `s.filter(p)`: the order-preserving subsequence of elements satisfying `p`. */
  function Filter<T>(s: seq<T>, p: T -> bool): (r: seq<T>)
    ensures |r| <= |s|
    ensures forall i | 0 <= i < |r| :: r[i] in s && p(r[i])
    ensures forall i | 0 <= i < |s| :: p(s[i]) ==> s[i] in r
  {
    if s == [] then []
    else
      assert s == [s[0]] + s[1..];
      (if p(s[0]) then [s[0]] else []) + Filter(s[1..], p)
  }

  /** Filtering never adds or duplicates an element. */
  lemma {:induction false} FilterSubMultiset<T>(s: seq<T>, p: T -> bool)
    ensures multiset(Filter(s, p)) <= multiset(s)
  {
    if s != [] {
      FilterSubMultiset(s[1..], p);
      FilterCons(s, p);
      assert s == [s[0]] + s[1..];
      assert multiset(s) == multiset{s[0]} + multiset(s[1..]);
    }
  }

  /** Filtering by a predicate every element satisfies returns the input unchanged. */
  lemma {:induction false} FilterAll<T>(s: seq<T>, p: T -> bool)
    requires forall i | 0 <= i < |s| :: p(s[i])
    ensures Filter(s, p) == s
  {
    if s != [] {
      FilterAll(s[1..], p);
      assert [s[0]] + s[1..] == s;
    }
  }

  /** Filtering by a predicate no element satisfies returns nothing. */
  lemma {:induction false} FilterNone<T>(s: seq<T>, p: T -> bool)
    requires forall i | 0 <= i < |s| :: !p(s[i])
    ensures Filter(s, p) == []
  {
    if s != [] {
      FilterNone(s[1..], p);
    }
  }

  /** Filtering distributes over concatenation. */
  lemma {:induction false} FilterAppend<T>(a: seq<T>, b: seq<T>, p: T -> bool)
    ensures Filter(a + b, p) == Filter(a, p) + Filter(b, p)
  {
    if a == [] {
      assert a + b == b;
    } else {
      var ab := a + b;
      assert ab[0] == a[0] && ab[1..] == a[1..] + b;
      FilterAppend(a[1..], b, p);
      FilterCons(ab, p);
      FilterCons(a, p);
    }
  }

  /** One step of `Filter` on a non-empty sequence. */
  lemma FilterCons<T>(s: seq<T>, p: T -> bool)
    requires s != []
    ensures Filter(s, p) == (if p(s[0]) then [s[0]] else []) + Filter(s[1..], p)
  {
  }

  /** When `p` holds exactly on the index block `[lo, hi)`, filtering returns that slice. */
  lemma FilterBlock<T>(s: seq<T>, p: T -> bool, lo: nat, hi: nat)
    requires lo <= hi <= |s|
    requires forall i | 0 <= i < |s| :: p(s[i]) <==> lo <= i < hi
    ensures Filter(s, p) == s[lo..hi]
  {
    FilterSlice(s, p, 0, lo, false);
    FilterSlice(s, p, lo, hi, true);
    FilterSlice(s, p, hi, |s|, false);
    FilterJoin(s, p, lo, hi);
  }

  lemma FilterJoin<T>(s: seq<T>, p: T -> bool, lo: nat, hi: nat)
    requires lo <= hi <= |s|
    requires Filter(s[0..lo], p) == [] && Filter(s[hi..|s|], p) == []
    requires Filter(s[lo..hi], p) == s[lo..hi]
    ensures Filter(s, p) == s[lo..hi]
  {
    var a, m, b := s[0..lo], s[lo..hi], s[hi..|s|];
    SliceThree(s, lo, hi);
    FilterAppend(a + m, b, p);
    FilterAppend(a, m, p);
    assert [] + m + [] == m;
  }

  lemma SliceThree<T>(s: seq<T>, lo: nat, hi: nat)
    requires lo <= hi <= |s|
    ensures s[0..lo] + s[lo..hi] + s[hi..|s|] == s
  {
  }

  /** A slice on which `p` is constantly `keep` filters to itself or to nothing. */
  lemma FilterSlice<T>(s: seq<T>, p: T -> bool, lo: nat, hi: nat, keep: bool)
    requires lo <= hi <= |s|
    requires forall i | lo <= i < hi :: p(s[i]) == keep
    ensures Filter(s[lo..hi], p) == if keep then s[lo..hi] else []
  {
    var m := s[lo..hi];
    forall i | 0 <= i < |m| ensures p(m[i]) == keep { assert m[i] == s[lo + i]; }
    if keep { FilterAll(m, p); } else { FilterNone(m, p); }
  }

  /** `s.filter(y => y !== x)`. */
  function RemoveAll<T(==)>(s: seq<T>, x: T): (r: seq<T>)
    ensures x !in r
    ensures forall i | 0 <= i < |r| :: r[i] in s
    ensures forall i | 0 <= i < |s| :: s[i] != x ==> s[i] in r
    ensures multiset(r) <= multiset(s)
  {
    var p := y => y != x;
    FilterSubMultiset(s, p);
    Filter(s, p)
  }

  /** Removing an element that is absent changes nothing. */
  lemma RemoveAbsent<T>(s: seq<T>, x: T)
    requires x !in s
    ensures RemoveAll(s, x) == s
  {
    FilterAll(s, y => y != x);
  }

  /** Appending an element that was absent and then removing it gives back the original. */
  lemma RemoveAppended<T>(s: seq<T>, x: T)
    requires x !in s
    ensures RemoveAll(s + [x], x) == s
  {
    var p := y => y != x;
    FilterAppend(s, [x], p);
    assert Filter([x], p) == [];
    RemoveAbsent(s, x);
  }

  /** `s.find(p)`: the first element satisfying `p`, if any. */
  function Find<T>(s: seq<T>, p: T -> bool): (r: Option<T>)
    ensures r.None? <==> forall i | 0 <= i < |s| :: !p(s[i])
    ensures r.Some? ==> p(r.value) && r.value in s
    ensures r.Some? ==> exists i | 0 <= i < |s| :: s[i] == r.value && forall j | 0 <= j < i :: !p(s[j])
  {
    if s == [] then None
    else if p(s[0]) then Some(s[0])
    else
      var r := Find(s[1..], p);
      assert forall i | 1 <= i < |s| :: s[i] == s[1..][i - 1];
      r
  }

  /** Two sequences with the same multiset have the same members. */
  lemma SameMembers<T>(a: seq<T>, b: seq<T>)
    requires multiset(a) == multiset(b)
    ensures forall i | 0 <= i < |a| :: a[i] in b
    ensures forall i | 0 <= i < |b| :: b[i] in a
  {
    forall i | 0 <= i < |a| ensures a[i] in b {
      assert a[i] in multiset(b);
    }
    forall i | 0 <= i < |b| ensures b[i] in a {
      assert b[i] in multiset(a);
    }
  }

  // ---------------------------------------------------------------- comparator sort

  /** `before(a, b)` means the comparator does not put `b` strictly ahead of `a`. */
  ghost predicate TotalPreorder<T(!new)>(before: (T, T) -> bool) {
    && (forall a, b :: before(a, b) || before(b, a))
    && (forall a, b, c :: before(a, b) && before(b, c) ==> before(a, c))
  }

  predicate SortedBy<T>(s: seq<T>, before: (T, T) -> bool) {
    forall i, j | 0 <= i < j < |s| :: before(s[i], s[j])
  }

  /** Insert `x` ahead of the first element it may precede; ties keep `x` first. */
  function Insert<T(!new)>(x: T, s: seq<T>, before: (T, T) -> bool): (r: seq<T>)
    requires TotalPreorder(before) && SortedBy(s, before)
    ensures multiset(r) == multiset(s) + multiset{x}
    ensures SortedBy(r, before)
  {
    if s == [] then [x]
    else if before(x, s[0]) then [x] + s
    else
      var t := Insert(x, s[1..], before);
      InsertHead(x, s, t, before);
      assert s == [s[0]] + s[1..];
      [s[0]] + t
  }

  lemma InsertHead<T(!new)>(x: T, s: seq<T>, t: seq<T>, before: (T, T) -> bool)
    requires TotalPreorder(before) && SortedBy(s, before) && s != [] && !before(x, s[0])
    requires multiset(t) == multiset(s[1..]) + multiset{x} && SortedBy(t, before)
    ensures SortedBy([s[0]] + t, before)
  {
    assert before(s[0], x);
    forall k | 0 <= k < |t| ensures before(s[0], t[k]) {
      assert t[k] in multiset(t);
      if t[k] != x {
        assert t[k] in multiset(s[1..]);
        var j :| 0 <= j < |s[1..]| && s[1..][j] == t[k];
        assert s[j + 1] == t[k];
      }
    }
  }

  /** A stable sort by comparator, the behaviour of `Array.prototype.sort`: the result
      is a permutation of the input in comparator order. */
  function Sort<T(!new)>(s: seq<T>, before: (T, T) -> bool): (r: seq<T>)
    requires TotalPreorder(before)
    ensures multiset(r) == multiset(s)
    ensures SortedBy(r, before)
  {
    if s == [] then []
    else
      assert s == [s[0]] + s[1..];
      Insert(s[0], Sort(s[1..], before), before)
  }
}
