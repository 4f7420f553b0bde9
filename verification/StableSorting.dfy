/** Stable sorting by a total preorder, as the program's list sorts do it. */
module StableSorting {
  import opened Common

  ghost predicate TotalPreorder<T(!new)>(leq: (T, T) -> bool) {
    && (forall x, y :: leq(x, y) || leq(y, x))
    && (forall x, y, z :: leq(x, y) && leq(y, z) ==> leq(x, z))
  }

  ghost predicate Sorted<T(!new)>(leq: (T, T) -> bool, s: seq<T>) {
    forall i, j :: 0 <= i < j < |s| ==> leq(s[i], s[j])
  }

  /** x goes behind every element that is not larger. */
  function Insert<T>(leq: (T, T) -> bool, s: seq<T>, x: T): (r: seq<T>)
    ensures multiset(r) == multiset(s) + multiset{x}
    ensures |r| == |s| + 1
  {
    if s == [] || leq(s[|s| - 1], x) then
      s + [x]
    else
      var init, top := s[..|s| - 1], s[|s| - 1];
      assert s == init + [top];
      Insert(leq, init, x) + [top]
  }

  /** The result of a stable sort by leq. */
  function StableSort<T>(leq: (T, T) -> bool, s: seq<T>): (r: seq<T>)
    ensures multiset(r) == multiset(s)
    ensures |r| == |s|
  {
    if s == [] then []
    else
      assert s == s[..|s| - 1] + [s[|s| - 1]];
      Insert(leq, StableSort(leq, s[..|s| - 1]), s[|s| - 1])
  }

  lemma {:induction false} InsertSorted<T(!new)>(leq: (T, T) -> bool, s: seq<T>, x: T)
    requires TotalPreorder(leq) && Sorted(leq, s)
    ensures Sorted(leq, Insert(leq, s, x))
  {
    if s != [] && !leq(s[|s| - 1], x) {
      var init, top := s[..|s| - 1], s[|s| - 1];
      InsertSorted(leq, init, x);
      var r := Insert(leq, init, x);
      forall i | 0 <= i < |r| ensures leq(r[i], top) {
        assert r[i] in multiset(r);
        if r[i] != x {
          assert r[i] in multiset(init);
          assert r[i] in init;
        }
      }
    }
  }

  lemma {:induction false} StableSortSorted<T(!new)>(leq: (T, T) -> bool, s: seq<T>)
    requires TotalPreorder(leq)
    ensures Sorted(leq, StableSort(leq, s))
  {
    if s != [] {
      StableSortSorted(leq, s[..|s| - 1]);
      InsertSorted(leq, StableSort(leq, s[..|s| - 1]), s[|s| - 1]);
    }
  }

  function TiesWith<T>(leq: (T, T) -> bool, z: T): T -> bool {
    x => leq(x, z) && leq(z, x)
  }

  lemma FilterApart<T(!new)>(a: T, b: T, keep: T -> bool)
    requires !(keep(a) && keep(b))
    ensures Filter([a, b], keep) == Filter([b], keep) + Filter([a], keep)
  {
    assert [a, b][1..] == [b];
  }

  lemma SwapApart<T(!new)>(init: seq<T>, top: T, x: T, inserted: seq<T>, keep: T -> bool)
    requires Filter(inserted, keep) == Filter(init + [x], keep)
    requires !(keep(top) && keep(x))
    ensures Filter(inserted + [top], keep) == Filter(init + [top] + [x], keep)
  {
    hide Filter;
    FilterConcat(inserted, [top], keep);
    FilterConcat(init, [x], keep);
    assert init + [top] + [x] == init + [top, x];
    FilterConcat(init, [top, x], keep);
    FilterApart(top, x, keep);
  }

  lemma {:induction false} InsertKeepsTies<T(!new)>(leq: (T, T) -> bool, s: seq<T>, x: T, z: T)
    requires TotalPreorder(leq) && Sorted(leq, s)
    ensures Filter(Insert(leq, s, x), TiesWith(leq, z)) == Filter(s + [x], TiesWith(leq, z))
  {
    if s != [] && !leq(s[|s| - 1], x) {
      hide Filter;
      var init, top := s[..|s| - 1], s[|s| - 1];
      InsertKeepsTies(leq, init, x, z);
      assert s == init + [top];
      SwapApart(init, top, x, Insert(leq, init, x), TiesWith(leq, z));
    }
  }

  /** Items with equal keys keep their arrival order: sorting never reorders ties. */
  lemma {:induction false} StableSortKeepsTies<T(!new)>(leq: (T, T) -> bool, s: seq<T>, z: T)
    requires TotalPreorder(leq)
    ensures Filter(StableSort(leq, s), TiesWith(leq, z)) == Filter(s, TiesWith(leq, z))
  {
    if s != [] {
      var init, x, tie := s[..|s| - 1], s[|s| - 1], TiesWith(leq, z);
      StableSortKeepsTies(leq, init, z);
      StableSortSorted(leq, init);
      InsertKeepsTies(leq, StableSort(leq, init), x, z);
      FilterConcat(StableSort(leq, init), [x], tie);
      FilterConcat(init, [x], tie);
      assert s == init + [x];
    }
  }

  ghost predicate StrictlySorted<T(!new)>(leq: (T, T) -> bool, s: seq<T>) {
    forall i, j :: 0 <= i < j < |s| ==> leq(s[i], s[j]) && !leq(s[j], s[i])
  }

  lemma RestOf<T>(s: seq<T>)
    requires s != []
    ensures multiset(s[1..]) == multiset(s) - multiset{s[0]}
  {
    assert s == [s[0]] + s[1..];
  }

  /** Where the first element of a sequence sits in a rearrangement of it. */
  lemma FirstInRearranged<T>(a: seq<T>, b: seq<T>) returns (before: seq<T>, after: seq<T>)
    requires a != [] && multiset(a) == multiset(b)
    ensures b == before + ([a[0]] + after)
    ensures multiset(a[1..]) == multiset(before + after)
  {
    assert a[0] in multiset(b);
    var i :| 0 <= i < |b| && b[i] == a[0];
    before, after := b[..i], b[i + 1..];
    assert b == before + ([a[0]] + after);
    RestOf(a);
  }

  ghost predicate DistinctKeys<T(!new), K(!new)>(key: T -> K, s: seq<T>) {
    forall i, j :: 0 <= i < j < |s| ==> key(s[i]) != key(s[j])
  }

  lemma {:induction false} AppearsOnce<T(!new), K(!new)>(key: T -> K, s: seq<T>, x: T)
    requires DistinctKeys(key, s)
    ensures multiset(s)[x] <= 1
  {
    if s != [] {
      assert s == [s[0]] + s[1..];
      AppearsOnce(key, s[1..], x);
      if s[0] == x {
        assert x !in s[1..];
      }
    }
  }

  /** Rearranging keeps keys distinct. */
  lemma DistinctRearranged<T(!new), K(!new)>(key: T -> K, a: seq<T>, b: seq<T>)
    requires DistinctKeys(key, a) && multiset(a) == multiset(b)
    ensures DistinctKeys(key, b)
  {
    forall i, j | 0 <= i < j < |b| ensures key(b[i]) != key(b[j]) {
      assert b == b[..j] + [b[j]] + b[j + 1..];
      assert b[i] in b[..j];
      assert b[i] in multiset(a) && b[j] in multiset(a);
      if b[i] == b[j] {
        assert multiset(b)[b[i]] >= 2;
        AppearsOnce(key, a, b[i]);
      } else {
        var k :| 0 <= k < |a| && a[k] == b[i];
        var l :| 0 <= l < |a| && a[l] == b[j];
      }
    }
  }

  lemma {:induction false} FilterMultiset<T(!new)>(s: seq<T>, keep: T -> bool, x: T)
    ensures multiset(Filter(s, keep))[x] == if keep(x) then multiset(s)[x] else 0
  {
    if s != [] {
      FilterMultiset(s[1..], keep, x);
      assert s == [s[0]] + s[1..];
    }
  }

  /** Which elements a filter keeps, and how often, does not depend on their order. */
  lemma FilterRearranged<T(!new)>(a: seq<T>, b: seq<T>, keep: T -> bool)
    requires multiset(a) == multiset(b)
    ensures multiset(Filter(a, keep)) == multiset(Filter(b, keep))
  {
    forall x ensures multiset(Filter(a, keep))[x] == multiset(Filter(b, keep))[x] {
      FilterMultiset(a, keep, x);
      FilterMultiset(b, keep, x);
    }
  }

  lemma SameLength<T>(a: seq<T>, b: seq<T>)
    requires multiset(a) == multiset(b)
    ensures |a| == |b|
  {
    assert |multiset(a)| == |a| && |multiset(b)| == |b|;
  }

  lemma SmallestFirst<T(!new)>(leq: (T, T) -> bool, s: seq<T>, t: seq<T>)
    requires TotalPreorder(leq) && Sorted(leq, s) && StrictlySorted(leq, t)
    requires multiset(s) == multiset(t) && s != []
    ensures t != [] && s[0] == t[0]
  {
    assert s[0] in multiset(t);
    var j :| 0 <= j < |t| && t[j] == s[0];
    assert t[0] in multiset(s);
    var i :| 0 <= i < |s| && s[i] == t[0];
    assert leq(s[0], t[0]);
  }

  /** Only one arrangement of distinct keys is sorted. */
  lemma {:induction false} SortedIsUnique<T(!new)>(leq: (T, T) -> bool, s: seq<T>, t: seq<T>)
    requires TotalPreorder(leq) && Sorted(leq, s) && StrictlySorted(leq, t)
    requires multiset(s) == multiset(t)
    ensures s == t
    decreases |s|
  {
    assert |multiset(s)| == |s| && |multiset(t)| == |t|;
    if s != [] {
      SmallestFirst(leq, s, t);
      RestOf(s);
      RestOf(t);
      SortedIsUnique(leq, s[1..], t[1..]);
    }
  }
}
