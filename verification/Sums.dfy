/** Sums of a measure over a sequence, and how they move when one element changes. */
module Sums {

  function SumOf<T>(s: seq<T>, f: T -> int): int {
    if s == [] then 0 else SumOf(s[..|s| - 1], f) + f(s[|s| - 1])
  }

  lemma SumAppend<T>(s: seq<T>, x: T, f: T -> int)
    ensures SumOf(s + [x], f) == SumOf(s, f) + f(x)
  {
    assert (s + [x])[..|s|] == s;
  }

  lemma {:induction false} SumUpdate<T>(s: seq<T>, i: nat, x: T, f: T -> int)
    requires i < |s|
    ensures SumOf(s[i := x], f) == SumOf(s, f) - f(s[i]) + f(x)
  {
    var front := s[..|s| - 1];
    if i == |s| - 1 {
      assert s[i := x][..i] == front;
    } else {
      SumUpdate(front, i, x, f);
      assert s[i := x][..|s| - 1] == front[i := x];
    }
  }

  lemma {:induction false} SumAtMost<T(!new)>(s: seq<T>, f: T -> int, g: T -> int)
    requires forall x :: x in s ==> f(x) <= g(x)
    ensures SumOf(s, f) <= SumOf(s, g)
  {
    if s != [] {
      assert s[|s| - 1] in s;
      SumAtMost(s[..|s| - 1], f, g);
    }
  }

  function Nothing<T>(): T -> int {
    (x: T) => 0
  }

  lemma {:induction false} SumNothing<T>(s: seq<T>)
    ensures SumOf(s, Nothing()) == 0
  {
    if s != [] {
      SumNothing(s[..|s| - 1]);
    }
  }

  /** No element of a sum of non-negative parts exceeds the sum. */
  lemma {:induction false} PartOfSum<T(!new)>(s: seq<T>, i: nat, f: T -> int)
    requires i < |s| && forall x :: x in s ==> f(x) >= 0
    ensures 0 <= f(s[i]) <= SumOf(s, f)
  {
    var front := s[..|s| - 1];
    assert s == front + [s[|s| - 1]] && s[|s| - 1] in s;
    if i < |s| - 1 {
      PartOfSum(front, i, f);
    } else {
      SumNothing(front);
      SumAtMost(front, Nothing(), f);
    }
  }
}
