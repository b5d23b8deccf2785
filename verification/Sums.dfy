/** Weighted sums over a table, the aggregate every ledger, quota and capacity query is built from. */
module Sums {

  /** The sum of `w` over the rows of `s`, as SQL's SUM(CASE ...) computes it. */
  function Sum<T>(s: seq<T>, w: T -> int): int {
    if s == [] then 0 else Sum(s[..|s| - 1], w) + w(s[|s| - 1])
  }

  lemma SumAppend<T>(s: seq<T>, x: T, w: T -> int)
    ensures Sum(s + [x], w) == Sum(s, w) + w(x)
  {
    assert (s + [x])[..|s|] == s;
  }

  /** Two tables whose rows weigh the same, row by row, have the same sum. */
  lemma {:induction false} SumSame<T, U>(s: seq<T>, t: seq<U>, w: T -> int, v: U -> int)
    requires |s| == |t|
    requires forall i :: 0 <= i < |s| ==> w(s[i]) == v(t[i])
    ensures Sum(s, w) == Sum(t, v)
  {
    if s != [] {
      SumSame(s[..|s| - 1], t[..|t| - 1], w, v);
    }
  }

  lemma {:induction false} SumAtMost<T, U>(s: seq<T>, t: seq<U>, w: T -> int, v: U -> int)
    requires |s| == |t|
    requires forall i :: 0 <= i < |s| ==> w(s[i]) <= v(t[i])
    ensures Sum(s, w) <= Sum(t, v)
  {
    if s != [] {
      SumAtMost(s[..|s| - 1], t[..|t| - 1], w, v);
    }
  }

  lemma {:induction false} SumZero<T>(s: seq<T>, w: T -> int)
    requires forall i :: 0 <= i < |s| ==> w(s[i]) == 0
    ensures Sum(s, w) == 0
  {
    if s != [] {
      SumZero(s[..|s| - 1], w);
    }
  }

  lemma {:induction false} SumNonnegative<T>(s: seq<T>, w: T -> int)
    requires forall i :: 0 <= i < |s| ==> 0 <= w(s[i])
    ensures 0 <= Sum(s, w)
  {
    if s != [] {
      SumNonnegative(s[..|s| - 1], w);
    }
  }

  /** Rewriting one row moves the sum by the difference of that row's weight. */
  lemma {:induction false} SumUpdate<T>(s: seq<T>, i: nat, x: T, w: T -> int)
    requires i < |s|
    ensures Sum(s[i := x], w) == Sum(s, w) - w(s[i]) + w(x)
  {
    var n := |s| - 1;
    if i == n {
      assert s[i := x][..n] == s[..n];
    } else {
      assert s[i := x][..n] == s[..n][i := x];
      SumUpdate(s[..n], i, x, w);
    }
  }

  lemma {:induction false} SumScaled<T, U>(s: seq<T>, t: seq<U>, w: T -> int, v: U -> int, k: int)
    requires |s| == |t|
    requires forall i :: 0 <= i < |s| ==> w(s[i]) <= k * v(t[i])
    ensures Sum(s, w) <= k * Sum(t, v)
  {
    if s != [] {
      SumScaled(s[..|s| - 1], t[..|t| - 1], w, v, k);
    }
  }

  /** A row with positive weight among nonnegative ones shows in the sum. */
  lemma {:induction false} SumMember<T>(s: seq<T>, i: nat, w: T -> int)
    requires i < |s|
    requires forall k :: 0 <= k < |s| ==> 0 <= w(s[k])
    ensures w(s[i]) <= Sum(s, w)
  {
    var n := |s| - 1;
    if i < n {
      SumMember(s[..n], i, w);
    } else {
      SumNonnegative(s[..n], w);
    }
  }

  /** The sum of two weights is the weight of the sum. */
  lemma {:induction false} SumSplit<T>(s: seq<T>, w: T -> int, a: T -> int, b: T -> int)
    requires forall i :: 0 <= i < |s| ==> w(s[i]) == a(s[i]) + b(s[i])
    ensures Sum(s, w) == Sum(s, a) + Sum(s, b)
  {
    if s != [] {
      SumSplit(s[..|s| - 1], w, a, b);
    }
  }

  /** Counts the rows whose key is `i`. */
  function Keyed<T>(key: T -> int, i: int): T -> int {
    (x: T) => if key(x) == i then 1 else 0
  }
}
