/** Small vocabulary shared by every component: optional values, results, and
    sums of a weight over the rows of a table. */
module Common {

  datatype Option<+T> = None | Some(value: T)

  datatype Result<+T, +E> = Ok(value: T) | Err(error: E)

  function Min(a: int, b: int): int {
    if a <= b then a else b
  }

  /** The sum of `w` over all rows of `s`; a count when `w` is 0/1. */
  function Sum<T>(s: seq<T>, w: T -> int): int {
    if s == [] then 0 else Sum(s[..|s| - 1], w) + w(s[|s| - 1])
  }

  lemma SumAppend<T>(s: seq<T>, x: T, w: T -> int)
    ensures Sum(s + [x], w) == Sum(s, w) + w(x)
  {
    assert (s + [x])[..|s|] == s;
  }

  lemma {:induction false} SumUpdate<T>(s: seq<T>, i: nat, x: T, w: T -> int)
    requires i < |s|
    ensures Sum(s[i := x], w) == Sum(s, w) - w(s[i]) + w(x)
  {
    var n := |s| - 1;
    if i == n {
      assert s[i := x][..n] == s[..n];
    } else {
      SumUpdate(s[..n], i, x, w);
      assert s[i := x][..n] == s[..n][i := x];
    }
  }

  /** Two tables whose rows weigh the same, position by position, sum to the same. */
  lemma {:induction false} SumPointwise<T>(s: seq<T>, t: seq<T>, w: T -> int, v: T -> int)
    requires |s| == |t|
    requires forall i :: 0 <= i < |s| ==> w(s[i]) == v(t[i])
    ensures Sum(s, w) == Sum(t, v)
  {
    if s != [] {
      SumPointwise(s[..|s| - 1], t[..|t| - 1], w, v);
    }
  }

  lemma {:induction false} SumGrowsPointwise<T>(s: seq<T>, t: seq<T>, w: T -> int)
    requires |s| == |t|
    requires forall i :: 0 <= i < |s| ==> w(s[i]) <= w(t[i])
    ensures Sum(s, w) <= Sum(t, w)
  {
    if s != [] {
      SumGrowsPointwise(s[..|s| - 1], t[..|t| - 1], w);
    }
  }

  lemma {:induction false} SumOfZeros<T>(s: seq<T>, w: T -> int)
    requires forall i :: 0 <= i < |s| ==> w(s[i]) == 0
    ensures Sum(s, w) == 0
  {
    if s != [] {
      SumOfZeros(s[..|s| - 1], w);
    }
  }

  lemma {:induction false} SumNonNegative<T>(s: seq<T>, w: T -> int)
    requires forall i :: 0 <= i < |s| ==> 0 <= w(s[i])
    ensures 0 <= Sum(s, w)
  {
    if s != [] {
      SumNonNegative(s[..|s| - 1], w);
    }
  }

  lemma {:induction false} SumBelow<T>(s: seq<T>, w: T -> int, v: T -> int)
    requires forall i :: 0 <= i < |s| ==> w(s[i]) <= v(s[i])
    ensures Sum(s, w) <= Sum(s, v)
  {
    if s != [] {
      SumBelow(s[..|s| - 1], w, v);
    }
  }

  /** A row of a non-negative table weighs no more than the table. */
  lemma {:induction false} SumCoversRow<T>(s: seq<T>, i: nat, w: T -> int)
    requires i < |s|
    requires forall k :: 0 <= k < |s| ==> 0 <= w(s[k])
    ensures w(s[i]) <= Sum(s, w)
  {
    if i == |s| - 1 {
      SumNonNegative(s[..|s| - 1], w);
    } else {
      SumCoversRow(s[..|s| - 1], i, w);
    }
  }

  /** Two different rows together weigh no more than a non-negative table. */
  lemma {:induction false} SumCoversTwoRows<T>(s: seq<T>, i: nat, j: nat, w: T -> int)
    requires i < j < |s|
    requires forall k :: 0 <= k < |s| ==> 0 <= w(s[k])
    ensures w(s[i]) + w(s[j]) <= Sum(s, w)
  {
    if j == |s| - 1 {
      SumCoversRow(s[..|s| - 1], i, w);
    } else {
      SumCoversTwoRows(s[..|s| - 1], i, j, w);
    }
  }

  ghost function Counted<T>(s: seq<T>, w: T -> int): set<int> {
    set i | 0 <= i < |s| && w(s[i]) == 1
  }

  /** The sum of a 0/1 weight counts the rows that weigh. */
  lemma {:induction false} SumCounts<T>(s: seq<T>, w: T -> int)
    requires forall i :: 0 <= i < |s| ==> w(s[i]) == 0 || w(s[i]) == 1
    ensures Sum(s, w) == |Counted(s, w)|
  {
    if s == [] {
      assert Counted(s, w) == {};
    } else {
      var n := |s| - 1;
      SumCounts(s[..n], w);
      assert Counted(s, w) == Counted(s[..n], w) + if w(s[n]) == 1 then {n} else {};
    }
  }

  /** A table with positive total has a row with positive weight. */
  lemma {:induction false} SumHasRow<T>(s: seq<T>, w: T -> int) returns (i: nat)
    requires 0 < Sum(s, w)
    ensures i < |s| && 0 < w(s[i])
  {
    if 0 < w(s[|s| - 1]) {
      i := |s| - 1;
    } else {
      i := SumHasRow(s[..|s| - 1], w);
    }
  }
}
