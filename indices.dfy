/**
 * Index bookkeeping on one-dimensional integer arrays: the numpy routines the
 * simulator uses (arange, random.choice without replacement, take, delete,
 * setdiff1d, isin, argsort and fancy-index assignment), stated on sequences.
 */
module Indices {

  /** `np.arange(n)` */
  function Range(n: nat): seq<int> {
    seq(n, i => i)
  }

  /** Every entry lies in [0, n). */
  predicate InRange(s: seq<int>, n: int) {
    forall i :: 0 <= i < |s| ==> 0 <= s[i] < n
  }

  /** No entry repeats. */
  predicate Distinct(s: seq<int>) {
    forall i, j :: 0 <= i < j < |s| ==> s[i] != s[j]
  }

  /** Strictly ascending. */
  predicate Increasing(s: seq<int>) {
    forall i, j :: 0 <= i < j < |s| ==> s[i] < s[j]
  }

  /** What `np.random.choice(n, size=k, replace=False)` can return. */
  predicate IsChoice(s: seq<int>, n: int, k: int) {
    |s| == k && InRange(s, n) && Distinct(s)
  }

  /** What `np.random.permutation(n)` can return. */
  predicate IsPermutation(s: seq<int>, n: int) {
    IsChoice(s, n, n)
  }

  /** `s[idx]` (`np.take`): entry t is `s[idx[t]]`. */
  function Take<T>(s: seq<T>, idx: seq<int>): seq<T>
    requires InRange(idx, |s|)
  {
    seq(|idx|, t requires 0 <= t < |idx| => s[idx[t]])
  }

  /**
   * The ascending positions x in [0, n) with `(x in s) == keep`: with keep false this is
   * `np.setdiff1d(np.arange(n), s)`, with keep true the values of `s` below n in ascending order.
   */
  function Filter(n: nat, s: seq<int>, keep: bool): (r: seq<int>)
    ensures Increasing(r) && InRange(r, n)
    ensures forall x {:trigger x in r} :: x in r <==> 0 <= x < n && (x in s) == keep
  {
    if n == 0 then []
    else
      var prefix := Filter(n - 1, s, keep);
      if (n - 1 in s) == keep then prefix + [n - 1] else prefix
  }

  /** `np.setdiff1d(np.arange(n), s)` */
  function SetDiff(n: nat, s: seq<int>): seq<int> {
    Filter(n, s, false)
  }

  /** `np.delete(s, idx)`: the entries of `s` at positions not in `idx`, in their order. */
  function Delete<T>(s: seq<T>, idx: seq<int>): seq<T> {
    Take(s, SetDiff(|s|, idx))
  }

  /** `np.isin(np.arange(n), s).astype(int)` for keep true; its complement for keep false. */
  function Indicator(n: nat, s: seq<int>, keep: bool): seq<int> {
    seq(n, i => if (i in s) == keep then 1 else 0)
  }

  function Sum(s: seq<int>): int {
    if |s| == 0 then 0 else Sum(s[..|s| - 1]) + s[|s| - 1]
  }

  /** Position of the first occurrence of `v`. */
  function IndexOf(s: seq<int>, v: int): (r: nat)
    requires v in s
    ensures r < |s| && s[r] == v && v !in s[..r]
  {
    if s[0] == v then 0 else 1 + IndexOf(s[1..], v)
  }

  /**
   * Fancy-index assignment `base[pos] = vals`, performed left to right as numpy does
   * for the distinct positions the simulator uses.
   */
  function Scatter(base: seq<int>, pos: seq<int>, vals: seq<int>): (r: seq<int>)
    requires |vals| == |pos| && InRange(pos, |base|)
    ensures |r| == |base|
  {
    if |pos| == 0 then base
    else Scatter(base, pos[..|pos| - 1], vals[..|pos| - 1])[pos[|pos| - 1] := vals[|pos| - 1]]
  }

  /** One more than the largest entry, and 0 for an empty or all-negative sequence. */
  function Bound(s: seq<int>): (b: nat)
    ensures forall x :: x in s ==> x < b
  {
    if |s| == 0 then 0
    else
      var b := Bound(s[..|s| - 1]);
      assert forall x :: x in s ==> x in s[..|s| - 1] || x == s[|s| - 1];
      if s[|s| - 1] + 1 > b then s[|s| - 1] + 1 else b
  }

  /** `np.argsort(s)` for distinct non-negative entries: the positions of the values in ascending order. */
  function Argsort(s: seq<int>): seq<int> {
    var vals := Filter(Bound(s), s, true);
    seq(|vals|, k requires 0 <= k < |vals| => assert vals[k] in vals; IndexOf(s, vals[k]))
  }

  // ---------------------------------------------------------------- lemmas

  lemma {:induction false} DistinctCard(s: seq<int>)
    requires Distinct(s)
    ensures |set x | x in s| == |s|
  {
    if |s| > 0 {
      var p := s[..|s| - 1];
      DistinctCard(p);
      assert (set x | x in s) == (set x | x in p) + {s[|s| - 1]};
      assert s[|s| - 1] !in p;
    }
  }

  /** The values of `s` in [0, n), as a set. */
  ghost function Below(s: seq<int>, n: int): set<int> {
    set x | x in s && 0 <= x < n
  }

  /** Adding position n - 1 to the range adds it to the values below the bound exactly when it occurs. */
  lemma BelowStep(s: seq<int>, n: nat)
    requires n > 0
    ensures Below(s, n) == if n - 1 in s then Below(s, n - 1) + {n - 1} else Below(s, n - 1)
    ensures n - 1 !in Below(s, n - 1)
  {
    if n - 1 in s {
      forall x ensures x in Below(s, n) <==> x in Below(s, n - 1) || x == n - 1 { }
    } else {
      forall x ensures x in Below(s, n) <==> x in Below(s, n - 1) { }
    }
  }

  /** The length of a filter of [0, n), one position at a time. */
  lemma FilterLength(n: nat, s: seq<int>, keep: bool)
    requires n > 0
    ensures |Filter(n, s, keep)| == |Filter(n - 1, s, keep)| + if (n - 1 in s) == keep then 1 else 0
  {
  }

  lemma {:induction false} FilterCountBelow(n: nat, s: seq<int>)
    ensures |Filter(n, s, true)| == |Below(s, n)|
  {
    if n > 0 {
      FilterCountBelow(n - 1, s);
      FilterLength(n, s, true);
      BelowStep(s, n);
    }
  }

  /** Every position of [0, n) is kept by exactly one of the two filters. */
  lemma {:induction false} FilterSplit(n: nat, s: seq<int>)
    ensures |Filter(n, s, true)| + |Filter(n, s, false)| == n
  {
    if n > 0 {
      FilterSplit(n - 1, s);
      FilterLength(n, s, true);
      FilterLength(n, s, false);
    }
  }

  /** Filtering [0, n) by membership in k distinct in-range indices keeps k and drops n - k. */
  lemma FilterCount(n: nat, s: seq<int>)
    requires Distinct(s) && InRange(s, n)
    ensures |Filter(n, s, true)| == |s|
    ensures |SetDiff(n, s)| == n - |s|
  {
    FilterCountBelow(n, s);
    FilterSplit(n, s);
    assert Below(s, n) == (set x | x in s);
    DistinctCard(s);
  }

  /** The indicator of [0, n) against `s` sums to the number of positions it keeps. */
  lemma {:induction false} IndicatorSum(n: nat, s: seq<int>, keep: bool)
    ensures Sum(Indicator(n, s, keep)) == |Filter(n, s, keep)|
  {
    if n > 0 {
      IndicatorSum(n - 1, s, keep);
      assert Indicator(n, s, keep)[..n - 1] == Indicator(n - 1, s, keep);
    }
  }

  /** A distinct in-range sequence is located by IndexOf at its own positions. */
  lemma IndexOfDistinct(s: seq<int>, t: int)
    requires Distinct(s) && 0 <= t < |s|
    ensures IndexOf(s, s[t]) == t
  {
  }

  /** Fancy-index assignment at distinct positions writes each value where asked and nothing else. */
  lemma {:induction false} ScatterAt(base: seq<int>, pos: seq<int>, vals: seq<int>)
    requires |vals| == |pos| && InRange(pos, |base|) && Distinct(pos)
    ensures forall t :: 0 <= t < |pos| ==> Scatter(base, pos, vals)[pos[t]] == vals[t]
    ensures forall i :: 0 <= i < |base| && i !in pos ==> Scatter(base, pos, vals)[i] == base[i]
  {
    if |pos| > 0 {
      var m := |pos| - 1;
      ScatterAt(base, pos[..m], vals[..m]);
      forall i | 0 <= i < |base| && i !in pos
        ensures Scatter(base, pos, vals)[i] == base[i]
      {
        assert i !in pos[..m];
      }
      forall t | 0 <= t < m
        ensures Scatter(base, pos, vals)[pos[t]] == vals[t]
      {
        assert pos[..m][t] == pos[t];
      }
    }
  }

  /** One more step of the left-to-right assignment. */
  lemma ScatterSnoc(base: seq<int>, pos: seq<int>, vals: seq<int>, t: nat)
    requires |vals| == |pos| && InRange(pos, |base|) && t < |pos|
    ensures Scatter(base, pos[..t + 1], vals[..t + 1]) == Scatter(base, pos[..t], vals[..t])[pos[t] := vals[t]]
  {
    assert pos[..t + 1][..t] == pos[..t] && vals[..t + 1][..t] == vals[..t];
  }

  /** Gathering a distinct sequence at distinct positions gives a distinct sequence. */
  lemma TakeDistinct(s: seq<int>, idx: seq<int>)
    requires Distinct(s) && Distinct(idx) && InRange(idx, |s|)
    ensures Distinct(Take(s, idx))
  {
  }

  /** A strictly ascending sequence of n values drawn from [0, n) is 0, 1, ..., n - 1. */
  lemma {:induction false} IncreasingFillsRange(s: seq<int>, n: nat)
    requires |s| == n && InRange(s, n) && Increasing(s)
    ensures s == Range(n)
  {
    if n > 0 {
      var p := s[..n - 1];
      assert forall i :: 0 <= i < n - 1 ==> p[i] < s[n - 1];
      assert s[n - 1] == n - 1 by {
        if s[n - 1] < n - 1 {
          IncreasingBelow(s, n - 1);
        }
      }
      IncreasingFillsRange(p, n - 1);
      assert s == p + [s[n - 1]];
    }
  }

  /** The last of m + 1 strictly ascending non-negative values is at least m. */
  lemma {:induction false} IncreasingBelow(s: seq<int>, m: nat)
    requires |s| == m + 1 && Increasing(s) && (forall i :: 0 <= i < |s| ==> 0 <= s[i])
    ensures s[m] >= m
  {
    if m > 0 {
      IncreasingBelow(s[..m], m - 1);
    }
  }

  /**
   * np.argsort on distinct non-negative values: a permutation of the positions
   * under which the values are strictly ascending.
   */
  lemma ArgsortSorts(s: seq<int>)
    requires Distinct(s) && forall i :: 0 <= i < |s| ==> 0 <= s[i]
    ensures IsPermutation(Argsort(s), |s|)
    ensures InRange(Argsort(s), |s|) && Increasing(Take(s, Argsort(s)))
  {
    var b := Bound(s);
    var vals := Filter(b, s, true);
    assert forall i :: 0 <= i < |s| ==> s[i] in s;
    assert InRange(s, b);
    FilterCount(b, s);
    var a := Argsort(s);
    assert forall k :: 0 <= k < |a| ==> s[a[k]] == vals[k];
  }

  /** For a permutation, argsort is its inverse: `p[Argsort(p)[v]] == v`. */
  lemma ArgsortInverts(p: seq<int>)
    requires IsPermutation(p, |p|)
    ensures IsPermutation(Argsort(p), |p|)
    ensures Take(p, Argsort(p)) == Range(|p|)
  {
    ArgsortSorts(p);
    IncreasingFillsRange(Take(p, Argsort(p)), |p|);
  }
}
