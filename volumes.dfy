/**
 * A 3-D scan volume as nested sequences indexed [x][y][z], its shape, and the
 * slice operations the simulator performs along one axis: read a slice, gather
 * slices (`np.take` / `np.delete` along an axis) and write a slice.
 */
module Volumes {
  import opened Indices

  /** One of the three spatial axes. */
  type Axis = a: int | 0 <= a < 3

  datatype Shape = Shape(x: nat, y: nat, z: nat)

  /** A 2-D cross-section, indexed [row][col]. */
  type Plane<V> = seq<seq<V>>

  /** A volume, indexed [x][y][z]. */
  type Grid<V> = seq<seq<seq<V>>>

  /** `shape[a]` */
  function Dim(s: Shape, a: Axis): nat {
    if a == 0 then s.x else if a == 1 then s.y else s.z
  }

  /** The shape with the extent along `a` set to `n` and the other two kept. */
  function Resize(s: Shape, a: Axis, n: nat): (r: Shape)
    ensures Dim(r, a) == n
    ensures forall b: Axis :: b != a ==> Dim(r, b) == Dim(s, b)
  {
    if a == 0 then s.(x := n) else if a == 1 then s.(y := n) else s.(z := n)
  }

  /** Every extent is at least one. */
  predicate Positive(s: Shape) {
    s.x > 0 && s.y > 0 && s.z > 0
  }

  predicate IsPlane<V>(p: Plane<V>, rows: nat, cols: nat) {
    |p| == rows && forall r :: 0 <= r < rows ==> |p[r]| == cols
  }

  /** The volume has exactly the extents of the shape. */
  predicate Fits<V>(g: Grid<V>, s: Shape) {
    |g| == s.x && forall i :: 0 <= i < s.x ==> IsPlane(g[i], s.y, s.z)
  }

  /** Rows of a slice taken along `a`: the first remaining axis. */
  function SliceRows(s: Shape, a: Axis): nat {
    if a == 0 then s.y else s.x
  }

  /** Columns of a slice taken along `a`: the second remaining axis. */
  function SliceCols(s: Shape, a: Axis): nat {
    if a == 2 then s.y else s.z
  }

  /** `g[i, :, :]`, `g[:, i, :]` or `g[:, :, i]`. */
  function SliceAt<V>(g: Grid<V>, s: Shape, a: Axis, i: nat): (p: Plane<V>)
    requires Fits(g, s) && i < Dim(s, a)
    ensures IsPlane(p, SliceRows(s, a), SliceCols(s, a))
  {
    if a == 0 then g[i]
    else if a == 1 then seq(s.x, u requires 0 <= u < s.x => g[u][i])
    else seq(s.x, u requires 0 <= u < s.x => seq(s.y, v requires 0 <= v < s.y => g[u][v][i]))
  }

  /** `np.take(g, idx, axis=a)`. */
  function TakeAlong<V>(g: Grid<V>, s: Shape, a: Axis, idx: seq<int>): (r: Grid<V>)
    requires Fits(g, s) && InRange(idx, Dim(s, a))
    ensures Fits(r, Resize(s, a, |idx|))
  {
    if a == 0 then seq(|idx|, t requires 0 <= t < |idx| => g[idx[t]])
    else if a == 1 then
      seq(s.x, u requires 0 <= u < s.x => seq(|idx|, t requires 0 <= t < |idx| => g[u][idx[t]]))
    else
      seq(s.x, u requires 0 <= u < s.x =>
        seq(s.y, v requires 0 <= v < s.y => seq(|idx|, t requires 0 <= t < |idx| => g[u][v][idx[t]])))
  }

  /** Writes plane `p` at position `i` along `a` (`g[i, :, :] = p` and its two siblings). */
  function PutAlong<V>(g: Grid<V>, s: Shape, a: Axis, i: nat, p: Plane<V>): (r: Grid<V>)
    requires Fits(g, s) && i < Dim(s, a) && IsPlane(p, SliceRows(s, a), SliceCols(s, a))
    ensures Fits(r, s)
  {
    if a == 0 then g[i := p]
    else if a == 1 then seq(s.x, u requires 0 <= u < s.x => g[u][i := p[u]])
    else seq(s.x, u requires 0 <= u < s.x => seq(s.y, v requires 0 <= v < s.y => g[u][v][i := p[u][v]]))
  }

  // ---------------------------------------------------------------- lemmas

  /** Gathering along `a` resizes only that axis, and output slice t is input slice `idx[t]`. */
  lemma TakeAlongSlices<V>(g: Grid<V>, s: Shape, a: Axis, idx: seq<int>)
    requires Fits(g, s) && InRange(idx, Dim(s, a))
    ensures Fits(TakeAlong(g, s, a, idx), Resize(s, a, |idx|))
    ensures forall t :: 0 <= t < |idx| ==>
      SliceAt(TakeAlong(g, s, a, idx), Resize(s, a, |idx|), a, t) == SliceAt(g, s, a, idx[t])
  {
    var r, s' := TakeAlong(g, s, a, idx), Resize(s, a, |idx|);
    assert Fits(r, s');
    forall t | 0 <= t < |idx|
      ensures SliceAt(r, s', a, t) == SliceAt(g, s, a, idx[t])
    {
      if a == 2 {
        var p, q := SliceAt(r, s', a, t), SliceAt(g, s, a, idx[t]);
        assert forall u :: 0 <= u < s.x ==> p[u] == q[u];
      }
    }
  }

  /** Writing a plane along `a` keeps the shape, puts the plane at `i` and leaves every other slice. */
  lemma PutAlongSlices<V>(g: Grid<V>, s: Shape, a: Axis, i: nat, p: Plane<V>)
    requires Fits(g, s) && i < Dim(s, a) && IsPlane(p, SliceRows(s, a), SliceCols(s, a))
    ensures Fits(PutAlong(g, s, a, i, p), s)
    ensures SliceAt(PutAlong(g, s, a, i, p), s, a, i) == p
    ensures forall j :: 0 <= j < Dim(s, a) && j != i ==>
      SliceAt(PutAlong(g, s, a, i, p), s, a, j) == SliceAt(g, s, a, j)
  {
    var r := PutAlong(g, s, a, i, p);
    assert Fits(r, s);
    if a == 2 {
      var q := SliceAt(r, s, a, i);
      assert forall u :: 0 <= u < s.x ==> q[u] == p[u];
      forall j | 0 <= j < Dim(s, a) && j != i
        ensures SliceAt(r, s, a, j) == SliceAt(g, s, a, j)
      {
        var q1, q2 := SliceAt(r, s, a, j), SliceAt(g, s, a, j);
        assert forall u :: 0 <= u < s.x ==> q1[u] == q2[u];
      }
    }
  }

  /** Two volumes of one shape whose slices along some axis all agree are equal. */
  lemma SlicesDetermine<V>(g: Grid<V>, h: Grid<V>, s: Shape, a: Axis)
    requires Fits(g, s) && Fits(h, s)
    requires forall i :: 0 <= i < Dim(s, a) ==> SliceAt(g, s, a, i) == SliceAt(h, s, a, i)
    ensures g == h
  {
    if a == 1 {
      forall u | 0 <= u < s.x ensures g[u] == h[u] {
        forall i | 0 <= i < s.y ensures g[u][i] == h[u][i] {
          assert SliceAt(g, s, a, i)[u] == SliceAt(h, s, a, i)[u];
        }
      }
    } else if a == 2 {
      forall u | 0 <= u < s.x ensures g[u] == h[u] {
        forall v | 0 <= v < s.y ensures g[u][v] == h[u][v] {
          forall i | 0 <= i < s.z ensures g[u][v][i] == h[u][v][i] {
            assert SliceAt(g, s, a, i)[u][v] == SliceAt(h, s, a, i)[u][v];
          }
          assert |g[u][v]| == |h[u][v]| == s.z;
        }
        assert |g[u]| == |h[u]| == s.y;
      }
    } else {
      assert forall u :: 0 <= u < s.x ==> g[u] == SliceAt(g, s, a, u);
    }
  }

  /** Gathering along an axis by 0, 1, ..., n - 1 returns the volume itself. */
  lemma TakeAlongRange<V>(g: Grid<V>, s: Shape, a: Axis)
    requires Fits(g, s)
    ensures TakeAlong(g, s, a, Range(Dim(s, a))) == g
  {
    var n := Dim(s, a);
    TakeAlongSlices(g, s, a, Range(n));
    assert Resize(s, a, n) == s;
    SlicesDetermine(TakeAlong(g, s, a, Range(n)), g, s, a);
  }
}
