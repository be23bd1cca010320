/**
 * The three slice primitives of the simulator: removal (`simulate_missing_slides`),
 * reordering (`simulate_wrong_sequence`) and cross-axis substitution
 * (`simulate_mixed_axis`). Each random draw is an argument (`Draw`), and the
 * bilinear resample is the function argument `zoom`.
 */
module Primitives {
  import opened Outcomes
  import opened Indices
  import opened Volumes
  import opened Params

  /** The random draws one primitive call consumes. */
  datatype Draw = Draw(
    chosen: seq<int>,     // remove_indices, shuffle_indices or replace_indices
    order: seq<int>,      // the full permutation, or the permutation of the chosen subset
    auxPicks: seq<int>,   // per replaced position: which auxiliary axis (index into aux_axes)
    auxSlices: seq<int>)  // per replaced position: which slice j along that auxiliary axis

  /** The simulation_info dictionary. */
  datatype Info =
    | MissingInfo(removeIndices: seq<int>)
    | SequenceInfo(shuffledIndices: seq<int>)
    | MixedInfo(axisSource: seq<int>, mixedPositions: seq<int>)

  /** A primitive's output: the new volume, its shape, and its simulation_info. */
  datatype Applied<V> = Applied(data: Grid<V>, shape: Shape, info: Info)

  // ================================================================ removal

  /** The removal draw is k distinct positions of the axis. */
  predicate RemovalFits(s: Shape, p: Param, axis: Axis, d: Draw) {
    var n := Dim(s, axis);
    RemovalCount(p, n).Ok? ==> IsChoice(d.chosen, n, RemovalCount(p, n).value)
  }

  /** `simulate_missing_slides`: delete the drawn positions along the axis. */
  function MissingSlides<V>(data: Grid<V>, s: Shape, p: Param, axis: Axis, d: Draw): (r: Result<Applied<V>>)
    requires Fits(data, s) && RemovalFits(s, p, axis, d)
    ensures r.Ok? ==> Fits(r.value.data, r.value.shape) && r.value.info.MissingInfo?
  {
    var n := Dim(s, axis);
    match RemovalCount(p, n)
    case Err(e) => Err(e)
    case Ok(k) =>
      var keep := SetDiff(n, d.chosen);
      Ok(Applied(TakeAlong(data, s, axis, keep), Resize(s, axis, |keep|), MissingInfo(d.chosen)))
  }

  /**
   * Removal succeeds exactly when the count resolves below n; the axis shrinks to
   * n - k, the other two extents stay, and the survivors keep their relative order.
   */
  lemma MissingSlidesResult<V>(data: Grid<V>, s: Shape, p: Param, axis: Axis, d: Draw)
    requires Fits(data, s) && RemovalFits(s, p, axis, d)
    ensures var r := MissingSlides(data, s, p, axis, d);
      r.Ok? <==> RemovalCount(p, Dim(s, axis)).Ok?
    ensures var r := MissingSlides(data, s, p, axis, d);
      r.Ok? ==>
        var n, k, keep := Dim(s, axis), |d.chosen|, SetDiff(Dim(s, axis), d.chosen);
        && r.value.shape == Resize(s, axis, n - k)
        && Fits(r.value.data, r.value.shape)
        && r.value.info == MissingInfo(d.chosen)
        && |keep| == n - k && Increasing(keep)
        && (forall x :: x in keep <==> 0 <= x < n && x !in d.chosen)
        && forall t :: 0 <= t < n - k ==>
             SliceAt(r.value.data, r.value.shape, axis, t) == SliceAt(data, s, axis, keep[t])
  {
    var n := Dim(s, axis);
    if RemovalCount(p, n).Ok? {
      FilterCount(n, d.chosen);
      TakeAlongSlices(data, s, axis, SetDiff(n, d.chosen));
    }
  }

  /** Removing zero slices returns the volume unchanged. */
  lemma MissingSlidesNoOp<V>(data: Grid<V>, s: Shape, p: Param, axis: Axis, d: Draw)
    requires Fits(data, s) && RemovalFits(s, p, axis, d)
    requires RemovalCount(p, Dim(s, axis)) == Ok(0)
    ensures MissingSlides(data, s, p, axis, d) == Ok(Applied(data, s, MissingInfo([])))
  {
    var n := Dim(s, axis);
    assert d.chosen == [];
    assert SetDiff(n, []) == Range(n) by {
      FilterCount(n, []);
      IncreasingFillsRange(SetDiff(n, []), n);
    }
    TakeAlongRange(data, s, axis);
    assert Resize(s, axis, n) == s;
  }

  // ================================================================ reordering

  /** The reorder draw: a full permutation, or m distinct positions and a permutation of them. */
  predicate ReorderFits(s: Shape, p: Param, axis: Axis, d: Draw) {
    var n := Dim(s, axis);
    if p.Null? then IsPermutation(d.order, n)
    else SubsetCount(p, n).Ok? ==>
      IsChoice(d.chosen, n, SubsetCount(p, n).value) && IsPermutation(d.order, |d.chosen|)
  }

  /** `shuffled_indices = np.arange(n); shuffled_indices[chosen] = chosen[order]` (lines 62-64). */
  function SubsetShuffle(n: nat, chosen: seq<int>, order: seq<int>): (r: seq<int>)
    requires IsChoice(chosen, n, |chosen|) && IsPermutation(order, |chosen|)
    ensures |r| == n
  {
    Scatter(Range(n), chosen, Take(chosen, order))
  }

  /**
   * Each entry of the subset shuffle lies in [0, n), and it is a chosen index
   * exactly when its position is.
   */
  lemma SubsetShuffleEntries(n: nat, chosen: seq<int>, order: seq<int>)
    requires IsChoice(chosen, n, |chosen|) && IsPermutation(order, |chosen|)
    ensures var r := SubsetShuffle(n, chosen, order);
      && (forall i :: 0 <= i < n && i !in chosen ==> r[i] == i)
      && (forall t :: 0 <= t < |chosen| ==> r[chosen[t]] == chosen[order[t]])
      && forall i :: 0 <= i < n ==> 0 <= r[i] < n && (r[i] in chosen <==> i in chosen)
  {
    var vals := Take(chosen, order);
    var r := SubsetShuffle(n, chosen, order);
    ScatterAt(Range(n), chosen, vals);
    forall i | 0 <= i < n ensures 0 <= r[i] < n && (r[i] in chosen <==> i in chosen) {
      if i in chosen {
        var t := IndexOf(chosen, i);
        assert r[i] == chosen[order[t]] && chosen[order[t]] in chosen;
      } else {
        assert r[i] == i;
      }
    }
  }

  /**
   * The subset shuffle is a permutation of 0..n-1 that fixes every position
   * outside the chosen subset and sends `chosen[t]` to `chosen[order[t]]`.
   */
  lemma SubsetShufflePermutes(n: nat, chosen: seq<int>, order: seq<int>)
    requires IsChoice(chosen, n, |chosen|) && IsPermutation(order, |chosen|)
    ensures var r := SubsetShuffle(n, chosen, order);
      && IsPermutation(r, n)
      && (forall i :: 0 <= i < n && i !in chosen ==> r[i] == i)
      && forall t :: 0 <= t < |chosen| ==> r[chosen[t]] == chosen[order[t]]
  {
    var r := SubsetShuffle(n, chosen, order);
    SubsetShuffleEntries(n, chosen, order);
    forall i, j | 0 <= i < j < n ensures r[i] != r[j] {
      if i in chosen && j in chosen {
        var ti, tj := IndexOf(chosen, i), IndexOf(chosen, j);
        assert r[i] == chosen[order[ti]] && r[j] == chosen[order[tj]];
        assert order[ti] != order[tj];
      }
    }
  }

  /** `simulate_wrong_sequence`: gather the slices by `shuffled_indices`. */
  function WrongSequence<V>(data: Grid<V>, s: Shape, p: Param, axis: Axis, d: Draw): (r: Result<Applied<V>>)
    requires Fits(data, s) && ReorderFits(s, p, axis, d)
    ensures r.Ok? ==> Fits(r.value.data, r.value.shape) && r.value.shape == s && r.value.info.SequenceInfo?
  {
    var n := Dim(s, axis);
    if p.Null? then
      Ok(Applied(TakeAlong(data, s, axis, d.order), s, SequenceInfo(d.order)))
    else match SubsetCount(p, n)
      case Err(e) => Err(e)
      case Ok(_) =>
        SubsetShufflePermutes(n, d.chosen, d.order);
        var shuffled := SubsetShuffle(n, d.chosen, d.order);
        Ok(Applied(TakeAlong(data, s, axis, shuffled), s, SequenceInfo(shuffled)))
  }

  /**
   * Reordering fails only when a given parameter does not resolve to 0 <= m <= n;
   * it keeps the shape, `shuffled_indices` is a permutation of 0..n-1, output slice i
   * is input slice `shuffled_indices[i]`, and with a parameter every position outside
   * the chosen subset stays where it was.
   */
  lemma WrongSequenceResult<V>(data: Grid<V>, s: Shape, p: Param, axis: Axis, d: Draw)
    requires Fits(data, s) && ReorderFits(s, p, axis, d)
    ensures var r := WrongSequence(data, s, p, axis, d);
      r.Ok? <==> p.Null? || SubsetCount(p, Dim(s, axis)).Ok?
    ensures var r := WrongSequence(data, s, p, axis, d);
      r.Ok? ==>
        && r.value.shape == s && Fits(r.value.data, s) && r.value.info.SequenceInfo?
        && var sh := r.value.info.shuffledIndices;
        && IsPermutation(sh, Dim(s, axis))
        && (p.Null? ==> sh == d.order)
        && (!p.Null? ==> forall i :: 0 <= i < Dim(s, axis) && i !in d.chosen ==> sh[i] == i)
        && (!p.Null? ==> forall t :: 0 <= t < |d.chosen| ==> sh[d.chosen[t]] == d.chosen[d.order[t]])
        && forall i :: 0 <= i < Dim(s, axis) ==>
             SliceAt(r.value.data, s, axis, i) == SliceAt(data, s, axis, sh[i])
  {
    var n := Dim(s, axis);
    var r := WrongSequence(data, s, p, axis, d);
    if r.Ok? {
      var sh := r.value.info.shuffledIndices;
      if !p.Null? {
        SubsetShufflePermutes(n, d.chosen, d.order);
      }
      TakeAlongSlices(data, s, axis, sh);
      assert Resize(s, axis, n) == s;
    }
  }

  /**
   * Gathering the reordered volume by `np.argsort(shuffled_indices)` (the
   * sequence_target) restores the input volume exactly.
   */
  lemma ArgsortRestores<V>(data: Grid<V>, s: Shape, p: Param, axis: Axis, d: Draw)
    requires Fits(data, s) && ReorderFits(s, p, axis, d)
    requires WrongSequence(data, s, p, axis, d).Ok?
    ensures var a := WrongSequence(data, s, p, axis, d).value;
      var back := Argsort(a.info.shuffledIndices);
      InRange(back, Dim(s, axis)) && TakeAlong(a.data, s, axis, back) == data
  {
    var n := Dim(s, axis);
    var a := WrongSequence(data, s, p, axis, d).value;
    WrongSequenceResult(data, s, p, axis, d);
    var sh := a.info.shuffledIndices;
    ArgsortInverts(sh);
    var back := Argsort(sh);
    TakeAlongSlices(a.data, s, axis, back);
    assert Resize(s, axis, n) == s;
    forall i | 0 <= i < n
      ensures SliceAt(TakeAlong(a.data, s, axis, back), s, axis, i) == SliceAt(data, s, axis, i)
    {
      assert Take(sh, back)[i] == sh[back[i]] == i;
    }
    SlicesDetermine(TakeAlong(a.data, s, axis, back), data, s, axis);
  }

  /** Reordering by the identity permutation returns the volume unchanged. */
  lemma WrongSequenceNoOp<V>(data: Grid<V>, s: Shape, axis: Axis, d: Draw)
    requires Fits(data, s) && d.order == Range(Dim(s, axis))
    ensures WrongSequence(data, s, Null, axis, d) == Ok(Applied(data, s, SequenceInfo(d.order)))
  {
    TakeAlongRange(data, s, axis);
  }

  /** Lines 62-64 as written: fancy-index assignment into a fresh `np.arange(n)` array. */
  method ScatterSubset(n: nat, chosen: seq<int>, order: seq<int>) returns (shuffled: seq<int>)
    requires IsChoice(chosen, n, |chosen|) && IsPermutation(order, |chosen|)
    ensures shuffled == SubsetShuffle(n, chosen, order)
  {
    var a := new int[n](i => i);
    var subset := Take(chosen, order);
    assert a[..] == Range(n);
    for t := 0 to |chosen|
      invariant a[..] == Scatter(Range(n), chosen[..t], subset[..t])
    {
      a[chosen[t]] := subset[t];
      assert chosen[..t + 1][..t] == chosen[..t] && subset[..t + 1][..t] == subset[..t];
    }
    assert chosen[..|chosen|] == chosen && subset[..|chosen|] == subset;
    shuffled := a[..];
  }

  /** `simulate_wrong_sequence` as written: the scatter runs in place, then the gather. */
  method SimulateWrongSequence<V>(data: Grid<V>, s: Shape, p: Param, axis: Axis, d: Draw)
    returns (r: Result<Applied<V>>)
    requires Fits(data, s) && ReorderFits(s, p, axis, d)
    ensures r == WrongSequence(data, s, p, axis, d)
  {
    var n := Dim(s, axis);
    var shuffled: seq<int>;
    if p.Null? {
      shuffled := d.order;
    } else {
      var m := SubsetCount(p, n);
      if m.Err? {
        return Err(m.error);
      }
      shuffled := ScatterSubset(n, d.chosen, d.order);
      SubsetShufflePermutes(n, d.chosen, d.order);
    }
    r := Ok(Applied(TakeAlong(data, s, axis, shuffled), s, SequenceInfo(shuffled)));
  }

  // ================================================================ cross-axis substitution

  /** The `axis_list` argument: a list of ints, or any other value. */
  datatype AxisArg = AxisList(items: seq<int>) | NotAList

  /** Line 75 (a list of length 1 to 3, checked before deduplication) and line 78 (values in {0, 1, 2}). */
  predicate ValidAxisList(a: AxisArg) {
    a.AxisList? && 1 <= |a.items| <= 3 && forall i :: 0 <= i < |a.items| ==> 0 <= a.items[i] <= 2
  }

  /**
   * `list(set(items))` for items drawn from {0, 1, 2}: CPython iterates a set of
   * small non-negative ints in ascending order, so the result is the distinct
   * items in ascending order.
   */
  function Dedup(items: seq<int>): (r: seq<int>)
    ensures Increasing(r) && InRange(r, 3)
    ensures forall x :: x in r <==> 0 <= x < 3 && x in items
  {
    Filter(3, items, true)
  }

  /** `main_axis = axis_list[0]` after deduplication. */
  function MainAxis(a: AxisArg): (m: Axis)
    requires ValidAxisList(a)
    ensures m in a.items
  {
    assert a.items[0] in Dedup(a.items);
    Dedup(a.items)[0]
  }

  /** `aux_axes = axis_list[1:]` after deduplication. */
  function AuxAxes(a: AxisArg): (aux: seq<int>)
    requires ValidAxisList(a)
    ensures InRange(aux, 3)
  {
    assert a.items[0] in Dedup(a.items);
    Dedup(a.items)[1..]
  }

  /**
   * After deduplication the main axis is the smallest listed axis, whatever order
   * the caller gave; the auxiliary axes are the other listed axes, ascending.
   */
  lemma AxisListSplit(a: AxisArg)
    requires ValidAxisList(a)
    ensures MainAxis(a) in a.items
    ensures forall i :: 0 <= i < |a.items| ==> MainAxis(a) <= a.items[i]
    ensures MainAxis(a) !in AuxAxes(a) && Increasing(AuxAxes(a))
    ensures forall x :: x in AuxAxes(a) <==> x in a.items && x != MainAxis(a)
  {
    var dd := Dedup(a.items);
    assert a.items[0] in dd;
    assert dd[0] in dd;
    assert dd == [dd[0]] + AuxAxes(a);
    forall x ensures x in AuxAxes(a) <==> x in a.items && x != MainAxis(a) {
      if x in AuxAxes(a) {
        assert x in dd;
      }
      if x in a.items {
        assert x in dd;
      }
    }
    forall i | 0 <= i < |a.items| ensures MainAxis(a) <= a.items[i] {
      assert a.items[i] in dd;
    }
  }

  /** The draws of one substitution call fit the resolved count and the auxiliary axes. */
  predicate MixedFits(os: Shape, s: Shape, axes: AxisArg, p: Param, d: Draw) {
    ValidAxisList(axes) ==>
      var main, aux := MainAxis(axes), AuxAxes(axes);
      var n := Dim(s, main);
      SubsetCount(p, n).Ok? ==>
        var k := SubsetCount(p, n).value;
        && IsChoice(d.chosen, n, k)
        && (|aux| > 0 ==>
              && |d.auxPicks| == k && |d.auxSlices| == k
              && forall t :: 0 <= t < k ==>
                   0 <= d.auxPicks[t] < |aux| && 0 <= d.auxSlices[t] < Dim(os, aux[d.auxPicks[t]]))
  }

  /**
   * The resample `ndi.zoom(slice, factors, order=1)`, with factors target / source,
   * yields a plane of the requested shape.
   */
  ghost predicate Resamples<V(!new)>(zoom: (Plane<V>, nat, nat) -> Plane<V>) {
    forall p: Plane<V>, rows: nat, cols: nat :: IsPlane(zoom(p, rows, cols), rows, cols)
  }

  /** The auxiliary axes chosen for the replaced positions. */
  function SourceAxes(aux: seq<int>, picks: seq<int>, k: nat): (r: seq<int>)
    requires |picks| == k && InRange(aux, 3) && InRange(picks, |aux|)
    ensures |r| == k && InRange(r, 3)
  {
    seq(k, t requires 0 <= t < k => aux[picks[t]])
  }

  /** Slice j along `srcAxis` of the original volume, resampled to the shape of a slice along `main`. */
  function AuxPlane<V(!new)>(orig: Grid<V>, os: Shape, s: Shape, main: Axis, srcAxis: Axis, j: nat,
                       zoom: (Plane<V>, nat, nat) -> Plane<V>): (p: Plane<V>)
    requires Fits(orig, os) && j < Dim(os, srcAxis) && Resamples(zoom)
    ensures IsPlane(p, SliceRows(s, main), SliceCols(s, main))
  {
    zoom(SliceAt(orig, os, srcAxis, j), SliceRows(s, main), SliceCols(s, main))
  }

  /** The positions, auxiliary axes and auxiliary slice indices of a substitution fit the shapes. */
  predicate Substitutable(os: Shape, s: Shape, main: Axis, pos: seq<int>, srcAxes: seq<int>, srcIdx: seq<int>) {
    && |srcAxes| == |pos| && |srcIdx| == |pos|
    && InRange(pos, Dim(s, main)) && InRange(srcAxes, 3)
    && forall t :: 0 <= t < |pos| ==> 0 <= srcIdx[t] < Dim(os, srcAxes[t])
  }

  /** The writes of the loop at lines 98-133, one replaced position after another. */
  function Substitute<V(!new)>(orig: Grid<V>, os: Shape, g: Grid<V>, s: Shape, main: Axis,
                         pos: seq<int>, srcAxes: seq<int>, srcIdx: seq<int>,
                         zoom: (Plane<V>, nat, nat) -> Plane<V>): (r: Grid<V>)
    requires Fits(orig, os) && Fits(g, s) && Resamples(zoom)
    requires Substitutable(os, s, main, pos, srcAxes, srcIdx)
    ensures Fits(r, s)
  {
    if |pos| == 0 then g
    else
      var m := |pos| - 1;
      var prev := Substitute(orig, os, g, s, main, pos[..m], srcAxes[..m], srcIdx[..m], zoom);
      var plane := AuxPlane(orig, os, s, main, srcAxes[m], srcIdx[m], zoom);
      PutAlongSlices(prev, s, main, pos[m], plane);
      PutAlong(prev, s, main, pos[m], plane)
  }

  /**
   * Substituting at distinct positions puts the resampled auxiliary slice at each
   * replaced position and leaves every other slice along the main axis alone.
   */
  lemma {:induction false} SubstituteSlices<V(!new)>(orig: Grid<V>, os: Shape, g: Grid<V>, s: Shape, main: Axis,
                                               pos: seq<int>, srcAxes: seq<int>, srcIdx: seq<int>,
                                               zoom: (Plane<V>, nat, nat) -> Plane<V>)
    requires Fits(orig, os) && Fits(g, s) && Resamples(zoom)
    requires Substitutable(os, s, main, pos, srcAxes, srcIdx) && Distinct(pos)
    ensures forall t :: 0 <= t < |pos| ==>
      SliceAt(Substitute(orig, os, g, s, main, pos, srcAxes, srcIdx, zoom), s, main, pos[t])
        == AuxPlane(orig, os, s, main, srcAxes[t], srcIdx[t], zoom)
    ensures forall i :: 0 <= i < Dim(s, main) && i !in pos ==>
      SliceAt(Substitute(orig, os, g, s, main, pos, srcAxes, srcIdx, zoom), s, main, i)
        == SliceAt(g, s, main, i)
  {
    if |pos| > 0 {
      var m := |pos| - 1;
      var prev := Substitute(orig, os, g, s, main, pos[..m], srcAxes[..m], srcIdx[..m], zoom);
      var plane := AuxPlane(orig, os, s, main, srcAxes[m], srcIdx[m], zoom);
      SubstituteSlices(orig, os, g, s, main, pos[..m], srcAxes[..m], srcIdx[..m], zoom);
      PutAlongSlices(prev, s, main, pos[m], plane);
      forall i | 0 <= i < Dim(s, main) && i !in pos
        ensures SliceAt(Substitute(orig, os, g, s, main, pos, srcAxes, srcIdx, zoom), s, main, i)
                == SliceAt(g, s, main, i)
      {
        assert i !in pos[..m];
      }
      forall t | 0 <= t < m
        ensures SliceAt(Substitute(orig, os, g, s, main, pos, srcAxes, srcIdx, zoom), s, main, pos[t])
                == AuxPlane(orig, os, s, main, srcAxes[t], srcIdx[t], zoom)
      {
        assert pos[..m][t] == pos[t] && pos[t] != pos[m];
      }
    }
  }

  /** One more replaced position of the loop at lines 98-133. */
  lemma SubstituteSnoc<V(!new)>(orig: Grid<V>, os: Shape, g: Grid<V>, s: Shape, main: Axis,
                                pos: seq<int>, srcAxes: seq<int>, srcIdx: seq<int>,
                                zoom: (Plane<V>, nat, nat) -> Plane<V>, t: nat)
    requires Fits(orig, os) && Fits(g, s) && Resamples(zoom)
    requires Substitutable(os, s, main, pos, srcAxes, srcIdx) && t < |pos|
    ensures Substitute(orig, os, g, s, main, pos[..t + 1], srcAxes[..t + 1], srcIdx[..t + 1], zoom)
      == PutAlong(Substitute(orig, os, g, s, main, pos[..t], srcAxes[..t], srcIdx[..t], zoom), s, main, pos[t],
                  AuxPlane(orig, os, s, main, srcAxes[t], srcIdx[t], zoom))
  {
    assert pos[..t + 1][..t] == pos[..t];
    assert srcAxes[..t + 1][..t] == srcAxes[..t];
    assert srcIdx[..t + 1][..t] == srcIdx[..t];
  }

  /** `simulate_mixed_axis`. */
  function MixedAxis<V(!new)>(orig: Grid<V>, os: Shape, data: Grid<V>, s: Shape, axes: AxisArg, p: Param, d: Draw,
                        zoom: (Plane<V>, nat, nat) -> Plane<V>): (r: Result<Applied<V>>)
    requires Fits(orig, os) && Fits(data, s) && Resamples(zoom) && MixedFits(os, s, axes, p, d)
    ensures r.Ok? ==> ValidAxisList(axes) && Fits(r.value.data, r.value.shape) && r.value.shape == s
    ensures r.Ok? ==> r.value.info.MixedInfo?
  {
    if !ValidAxisList(axes) then Err(InvalidAxisList)
    else
      var main, aux := MainAxis(axes), AuxAxes(axes);
      var n := Dim(s, main);
      match SubsetCount(p, n)
      case Err(e) => Err(e)
      case Ok(k) =>
        var unmixed := seq(n, _ => main);
        if |aux| == 0 then Ok(Applied(data, s, MixedInfo(unmixed, d.chosen)))
        else
          var srcAxes := SourceAxes(aux, d.auxPicks, k);
          var out := Substitute(orig, os, data, s, main, d.chosen, srcAxes, d.auxSlices, zoom);
          Ok(Applied(out, s, MixedInfo(Scatter(unmixed, d.chosen, srcAxes), d.chosen)))
  }

  /**
   * Substitution fails exactly on an invalid axis list or a count that does not
   * resolve to 0 <= k <= n. On success the shape is unchanged, `mixed_positions`
   * is `replace_indices`, and `axis_source` has length n and holds the main axis at
   * every position not replaced, where the slice is untouched. When auxiliary axes
   * exist, each replaced position holds the resampled auxiliary slice and its
   * `axis_source` entry is that auxiliary axis, which differs from the main axis;
   * when none exist, nothing changes.
   */
  lemma MixedAxisResult<V(!new)>(orig: Grid<V>, os: Shape, data: Grid<V>, s: Shape, axes: AxisArg, p: Param,
                           d: Draw, zoom: (Plane<V>, nat, nat) -> Plane<V>)
    requires Fits(orig, os) && Fits(data, s) && Resamples(zoom) && MixedFits(os, s, axes, p, d)
    ensures var r := MixedAxis(orig, os, data, s, axes, p, d, zoom);
      r.Ok? <==> ValidAxisList(axes) && SubsetCount(p, Dim(s, MainAxis(axes))).Ok?
    ensures var r := MixedAxis(orig, os, data, s, axes, p, d, zoom);
      r.Ok? ==>
        var main, aux, n := MainAxis(axes), AuxAxes(axes), Dim(s, MainAxis(axes));
        && r.value.shape == s && Fits(r.value.data, s) && r.value.info.MixedInfo?
        && var src := r.value.info.axisSource;
        && r.value.info.mixedPositions == d.chosen
        && |src| == n
        && (forall i :: 0 <= i < n && i !in d.chosen ==>
              src[i] == main && SliceAt(r.value.data, s, main, i) == SliceAt(data, s, main, i))
        && (|aux| == 0 ==> r.value.data == data && forall i :: 0 <= i < n ==> src[i] == main)
        && (|aux| > 0 ==> forall t :: 0 <= t < |d.chosen| ==>
              && src[d.chosen[t]] == aux[d.auxPicks[t]] != main
              && SliceAt(r.value.data, s, main, d.chosen[t])
                   == AuxPlane(orig, os, s, main, aux[d.auxPicks[t]], d.auxSlices[t], zoom))
  {
    var r := MixedAxis(orig, os, data, s, axes, p, d, zoom);
    if r.Ok? {
      var main, aux := MainAxis(axes), AuxAxes(axes);
      var n := Dim(s, main);
      var k := SubsetCount(p, n).value;
      AxisListSplit(axes);
      if |aux| > 0 {
        var srcAxes := SourceAxes(aux, d.auxPicks, k);
        SubstituteSlices(orig, os, data, s, main, d.chosen, srcAxes, d.auxSlices, zoom);
        ScatterAt(seq(n, _ => main), d.chosen, srcAxes);
        forall t | 0 <= t < k ensures srcAxes[t] != main {
          assert srcAxes[t] in aux;
        }
      }
    }
  }

  /** Replacing zero positions returns the volume unchanged. */
  lemma MixedAxisNoOp<V(!new)>(orig: Grid<V>, os: Shape, data: Grid<V>, s: Shape, axes: AxisArg, p: Param,
                         d: Draw, zoom: (Plane<V>, nat, nat) -> Plane<V>)
    requires Fits(orig, os) && Fits(data, s) && Resamples(zoom) && MixedFits(os, s, axes, p, d)
    requires ValidAxisList(axes) && SubsetCount(p, Dim(s, MainAxis(axes))) == Ok(0)
    ensures MixedAxis(orig, os, data, s, axes, p, d, zoom).Ok?
    ensures MixedAxis(orig, os, data, s, axes, p, d, zoom).value.data == data
  {
    MixedAxisResult(orig, os, data, s, axes, p, d, zoom);
  }

  /**
   * The loop at lines 95-133 as written: copy the volume and fill `axis_source`
   * with the main axis, then, when auxiliary axes exist, overwrite each replaced
   * position in place with a resampled auxiliary slice and record its axis.
   */
  method ReplaceSlices<V(!new)>(orig: Grid<V>, os: Shape, data: Grid<V>, s: Shape, main: Axis, aux: seq<int>,
                                replace: seq<int>, picks: seq<int>, slabs: seq<int>,
                                zoom: (Plane<V>, nat, nat) -> Plane<V>)
    returns (simulated: Grid<V>, axisSource: seq<int>)
    requires Fits(orig, os) && Fits(data, s) && Resamples(zoom) && InRange(aux, 3)
    requires InRange(replace, Dim(s, main))
    requires |aux| > 0 ==>
      && |picks| == |replace| && InRange(picks, |aux|)
      && Substitutable(os, s, main, replace, SourceAxes(aux, picks, |replace|), slabs)
    ensures |aux| == 0 ==> simulated == data && axisSource == seq(Dim(s, main), _ => main)
    ensures |aux| > 0 ==>
      var srcAxes := SourceAxes(aux, picks, |replace|);
      && simulated == Substitute(orig, os, data, s, main, replace, srcAxes, slabs, zoom)
      && axisSource == Scatter(seq(Dim(s, main), _ => main), replace, srcAxes)
  {
    var n, k := Dim(s, main), |replace|;
    simulated := data;
    var source := new int[n](_ => main);
    ghost var srcAxes := if |aux| > 0 then SourceAxes(aux, picks, k) else [];
    assert source[..] == seq(n, _ => main);
    for t := 0 to k
      invariant |aux| == 0 ==> simulated == data && source[..] == seq(n, _ => main)
      invariant |aux| > 0 ==>
        && simulated == Substitute(orig, os, data, s, main, replace[..t], srcAxes[..t], slabs[..t], zoom)
        && source[..] == Scatter(seq(n, _ => main), replace[..t], srcAxes[..t])
    {
      if |aux| > 0 {
        var auxAxis: Axis := aux[picks[t]];
        var j := slabs[t];
        var resized := AuxPlane(orig, os, s, main, auxAxis, j, zoom);
        SubstituteSnoc(orig, os, data, s, main, replace, srcAxes, slabs, zoom, t);
        ScatterSnoc(seq(n, _ => main), replace, srcAxes, t);
        simulated := PutAlong(simulated, s, main, replace[t], resized);
        source[replace[t]] := auxAxis;
      }
    }
    assert replace[..k] == replace;
    if |aux| > 0 {
      assert srcAxes[..k] == srcAxes && slabs[..k] == slabs;
    }
    axisSource := source[..];
  }

  /** `simulate_mixed_axis` as written: validate, resolve the count, then run the replacement loop. */
  method SimulateMixedAxis<V(!new)>(orig: Grid<V>, os: Shape, data: Grid<V>, s: Shape, axes: AxisArg, p: Param,
                                    d: Draw, zoom: (Plane<V>, nat, nat) -> Plane<V>)
    returns (r: Result<Applied<V>>)
    requires Fits(orig, os) && Fits(data, s) && Resamples(zoom) && MixedFits(os, s, axes, p, d)
    ensures r == MixedAxis(orig, os, data, s, axes, p, d, zoom)
  {
    if !ValidAxisList(axes) {
      return Err(InvalidAxisList);
    }
    var main, aux := MainAxis(axes), AuxAxes(axes);
    var count := SubsetCount(p, Dim(s, main));
    if count.Err? {
      return Err(count.error);
    }
    var simulated, axisSource := ReplaceSlices(orig, os, data, s, main, aux, d.chosen, d.auxPicks, d.auxSlices, zoom);
    r := Ok(Applied(simulated, s, MixedInfo(axisSource, d.chosen)));
  }
}
