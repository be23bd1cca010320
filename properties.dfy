/**
 * What the labels `simulate` returns mean for the volume it returns: the targets
 * of one simulation describe its output slice by slice, independent mode is
 * single mode repeated, and in a chain along one axis every slice not labelled as
 * substituted is the original slice its `final_to_original` entry names.
 */
module Properties {
  import opened Outcomes
  import opened Indices
  import opened Volumes
  import opened Params
  import opened Primitives
  import opened Labels
  import opened Simulator

  // ================================================================ the mode check

  /**
   * Lines 143-151: an argument that is neither a dictionary nor a list fails first;
   * then a count the mode does not accept fails; a result is only ever produced
   * for an accepted count.
   */
  lemma ModeValidation<V(!new)>(sess: Session<V>, sims: Simulations, mode: Mode, draws: seq<Draw>, rule: SourceRule,
                                zoom: (Plane<V>, nat, nat) -> Plane<V>)
    requires Loaded(sess) && Resamples(zoom) && DrawsFit(sess, sims, mode, draws, rule, zoom)
    ensures sims.OtherArg? ==> Simulation(sess, sims, mode, draws, rule, zoom) == Err(InvalidSimulations)
    ensures !sims.OtherArg? && !CountAccepted(mode, |SpecList(sims).value|) ==>
      Simulation(sess, sims, mode, draws, rule, zoom) == Err(InvalidSpecCount)
    ensures Simulation(sess, sims, mode, draws, rule, zoom).Ok? ==>
      !sims.OtherArg? && CountAccepted(mode, |SpecList(sims).value|)
    ensures mode == Single && sims.DictArg? ==>
      Simulation(sess, sims, mode, draws, rule, zoom)
        == match OneSimulation(sess, sims.spec, draws[0], zoom)
           case Err(e) => Err(e)
           case Ok(x) => Ok(One(x))
  {
  }

  // ================================================================ single simulations

  /**
   * A removal on its own: it succeeds exactly when the count resolves below n.
   * `presence_target` is 0 exactly at the removed positions and counts the output
   * slices, and output slice j is the original slice `sequence_target[j]`.
   */
  lemma RemovalLabels<V(!new)>(sess: Session<V>, p: Param, a: Axis, d: Draw, zoom: (Plane<V>, nat, nat) -> Plane<V>)
    requires Loaded(sess) && Resamples(zoom) && RemovalFits(sess.shape, p, a, d)
    ensures var r := OneSimulation(sess, Missing(p, a), d, zoom);
      r.Ok? <==> RemovalCount(p, Dim(sess.shape, a)).Ok?
    ensures var r := OneSimulation(sess, Missing(p, a), d, zoom);
      r.Ok? ==>
        var n, k, t, s := Dim(sess.shape, a), |d.chosen|, r.value.targets, r.value.shape;
        && s == Resize(sess.shape, a, n - k) && Fits(r.value.data, s)
        && t.SliceTargets? && (t.isMissing == 1 <==> k > 0) && t.missingPositions == d.chosen
        && |t.presenceTarget| == n
        && (forall i :: 0 <= i < n ==> (t.presenceTarget[i] == 0 <==> i in d.chosen))
        && Sum(t.presenceTarget) == Dim(s, a)
        && |t.sequenceTarget| == Dim(s, a) && InRange(t.sequenceTarget, n)
        && forall j :: 0 <= j < Dim(s, a) ==>
             SliceAt(r.value.data, s, a, j) == SliceAt(sess.original, sess.shape, a, t.sequenceTarget[j])
  {
    MissingSlidesResult(sess.original, sess.shape, p, a, d);
    if RemovalCount(p, Dim(sess.shape, a)).Ok? {
      RemovalTargetsMeaning(Dim(sess.shape, a), d.chosen);
    }
  }

  /**
   * A reordering on its own: it succeeds unless a given parameter does not resolve
   * to 0 <= m <= n. Nothing is reported missing, and gathering the output along the
   * axis by `sequence_target` gives back the original volume.
   */
  lemma ReorderLabels<V(!new)>(sess: Session<V>, p: Param, a: Axis, d: Draw, zoom: (Plane<V>, nat, nat) -> Plane<V>)
    requires Loaded(sess) && Resamples(zoom) && ReorderFits(sess.shape, p, a, d)
    ensures var r := OneSimulation(sess, WrongSeq(p, a), d, zoom);
      r.Ok? <==> p.Null? || SubsetCount(p, Dim(sess.shape, a)).Ok?
    ensures var r := OneSimulation(sess, WrongSeq(p, a), d, zoom);
      r.Ok? ==>
        var n, t := Dim(sess.shape, a), r.value.targets;
        && r.value.shape == sess.shape && Fits(r.value.data, sess.shape)
        && t.SliceTargets? && t.isMissing == 0 && t.missingPositions == []
        && t.presenceTarget == seq(n, _ => 1) && Sum(t.presenceTarget) == n
        && IsPermutation(t.sequenceTarget, n)
        && TakeAlong(r.value.data, sess.shape, a, t.sequenceTarget) == sess.original
  {
    var r := OneSimulation(sess, WrongSeq(p, a), d, zoom);
    WrongSequenceResult(sess.original, sess.shape, p, a, d);
    if r.Ok? {
      var ap := WrongSequence(sess.original, sess.shape, p, a, d).value;
      ReorderTargetsMeaning(Dim(sess.shape, a), ap.info.shuffledIndices);
      ArgsortRestores(sess.original, sess.shape, p, a, d);
    }
  }

  /**
   * A substitution on its own: it succeeds exactly on a valid axis list and a count
   * resolving to 0 <= k <= n along the main axis. `mixed_positions` is the replaced
   * positions, every position whose `axis_source` is the main axis holds its
   * original slice, with auxiliary axes `axis_source` differs from the main axis
   * exactly at the replaced positions, and `sequence_target` is the identity over
   * the first axis the caller listed.
   */
  lemma SubstitutionLabels<V(!new)>(sess: Session<V>, axes: AxisArg, p: Param, d: Draw,
                                    zoom: (Plane<V>, nat, nat) -> Plane<V>)
    requires Loaded(sess) && Resamples(zoom) && MixedFits(sess.shape, sess.shape, axes, p, d)
    ensures var r := OneSimulation(sess, Mixed(axes, p), d, zoom);
      r.Ok? <==> ValidAxisList(axes) && SubsetCount(p, Dim(sess.shape, MainAxis(axes))).Ok?
    ensures var r := OneSimulation(sess, Mixed(axes, p), d, zoom);
      r.Ok? ==>
        && ValidAxisList(axes) && r.value.shape == sess.shape && Fits(r.value.data, sess.shape)
        && r.value.targets.MixedTargets?
        && var main, t := MainAxis(axes), r.value.targets;
        && var n := Dim(sess.shape, main);
        && t.mixedPositions == d.chosen && (t.isMixed == 1 <==> |d.chosen| > 0)
        && |t.axisSource| == n
        && (forall i :: 0 <= i < n && t.axisSource[i] == main ==>
              SliceAt(r.value.data, sess.shape, main, i) == SliceAt(sess.original, sess.shape, main, i))
        && (|AuxAxes(axes)| > 0 ==> forall i :: 0 <= i < n ==> (t.axisSource[i] != main <==> i in d.chosen))
        && t.sequenceTarget == Range(Dim(sess.shape, axes.items[0]))
  {
    var r := OneSimulation(sess, Mixed(axes, p), d, zoom);
    MixedAxisResult(sess.original, sess.shape, sess.original, sess.shape, axes, p, d, zoom);
    if r.Ok? {
      var main, aux := MainAxis(axes), AuxAxes(axes);
      var n := Dim(sess.shape, main);
      var src := r.value.targets.axisSource;
      forall i | 0 <= i < n && i in d.chosen
        ensures |aux| > 0 ==> src[i] != main
        ensures |aux| == 0 ==> r.value.data == sess.original
      {
        var t := IndexOf(d.chosen, i);
      }
    }
  }

  // ================================================================ independent mode

  /**
   * Independent runs succeed exactly when every simulation succeeds on its own,
   * and result i is then what simulation i produces on its own.
   */
  lemma {:induction false} IndependentRunsEach<V(!new)>(sess: Session<V>, specs: seq<Spec>, draws: seq<Draw>,
                                                       zoom: (Plane<V>, nat, nat) -> Plane<V>)
    requires Loaded(sess) && Resamples(zoom) && |draws| == |specs|
    requires forall i :: 0 <= i < |specs| ==> SpecFits(sess.shape, sess.shape, specs[i], draws[i])
    ensures IndependentRuns(sess, specs, draws, zoom).Ok? <==>
      forall i :: 0 <= i < |specs| ==> OneSimulation(sess, specs[i], draws[i], zoom).Ok?
    ensures IndependentRuns(sess, specs, draws, zoom).Ok? ==>
      forall i :: 0 <= i < |specs| ==>
        IndependentRuns(sess, specs, draws, zoom).value[i] == OneSimulation(sess, specs[i], draws[i], zoom).value
    decreases |specs|
  {
    if |specs| > 0 {
      var rest, drest := specs[1..], draws[1..];
      IndependentRunsEach(sess, rest, drest, zoom);
      assert forall i :: 1 <= i < |specs| ==> specs[i] == rest[i - 1] && draws[i] == drest[i - 1];
      var head := OneSimulation(sess, specs[0], draws[0], zoom);
      var tail := IndependentRuns(sess, rest, drest, zoom);
      assert IndependentRuns(sess, specs, draws, zoom) == if head.Err? then Err(head.error) else Prepend([head.value], tail);
      if head.Ok? && tail.Ok? {
        assert IndependentRuns(sess, specs, draws, zoom).value == [head.value] + tail.value;
      } else if head.Ok? {
        var i :| 0 <= i < |rest| && !OneSimulation(sess, rest[i], drest[i], zoom).Ok?;
        assert specs[i + 1] == rest[i];
      }
    }
  }

  /**
   * Independent mode (and any mode name the dispatcher does not know) returns one
   * result per simulation, each exactly what that simulation returns in single mode.
   */
  lemma IndependentIsSingleEach<V(!new)>(sess: Session<V>, specs: seq<Spec>, mode: Mode, draws: seq<Draw>, rule: SourceRule,
                                         zoom: (Plane<V>, nat, nat) -> Plane<V>)
    requires Loaded(sess) && Resamples(zoom) && DrawsFit(sess, ListArg(specs), mode, draws, rule, zoom)
    requires mode == Independent || mode == OtherMode
    requires mode == Independent ==> |specs| >= 2
    ensures var r := Simulation(sess, ListArg(specs), mode, draws, rule, zoom);
      r.Ok? <==> forall i :: 0 <= i < |specs| ==> OneSimulation(sess, specs[i], draws[i], zoom).Ok?
    ensures var r := Simulation(sess, ListArg(specs), mode, draws, rule, zoom);
      r.Ok? ==>
        && r.value.Many? && |r.value.results| == |specs|
        && forall i :: 0 <= i < |specs| ==> r.value.results[i] == OneSimulation(sess, specs[i], draws[i], zoom).value
  {
    IndependentRunsEach(sess, specs, draws, zoom);
  }

  // ================================================================ chained mode

  /** Every removal and reordering names `axis`, and every valid substitution has it as main axis. */
  predicate OnAxis(spec: Spec, axis: Axis) {
    match spec
    case Missing(_, a) => a == axis
    case WrongSeq(_, a) => a == axis
    case Mixed(axes, _) => ValidAxisList(axes) ==> MainAxis(axes) == axis
    case Unknown(_) => true
  }

  /**
   * The provenance the chain tracks, along its axis: the volume is the original
   * one resized along the axis to one slice per map entry; the map holds distinct
   * original positions, all of them while nothing was removed; and every slice
   * whose source axis is the tracked axis is the original slice its map entry names.
   */
  ghost predicate Provenance<V>(sess: Session<V>, st: Chain<V>)
    requires Loaded(sess)
  {
    var f, sa, a := st.finalToOriginal, st.sourceAxis, st.axis;
    && st.shape == Resize(sess.shape, a, |f|) && Fits(st.data, st.shape)
    && |sa| == |f| && 0 < |f| && Distinct(f) && InRange(f, Dim(sess.shape, a))
    && (!st.removed ==> |f| == Dim(sess.shape, a))
    && (!st.mixed ==> forall i :: 0 <= i < |sa| ==> sa[i] == a)
    && forall i :: 0 <= i < |f| && sa[i] == a ==>
         SliceAt(st.data, st.shape, a, i) == SliceAt(sess.original, sess.shape, a, f[i])
  }

  /** The chain starts with the provenance of the original volume. */
  lemma StartProvenance<V>(sess: Session<V>, a: Axis)
    requires Loaded(sess)
    ensures Provenance(sess, Start(sess, a))
  {
    assert Resize(sess.shape, a, Dim(sess.shape, a)) == sess.shape;
  }

  /**
   * The corrected update of `source_axis`: an entry this step substituted takes
   * the step's auxiliary axis and every other entry keeps its earlier value.
   */
  lemma MergeKeepsMarks(prev: seq<int>, src: seq<int>, main: int)
    requires |src| == |prev|
    ensures var r := UpdateSourceAxis(Merge, prev, src, main);
      |r| == |prev| &&
      forall i :: 0 <= i < |prev| ==> r[i] == if src[i] != main then src[i] else prev[i]
  {
    var marks := Mismatches(src, main);
    var vals := Take(src, marks);
    assert Distinct(marks);
    ScatterAt(prev, marks, vals);
    var r := Scatter(prev, marks, vals);
    forall i | 0 <= i < |prev| && src[i] != main ensures r[i] == src[i] {
      var t := IndexOf(marks, i);
    }
  }

  /**
   * A removal along the tracked axis deletes the removed positions from both maps,
   * keeps the provenance and the axis, and never fails on an index out of range.
   */
  lemma RemovalKeepsProvenance<V(!new)>(sess: Session<V>, st: Chain<V>, p: Param, d: Draw,
                                        zoom: (Plane<V>, nat, nat) -> Plane<V>)
    requires Loaded(sess) && Resamples(zoom) && Provenance(sess, st)
    requires RemovalFits(st.shape, p, st.axis, d)
    ensures var r := Step(sess, st, Missing(p, st.axis), d, Merge, zoom);
      && (r.Ok? <==> RemovalCount(p, |st.finalToOriginal|).Ok?)
      && (r.Err? ==> r.error != IndexOutOfBounds)
      && (r.Ok? ==> r.value.axis == st.axis && Provenance(sess, r.value))
      && (r.Ok? ==> r.value.finalToOriginal == Delete(st.finalToOriginal, d.chosen)
                    && r.value.sourceAxis == Delete(st.sourceAxis, d.chosen))
  {
    var a, f, sa := st.axis, st.finalToOriginal, st.sourceAxis;
    var n := Dim(st.shape, a);
    MissingSlidesResult(st.data, st.shape, p, a, d);
    if RemovalCount(p, n).Ok? {
      var ap := MissingSlides(st.data, st.shape, p, a, d).value;
      var keep := SetDiff(n, d.chosen);
      assert n == |f| == |sa|;
      TakeDistinct(f, keep);
      var next := Step(sess, st, Missing(p, a), d, Merge, zoom).value;
      assert next.finalToOriginal == Take(f, keep) && next.sourceAxis == Take(sa, keep);
      assert ap.shape == Resize(sess.shape, a, |keep|);
    }
  }

  /**
   * A reordering along the tracked axis permutes both maps by the shuffled indices,
   * keeps the provenance and the axis, and never fails on an index out of range.
   */
  lemma ReorderKeepsProvenance<V(!new)>(sess: Session<V>, st: Chain<V>, p: Param, d: Draw,
                                        zoom: (Plane<V>, nat, nat) -> Plane<V>)
    requires Loaded(sess) && Resamples(zoom) && Provenance(sess, st)
    requires ReorderFits(st.shape, p, st.axis, d)
    ensures var r := Step(sess, st, WrongSeq(p, st.axis), d, Merge, zoom);
      var w := WrongSequence(st.data, st.shape, p, st.axis, d);
      && (r.Ok? <==> w.Ok?)
      && (r.Err? ==> r.error != IndexOutOfBounds)
      && (r.Ok? ==> r.value.axis == st.axis && Provenance(sess, r.value))
      && (r.Ok? ==> w.Ok? && IsPermutation(w.value.info.shuffledIndices, |st.finalToOriginal|)
                    && (p.Null? ==> w.value.info.shuffledIndices == d.order)
                    && r.value.finalToOriginal == Take(st.finalToOriginal, w.value.info.shuffledIndices)
                    && r.value.sourceAxis == Take(st.sourceAxis, w.value.info.shuffledIndices))
  {
    var a, f, sa := st.axis, st.finalToOriginal, st.sourceAxis;
    var n := Dim(st.shape, a);
    WrongSequenceResult(st.data, st.shape, p, a, d);
    var w := WrongSequence(st.data, st.shape, p, a, d);
    if w.Ok? {
      var sh := w.value.info.shuffledIndices;
      assert n == |f| == |sa|;
      TakeDistinct(f, sh);
    }
  }

  /**
   * A substitution whose main axis is the tracked axis leaves the map, the shape and
   * the axis as they were, marks at most the substituted positions in `source_axis`,
   * and keeps the provenance.
   */
  lemma SubstitutionKeepsProvenance<V(!new)>(sess: Session<V>, st: Chain<V>, axes: AxisArg, p: Param, d: Draw,
                                             zoom: (Plane<V>, nat, nat) -> Plane<V>)
    requires Loaded(sess) && Resamples(zoom) && Provenance(sess, st)
    requires MixedFits(sess.shape, st.shape, axes, p, d) && OnAxis(Mixed(axes, p), st.axis)
    ensures var r := Step(sess, st, Mixed(axes, p), d, Merge, zoom);
      && (r.Err? ==> r.error != IndexOutOfBounds)
      && (r.Ok? ==> r.value.axis == st.axis && Provenance(sess, r.value))
      && (r.Ok? ==> r.value.finalToOriginal == st.finalToOriginal && r.value.shape == st.shape
                    && |r.value.sourceAxis| == |st.sourceAxis|
                    && forall i :: 0 <= i < |st.sourceAxis| && i !in d.chosen ==> r.value.sourceAxis[i] == st.sourceAxis[i])
  {
    var a, f, sa := st.axis, st.finalToOriginal, st.sourceAxis;
    var m := MixedAxis(sess.original, sess.shape, st.data, st.shape, axes, p, d, zoom);
    MixedAxisResult(sess.original, sess.shape, st.data, st.shape, axes, p, d, zoom);
    if m.Ok? {
      var main, aux := MainAxis(axes), AuxAxes(axes);
      var src := m.value.info.axisSource;
      assert main == a && |src| == |f| == |sa|;
      MergeKeepsMarks(sa, src, main);
      var sa' := UpdateSourceAxis(Merge, sa, src, main);
      var next := Step(sess, st, Mixed(axes, p), d, Merge, zoom).value;
      assert next == st.(data := m.value.data, sourceAxis := sa', mixed := true);
      forall i | 0 <= i < |f| && sa'[i] == a
        ensures SliceAt(next.data, next.shape, a, i) == SliceAt(sess.original, sess.shape, a, f[i])
      {
        assert src[i] == main && sa[i] == a;
        if i in d.chosen && |aux| > 0 {
          var t := IndexOf(d.chosen, i);
        }
      }
    }
  }

  /**
   * A step along the tracked axis keeps the provenance and the axis, and never
   * fails on an index out of range.
   */
  lemma StepKeepsProvenance<V(!new)>(sess: Session<V>, st: Chain<V>, spec: Spec, d: Draw,
                                     zoom: (Plane<V>, nat, nat) -> Plane<V>)
    requires Loaded(sess) && Resamples(zoom) && Provenance(sess, st)
    requires SpecFits(sess.shape, st.shape, spec, d) && OnAxis(spec, st.axis)
    ensures var r := Step(sess, st, spec, d, Merge, zoom);
      && (r.Err? ==> r.error != IndexOutOfBounds)
      && (r.Ok? ==> r.value.axis == st.axis && Provenance(sess, r.value))
  {
    match spec {
      case Missing(p, _) => RemovalKeepsProvenance(sess, st, p, d, zoom);
      case WrongSeq(p, _) => ReorderKeepsProvenance(sess, st, p, d, zoom);
      case Mixed(axes, p) => SubstitutionKeepsProvenance(sess, st, axes, p, d, zoom);
      case Unknown(_) =>
    }
  }

  /** Every step of a chain along one axis keeps the provenance. */
  lemma {:induction false} RunKeepsProvenance<V(!new)>(sess: Session<V>, specs: seq<Spec>, draws: seq<Draw>,
                                                       st: Chain<V>, zoom: (Plane<V>, nat, nat) -> Plane<V>)
    requires Loaded(sess) && Resamples(zoom) && Provenance(sess, st) && |draws| == |specs|
    requires ChainFits(sess, specs, draws, st, Merge, zoom)
    requires forall i :: 0 <= i < |specs| ==> OnAxis(specs[i], st.axis)
    ensures var r := Run(sess, specs, draws, st, Merge, zoom);
      && (r.Err? ==> r.error != IndexOutOfBounds)
      && (r.Ok? ==> r.value.axis == st.axis && Provenance(sess, r.value))
    decreases |specs|
  {
    if |specs| > 0 {
      StepKeepsProvenance(sess, st, specs[0], draws[0], zoom);
      var s := Step(sess, st, specs[0], draws[0], Merge, zoom);
      if s.Ok? {
        assert forall i :: 0 <= i < |specs| - 1 ==> specs[1..][i] == specs[i + 1];
        RunKeepsProvenance(sess, specs[1..], draws[1..], s.value, zoom);
      }
    }
  }

  /**
   * The targets of a chain whose provenance holds: missing and presence describe
   * the map's complement and membership, `sequence_target` sorts the map, every
   * slice not listed in `mixed_positions` is the original slice its map entry
   * names, and with nothing missing or mixed, gathering the output by
   * `sequence_target` gives back the original volume.
   */
  lemma ProvenanceLabels<V>(sess: Session<V>, st: Chain<V>)
    requires Loaded(sess) && Provenance(sess, st)
    ensures var n, f, a := Dim(sess.shape, st.axis), st.finalToOriginal, st.axis;
      var t := ChainedTargets(n, f, st.sourceAxis, a, st.removed, st.mixed);
      && |t.presenceTarget| == n && Sum(t.presenceTarget) == |f| == Dim(st.shape, a)
      && (forall j :: 0 <= j < n ==> (t.presenceTarget[j] == 1 <==> j in f))
      && (forall x :: x in t.missingOriginalIndices <==> 0 <= x < n && x !in f)
      && |t.missingOriginalIndices| == n - |f|
      && IsPermutation(t.sequenceTarget, |f|) && Increasing(Take(f, t.sequenceTarget))
      && (forall i :: 0 <= i < |f| && i !in t.mixedPositions ==>
            SliceAt(st.data, st.shape, a, i) == SliceAt(sess.original, sess.shape, a, f[i]))
      && (t.missingOriginalIndices == [] && t.mixedPositions == [] ==>
            st.shape == sess.shape && TakeAlong(st.data, sess.shape, a, t.sequenceTarget) == sess.original)
  {
    var n, f, a, sa := Dim(sess.shape, st.axis), st.finalToOriginal, st.axis, st.sourceAxis;
    if !st.removed {
      ChainedTargetsWithoutRemoval(n, f, sa, a, st.mixed);
    }
    ChainedTargetsMeaning(n, f, sa, a, true, st.mixed);
    var t := ChainedTargets(n, f, sa, a, st.removed, st.mixed);
    if t.missingOriginalIndices == [] && t.mixedPositions == [] {
      ProvenanceRestores(sess, st);
    }
  }

  /** With nothing missing or mixed, `sequence_target` gathers the chain's output back into the original. */
  lemma ProvenanceRestores<V>(sess: Session<V>, st: Chain<V>)
    requires Loaded(sess) && Provenance(sess, st)
    requires var t := ChainedTargets(Dim(sess.shape, st.axis), st.finalToOriginal, st.sourceAxis, st.axis, st.removed, st.mixed);
      t.missingOriginalIndices == [] && t.mixedPositions == []
    ensures st.shape == sess.shape
    ensures TakeAlong(st.data, sess.shape, st.axis,
                      ChainedTargets(Dim(sess.shape, st.axis), st.finalToOriginal, st.sourceAxis, st.axis,
                                     st.removed, st.mixed).sequenceTarget) == sess.original
  {
    var n, f, a, sa := Dim(sess.shape, st.axis), st.finalToOriginal, st.axis, st.sourceAxis;
    if !st.removed {
      ChainedTargetsWithoutRemoval(n, f, sa, a, st.mixed);
    }
    ChainedTargetsMeaning(n, f, sa, a, true, st.mixed);
    var t := ChainedTargets(n, f, sa, a, st.removed, st.mixed);
    assert |f| == n;
    assert st.shape == sess.shape;
    ArgsortInverts(f);
    var back := t.sequenceTarget;
    TakeAlongSlices(st.data, sess.shape, a, back);
    assert Resize(sess.shape, a, n) == sess.shape;
    forall k | 0 <= k < n
      ensures SliceAt(TakeAlong(st.data, sess.shape, a, back), sess.shape, a, k)
              == SliceAt(sess.original, sess.shape, a, k)
    {
      assert Take(f, back)[k] == f[back[k]] == k;
      assert back[k] !in t.mixedPositions;
    }
    SlicesDetermine(TakeAlong(st.data, sess.shape, a, back), sess.original, sess.shape, a);
  }

  /**
   * A chain whose steps all work along the first simulation's axis never fails on
   * an index out of range, and its targets describe its output as `ProvenanceLabels` says.
   */
  lemma ChainedLabels<V(!new)>(sess: Session<V>, specs: seq<Spec>, draws: seq<Draw>,
                               zoom: (Plane<V>, nat, nat) -> Plane<V>)
    requires Loaded(sess) && Resamples(zoom) && |specs| > 0 && ChainReady(sess, specs, draws, Merge, zoom)
    requires Tracked(specs[0]) && forall i :: 0 <= i < |specs| ==> OnAxis(specs[i], specs[0].axis)
    ensures var r := ChainedRun(sess, specs, draws, Merge, zoom);
      r.Err? ==> r.error != IndexOutOfBounds
    ensures var r := ChainedRun(sess, specs, draws, Merge, zoom);
      r.Ok? ==>
        && r.value.targets.ChainTargets?
        && var a, n, t := specs[0].axis, Dim(sess.shape, specs[0].axis), r.value.targets;
        && var f := t.finalToOriginal;
        && Distinct(f) && InRange(f, n)
        && r.value.shape == Resize(sess.shape, a, |f|) && Fits(r.value.data, r.value.shape)
        && |t.presenceTarget| == n && Sum(t.presenceTarget) == |f|
        && (forall j :: 0 <= j < n ==> (t.presenceTarget[j] == 1 <==> j in f))
        && (forall x :: x in t.missingOriginalIndices <==> 0 <= x < n && x !in f)
        && |t.missingOriginalIndices| == n - |f|
        && IsPermutation(t.sequenceTarget, |f|) && Increasing(Take(f, t.sequenceTarget))
        && (forall i :: 0 <= i < |f| && i !in t.mixedPositions ==>
              SliceAt(r.value.data, r.value.shape, a, i) == SliceAt(sess.original, sess.shape, a, f[i]))
        && (t.missingOriginalIndices == [] && t.mixedPositions == [] ==>
              r.value.shape == sess.shape && TakeAlong(r.value.data, sess.shape, a, t.sequenceTarget) == sess.original)
  {
    var a := specs[0].axis;
    StartProvenance(sess, a);
    RunKeepsProvenance(sess, specs, draws, Start(sess, a), zoom);
    var run := Run(sess, specs, draws, Start(sess, a), Merge, zoom);
    if run.Ok? {
      ProvenanceLabels(sess, run.value);
    }
  }

  /** A run whose first step succeeds continues from that step's result, and the draws fit it exactly when they fit the rest. */
  lemma RunCons<V(!new)>(sess: Session<V>, specs: seq<Spec>, draws: seq<Draw>, st: Chain<V>, next: Chain<V>,
                         rule: SourceRule, zoom: (Plane<V>, nat, nat) -> Plane<V>)
    requires Loaded(sess) && Resamples(zoom) && Fits(st.data, st.shape) && |specs| == |draws| > 0
    requires SpecFits(sess.shape, st.shape, specs[0], draws[0])
    requires Step(sess, st, specs[0], draws[0], rule, zoom) == Ok(next)
    ensures Fits(next.data, next.shape)
    ensures ChainFits(sess, specs, draws, st, rule, zoom) <==> ChainFits(sess, specs[1..], draws[1..], next, rule, zoom)
    ensures ChainFits(sess, specs, draws, st, rule, zoom) ==>
      Run(sess, specs, draws, st, rule, zoom) == Run(sess, specs[1..], draws[1..], next, rule, zoom)
  {
  }

  /** Removing `Int(2)` slices from a ten-slice axis at the start of a chain leaves eight. */
  lemma RemoveTwoOfTen<V(!new)>(sess: Session<V>, a: Axis, d: Draw, zoom: (Plane<V>, nat, nat) -> Plane<V>)
    requires Loaded(sess) && Resamples(zoom) && Dim(sess.shape, a) == 10
    requires RemovalFits(sess.shape, Int(2), a, d)
    ensures var r := Step(sess, Start(sess, a), Missing(Int(2), a), d, Merge, zoom);
      r.Ok? && r.value.axis == a && Provenance(sess, r.value) && |r.value.finalToOriginal| == 8
  {
    StartProvenance(sess, a);
    RemovalKeepsProvenance(sess, Start(sess, a), Int(2), d, zoom);
    FilterCount(10, d.chosen);
  }

  /** A full reordering in a chain always succeeds and keeps the number of slices. */
  lemma FullReorderInChain<V(!new)>(sess: Session<V>, st: Chain<V>, d: Draw, zoom: (Plane<V>, nat, nat) -> Plane<V>)
    requires Loaded(sess) && Resamples(zoom) && Provenance(sess, st)
    requires ReorderFits(st.shape, Null, st.axis, d)
    ensures var r := Step(sess, st, WrongSeq(Null, st.axis), d, Merge, zoom);
      r.Ok? && |r.value.finalToOriginal| == |st.finalToOriginal|
  {
    ReorderKeepsProvenance(sess, st, Null, d, zoom);
  }

  // ================================================================ the two rules of line 239

  /** The number of substitutions in a list of simulations. */
  function Mixes(specs: seq<Spec>): nat {
    if |specs| == 0 then 0 else (if specs[0].Mixed? then 1 else 0) + Mixes(specs[1..])
  }

  /**
   * Before any substitution every `source_axis` entry is the tracked axis, so the
   * first substitution along that axis updates it the same way under both rules.
   */
  lemma StepRulesAgree<V(!new)>(sess: Session<V>, st: Chain<V>, spec: Spec, d: Draw,
                                zoom: (Plane<V>, nat, nat) -> Plane<V>)
    requires Loaded(sess) && Resamples(zoom) && Provenance(sess, st)
    requires SpecFits(sess.shape, st.shape, spec, d) && OnAxis(spec, st.axis)
    requires spec.Mixed? ==> !st.mixed
    ensures Step(sess, st, spec, d, Replace, zoom) == Step(sess, st, spec, d, Merge, zoom)
  {
    if spec.Mixed? {
      var axes, p := spec.axisList, spec.weightParam;
      var m := MixedAxis(sess.original, sess.shape, st.data, st.shape, axes, p, d, zoom);
      MixedAxisResult(sess.original, sess.shape, st.data, st.shape, axes, p, d, zoom);
      if m.Ok? {
        var main, src, sa := MainAxis(axes), m.value.info.axisSource, st.sourceAxis;
        assert main == st.axis && |src| == |sa|;
        MergeKeepsMarks(sa, src, main);
        assert UpdateSourceAxis(Merge, sa, src, main) == src;
      }
    }
  }

  /**
   * A chain along one axis with at most one substitution runs the same under
   * line 239 as written and under the merging rule.
   */
  lemma {:induction false} RunRulesAgree<V(!new)>(sess: Session<V>, specs: seq<Spec>, draws: seq<Draw>,
                                                  st: Chain<V>, zoom: (Plane<V>, nat, nat) -> Plane<V>)
    requires Loaded(sess) && Resamples(zoom) && Provenance(sess, st) && |draws| == |specs|
    requires forall i :: 0 <= i < |specs| ==> OnAxis(specs[i], st.axis)
    requires Mixes(specs) + (if st.mixed then 1 else 0) <= 1
    ensures ChainFits(sess, specs, draws, st, Replace, zoom) <==> ChainFits(sess, specs, draws, st, Merge, zoom)
    ensures ChainFits(sess, specs, draws, st, Merge, zoom) ==>
      Run(sess, specs, draws, st, Replace, zoom) == Run(sess, specs, draws, st, Merge, zoom)
    decreases |specs|
  {
    if |specs| > 0 && SpecFits(sess.shape, st.shape, specs[0], draws[0]) {
      StepRulesAgree(sess, st, specs[0], draws[0], zoom);
      StepKeepsProvenance(sess, st, specs[0], draws[0], zoom);
      var s := Step(sess, st, specs[0], draws[0], Merge, zoom);
      if s.Ok? {
        assert forall i :: 0 <= i < |specs| - 1 ==> specs[1..][i] == specs[i + 1];
        RunRulesAgree(sess, specs[1..], draws[1..], s.value, zoom);
      }
    }
  }

  /**
   * A chain along its first simulation's axis with at most one substitution gives
   * the same result under line 239 as written as under the merging rule, so
   * `ChainedLabels` describes the program as written for such chains.
   */
  lemma ChainedRunRulesAgree<V(!new)>(sess: Session<V>, specs: seq<Spec>, draws: seq<Draw>,
                                      zoom: (Plane<V>, nat, nat) -> Plane<V>)
    requires Loaded(sess) && Resamples(zoom) && |specs| > 0 && |draws| == |specs|
    requires Tracked(specs[0]) && forall i :: 0 <= i < |specs| ==> OnAxis(specs[i], specs[0].axis)
    requires Mixes(specs) <= 1
    ensures ChainReady(sess, specs, draws, Replace, zoom) <==> ChainReady(sess, specs, draws, Merge, zoom)
    ensures ChainReady(sess, specs, draws, Merge, zoom) ==>
      ChainedRun(sess, specs, draws, Replace, zoom) == ChainedRun(sess, specs, draws, Merge, zoom)
  {
    StartProvenance(sess, specs[0].axis);
    RunRulesAgree(sess, specs, draws, Start(sess, specs[0].axis), zoom);
  }

  // ================================================================ unknown simulation types

  /** A chain that reaches a simulation of unknown type fails (line 241). */
  lemma {:induction false} RunStopsAtUnknown<V(!new)>(sess: Session<V>, specs: seq<Spec>, draws: seq<Draw>,
                                                      st: Chain<V>, rule: SourceRule,
                                                      zoom: (Plane<V>, nat, nat) -> Plane<V>)
    requires Loaded(sess) && Resamples(zoom) && Fits(st.data, st.shape) && |draws| == |specs|
    requires ChainFits(sess, specs, draws, st, rule, zoom)
    requires exists i :: 0 <= i < |specs| && specs[i].Unknown?
    ensures Run(sess, specs, draws, st, rule, zoom).Err?
    decreases |specs|
  {
    if !specs[0].Unknown? {
      var s := Step(sess, st, specs[0], draws[0], rule, zoom);
      if s.Ok? {
        var i :| 0 <= i < |specs| && specs[i].Unknown?;
        assert specs[1..][i - 1] == specs[i];
        RunStopsAtUnknown(sess, specs[1..], draws[1..], s.value, rule, zoom);
      }
    }
  }

  /**
   * Lines 194 and 241: a simulation of unknown type makes `simulate` fail in every
   * mode, whether it runs on its own, among independent runs, or in a chain.
   */
  lemma UnknownTypeFails<V(!new)>(sess: Session<V>, sims: Simulations, mode: Mode, draws: seq<Draw>, rule: SourceRule,
                                  zoom: (Plane<V>, nat, nat) -> Plane<V>)
    requires Loaded(sess) && Resamples(zoom) && DrawsFit(sess, sims, mode, draws, rule, zoom)
    requires SpecList(sims).Ok?
    requires exists i :: 0 <= i < |SpecList(sims).value| && SpecList(sims).value[i].Unknown?
    ensures Simulation(sess, sims, mode, draws, rule, zoom).Err?
  {
    var specs := SpecList(sims).value;
    var i :| 0 <= i < |specs| && specs[i].Unknown?;
    if CountAccepted(mode, |specs|) {
      if mode == Chained {
        if Tracked(specs[0]) {
          RunStopsAtUnknown(sess, specs, draws, Start(sess, specs[0].axis), rule, zoom);
        }
      } else if mode != Single {
        IndependentRunsEach(sess, specs, draws, zoom);
        assert !OneSimulation(sess, specs[i], draws[i], zoom).Ok?;
      }
    }
  }

  /** The chain of `RemoveThenReorder` under the merging rule. */
  lemma RemoveThenReorderMerged<V(!new)>(sess: Session<V>, a: Axis, d1: Draw, d2: Draw,
                                         zoom: (Plane<V>, nat, nat) -> Plane<V>)
    requires Loaded(sess) && Resamples(zoom) && Dim(sess.shape, a) == 10
    requires ChainReady(sess, [Missing(Int(2), a), WrongSeq(Null, a)], [d1, d2], Merge, zoom)
    ensures var r := ChainedRun(sess, [Missing(Int(2), a), WrongSeq(Null, a)], [d1, d2], Merge, zoom);
      && r.Ok? && r.value.targets.ChainTargets?
      && var t := r.value.targets;
      && |t.finalToOriginal| == 8 && |t.missingOriginalIndices| == 2 && Sum(t.presenceTarget) == 8
      && r.value.shape == Resize(sess.shape, a, 8)
  {
    var specs, draws := [Missing(Int(2), a), WrongSeq(Null, a)], [d1, d2];
    var st0 := Start(sess, a);
    RemoveTwoOfTen(sess, a, d1, zoom);
    var st1 := Step(sess, st0, specs[0], d1, Merge, zoom).value;
    RunCons(sess, specs, draws, st0, st1, Merge, zoom);
    var rest, drest := specs[1..], draws[1..];
    assert rest == [WrongSeq(Null, a)] && drest == [d2];
    FullReorderInChain(sess, st1, d2, zoom);
    var st2 := Step(sess, st1, rest[0], d2, Merge, zoom).value;
    RunCons(sess, rest, drest, st1, st2, Merge, zoom);
    assert rest[1..] == [] && drest[1..] == [];
    ChainedLabels(sess, specs, draws, zoom);
  }

  /**
   * A chain that removes two slices of a ten-slice axis, then reorders the whole
   * axis: under either rule it succeeds, eight slices remain, two are reported
   * missing and the presence target sums to eight.
   */
  lemma RemoveThenReorder<V(!new)>(sess: Session<V>, a: Axis, d1: Draw, d2: Draw, rule: SourceRule,
                                   zoom: (Plane<V>, nat, nat) -> Plane<V>)
    requires Loaded(sess) && Resamples(zoom) && Dim(sess.shape, a) == 10
    requires ChainReady(sess, [Missing(Int(2), a), WrongSeq(Null, a)], [d1, d2], rule, zoom)
    ensures var r := Simulation(sess, ListArg([Missing(Int(2), a), WrongSeq(Null, a)]), Chained, [d1, d2], rule, zoom);
      && r.Ok? && r.value.One? && r.value.result.targets.ChainTargets?
      && var t := r.value.result.targets;
      && |t.finalToOriginal| == 8 && |t.missingOriginalIndices| == 2 && Sum(t.presenceTarget) == 8
      && r.value.result.shape == Resize(sess.shape, a, 8)
  {
    var specs, draws := [Missing(Int(2), a), WrongSeq(Null, a)], [d1, d2];
    assert specs[1..] == [WrongSeq(Null, a)] && specs[1..][1..] == [];
    assert Mixes(specs[1..][1..]) == 0 && Mixes(specs[1..]) == 0 && Mixes(specs) == 0;
    ChainedRunRulesAgree(sess, specs, draws, zoom);
    RemoveThenReorderMerged(sess, a, d1, d2, zoom);
  }
}
