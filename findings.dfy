/**
 * Two substitutions in one chain. Line 239 replaces `source_axis` with the
 * latest step's `axis_source`, which marks only the positions that step
 * substituted, so a position substituted by an earlier step is labelled as an
 * original slice again. The chain below shows it on a two-slice volume; the
 * merging update keeps the earlier mark.
 */
module Findings {
  import opened Outcomes
  import opened Indices
  import opened Volumes
  import opened Params
  import opened Primitives
  import opened Labels
  import opened Simulator
  import opened Properties

  /** A resample that fills the requested plane with ones. */
  function Ones(p: Plane<int>, rows: nat, cols: nat): (r: Plane<int>)
    ensures IsPlane(r, rows, cols)
  {
    seq(rows, _ => seq(cols, _ => 1))
  }

  /** A volume of two one-voxel slices along axis 0, both zero. */
  const Scan: Session<int> := Session([[[0]], [[0]]], Shape(2, 1, 1))

  /** Axis 0 is the main axis, axis 1 the only auxiliary one. */
  const Pair: AxisArg := AxisList([0, 1])

  /** Reorder axis 0, substitute slice 0, then substitute slice 1. */
  const Steps: seq<Spec> := [WrongSeq(Null, 0), Mixed(Pair, Int(1)), Mixed(Pair, Int(1))]

  const Picks: seq<Draw> := [Draw([], [0, 1], [], []), Draw([0], [], [0], [0]), Draw([1], [], [0], [0])]

  /** The volume after the first substitution, and after the second. */
  const Once: Grid<int> := [[[1]], [[0]]]
  const Twice: Grid<int> := [[[1]], [[1]]]

  lemma ScanLoaded()
    ensures Loaded(Scan)
  {
    assert Fits(Scan.original, Scan.shape);
  }

  lemma OnesResamples()
    ensures Resamples(Ones)
  {
  }

  lemma OnesUnit(p: Plane<int>)
    ensures Ones(p, 1, 1) == [[1]]
  {
    var r := Ones(p, 1, 1);
    assert |r| == 1 && r[0] == [1];
  }

  /** One more candidate for `Filter`. */
  lemma FilterNext(n: nat, s: seq<int>, keep: bool, prefix: seq<int>)
    requires Filter(n, s, keep) == prefix
    ensures Filter(n + 1, s, keep) == if (n in s) == keep then prefix + [n] else prefix
  {
  }

  lemma PairDedup()
    ensures Dedup(Pair.items) == [0, 1]
  {
    var s := Pair.items;
    assert s[0] == 0 && s[1] == 1 && |s| == 2;
    FilterNext(0, s, true, []);
    FilterNext(1, s, true, [0]);
    assert [0] + [1] == [0, 1];
    FilterNext(2, s, true, [0, 1]);
  }

  lemma PairSplits()
    ensures ValidAxisList(Pair) && MainAxis(Pair) == 0 && AuxAxes(Pair) == [1]
  {
    PairDedup();
    assert [0, 1][1..] == [1];
  }

  /** The chain state after the reordering by the identity: the starting state. */
  lemma FirstStep(rule: SourceRule)
    ensures Loaded(Scan) && Resamples(Ones)
    ensures SpecFits(Scan.shape, Scan.shape, Steps[0], Picks[0])
    ensures Step(Scan, Start(Scan, 0), Steps[0], Picks[0], rule, Ones) == Ok(Start(Scan, 0))
  {
    OnesResamples();
    assert Range(2) == [0, 1];
    TakeAlongRange(Scan.original, Scan.shape, 0);
    var st := Start(Scan, 0);
    assert Take(st.finalToOriginal, [0, 1]) == st.finalToOriginal;
    assert Take(st.sourceAxis, [0, 1]) == st.sourceAxis;
  }

  /** Slice 0 along axis 1, resampled to a slice along axis 0: a single one. */
  lemma AuxOne()
    ensures Loaded(Scan) && Resamples(Ones)
    ensures AuxPlane(Scan.original, Scan.shape, Scan.shape, 0, 1, 0, Ones) == [[1]]
  {
    OnesResamples();
    OnesUnit(SliceAt(Scan.original, Scan.shape, 1, 0));
  }

  /** Substituting one position is one write. */
  lemma SubstituteOne(g: Grid<int>, pos: int)
    requires Fits(g, Scan.shape) && 0 <= pos < 2
    ensures Loaded(Scan) && Resamples(Ones)
    ensures Substitutable(Scan.shape, Scan.shape, 0, [pos], [1], [0])
    ensures Substitute(Scan.original, Scan.shape, g, Scan.shape, 0, [pos], [1], [0], Ones)
      == PutAlong(g, Scan.shape, 0, pos, [[1]])
  {
    AuxOne();
    assert [pos][..0] == [] && [1][..0] == [] && [0][..0] == [];
  }

  /** A substitution with auxiliary axes and an accepted count, unfolded once. */
  lemma SubstitutionOutcome<V(!new)>(orig: Grid<V>, os: Shape, data: Grid<V>, s: Shape, axes: AxisArg, p: Param,
                                     d: Draw, zoom: (Plane<V>, nat, nat) -> Plane<V>, k: nat)
    requires Fits(orig, os) && Fits(data, s) && Resamples(zoom) && MixedFits(os, s, axes, p, d)
    requires ValidAxisList(axes) && SubsetCount(p, Dim(s, MainAxis(axes))) == Ok(k) && |AuxAxes(axes)| > 0
    ensures var main, srcAxes := MainAxis(axes), SourceAxes(AuxAxes(axes), d.auxPicks, k);
      MixedAxis(orig, os, data, s, axes, p, d, zoom)
        == Ok(Applied(Substitute(orig, os, data, s, main, d.chosen, srcAxes, d.auxSlices, zoom), s,
                      MixedInfo(Scatter(seq(Dim(s, main), _ => main), d.chosen, srcAxes), d.chosen)))
  {
  }

  /** Draws fit a substitution whose axis list splits into `main` and `aux` and whose count resolves to k. */
  lemma FitsSplit(os: Shape, s: Shape, axes: AxisArg, p: Param, d: Draw, main: Axis, aux: seq<int>, k: nat)
    requires ValidAxisList(axes) && MainAxis(axes) == main && AuxAxes(axes) == aux
    requires SubsetCount(p, Dim(s, main)) == Ok(k) && IsChoice(d.chosen, Dim(s, main), k)
    requires |aux| > 0 ==> |d.auxPicks| == k && |d.auxSlices| == k
    requires |aux| > 0 ==> forall t :: 0 <= t < k ==> 0 <= d.auxPicks[t] < |aux| && 0 <= d.auxSlices[t] < Dim(os, aux[d.auxPicks[t]])
    ensures MixedFits(os, s, axes, p, d)
  {
  }

  /** The axis list [0, 1] with a count of 1 picks one of the two axis-0 slices. */
  lemma PairCount()
    ensures ValidAxisList(Pair) && MainAxis(Pair) == 0 && AuxAxes(Pair) == [1]
    ensures Dim(Scan.shape, 0) == 2 && SubsetCount(Int(1), Dim(Scan.shape, MainAxis(Pair))) == Ok(1)
  {
    PairSplits();
    assert Dim(Scan.shape, 0) == 2;
  }

  /** A draw of one axis-0 slice, with axis 1 and its slice 0 as source, fits the two-slice volume. */
  lemma PairFits(d: Draw, pos: int)
    requires d == Draw([pos], [], [0], [0]) && 0 <= pos < 2
    ensures MixedFits(Scan.shape, Scan.shape, Pair, Int(1), d)
  {
    PairCount();
    FitsSplit(Scan.shape, Scan.shape, Pair, Int(1), d, 0, [1], 1);
  }

  /** Both substitutions take their slice from axis 1. */
  lemma PairSources()
    ensures SourceAxes(AuxAxes(Pair), [0], 1) == [1]
  {
    PairSplits();
    assert SourceAxes([1], [0], 1) == [1];
  }

  /** The draws of both substitutions fit the two-slice volume. */
  lemma MixesFit(d: Draw, pos: int)
    requires d == Draw([pos], [], [0], [0]) && 0 <= pos < 2
    ensures Loaded(Scan) && Resamples(Ones)
    ensures ValidAxisList(Pair) && SubsetCount(Int(1), Dim(Scan.shape, MainAxis(Pair))) == Ok(1)
    ensures MixedFits(Scan.shape, Scan.shape, Pair, Int(1), d)
    ensures SourceAxes(AuxAxes(Pair), d.auxPicks, 1) == [1]
  {
    ScanLoaded();
    OnesResamples();
    PairCount();
    PairFits(d, pos);
    PairSources();
  }

  /** The first substitution: slice 0 becomes the resampled slice 0 of axis 1, and its source is axis 1. */
  lemma FirstMix()
    ensures Loaded(Scan) && Resamples(Ones) && MixedFits(Scan.shape, Scan.shape, Pair, Int(1), Picks[1])
    ensures MixedAxis(Scan.original, Scan.shape, Scan.original, Scan.shape, Pair, Int(1), Picks[1], Ones)
      == Ok(Applied(Once, Scan.shape, MixedInfo([1, 0], [0])))
  {
    var d := Picks[1];
    assert d == Draw([0], [], [0], [0]);
    MixesFit(d, 0);
    PairSplits();
    FirstWrites();
    SubstitutionOutcome(Scan.original, Scan.shape, Scan.original, Scan.shape, Pair, Int(1), d, Ones, 1);
  }

  /** The writes of the first substitution: the volume, and the `axis_source` marking position 0 only. */
  lemma FirstWrites()
    ensures Loaded(Scan) && Resamples(Ones)
    ensures Substitutable(Scan.shape, Scan.shape, 0, [0], [1], [0])
    ensures Substitute(Scan.original, Scan.shape, Scan.original, Scan.shape, 0, [0], [1], [0], Ones) == Once
    ensures Scatter(seq(2, _ => 0), [0], [1]) == [1, 0]
  {
    SubstituteOne(Scan.original, 0);
    assert PutAlong(Scan.original, Scan.shape, 0, 0, [[1]]) == Once;
    var unmixed := seq(2, _ => 0);
    assert unmixed == [0, 0];
    assert Scatter(unmixed, [0], [1]) == [1, 0] by {
      assert [0][..0] == [] && [1][..0] == [];
    }
  }

  /** The second substitution: slice 1 becomes the resampled slice, and only position 1 is marked. */
  lemma SecondMix()
    ensures Loaded(Scan) && Resamples(Ones) && Fits(Once, Scan.shape)
    ensures MixedFits(Scan.shape, Scan.shape, Pair, Int(1), Picks[2])
    ensures MixedAxis(Scan.original, Scan.shape, Once, Scan.shape, Pair, Int(1), Picks[2], Ones)
      == Ok(Applied(Twice, Scan.shape, MixedInfo([0, 1], [1])))
  {
    var d := Picks[2];
    assert d == Draw([1], [], [0], [0]);
    MixesFit(d, 1);
    PairSplits();
    SecondWrites();
    SubstitutionOutcome(Scan.original, Scan.shape, Once, Scan.shape, Pair, Int(1), d, Ones, 1);
  }

  /** The writes of the second substitution: the volume, and the `axis_source` marking position 1 only. */
  lemma SecondWrites()
    ensures Loaded(Scan) && Resamples(Ones) && Fits(Once, Scan.shape)
    ensures Substitutable(Scan.shape, Scan.shape, 0, [1], [1], [0])
    ensures Substitute(Scan.original, Scan.shape, Once, Scan.shape, 0, [1], [1], [0], Ones) == Twice
    ensures Scatter(seq(2, _ => 0), [1], [1]) == [0, 1]
  {
    assert Fits(Once, Scan.shape);
    SubstituteOne(Once, 1);
    assert PutAlong(Once, Scan.shape, 0, 1, [[1]]) == Twice;
    var unmixed := seq(2, _ => 0);
    assert unmixed == [0, 0];
    assert Scatter(unmixed, [1], [1]) == [0, 1] by {
      assert [1][..0] == [] && [0][..0] == [];
    }
  }

  /** A merged update, entry by entry. */
  lemma MergeUpdate(prev: seq<int>, src: seq<int>, main: int, expected: seq<int>)
    requires |src| == |prev| == |expected|
    requires forall i :: 0 <= i < |prev| ==> expected[i] == if src[i] != main then src[i] else prev[i]
    ensures UpdateSourceAxis(Merge, prev, src, main) == expected
  {
    MergeKeepsMarks(prev, src, main);
  }

  /** The two rules on the two substitutions: both keep the first mark; only merging keeps it through the second. */
  lemma SourceUpdates(rule: SourceRule)
    ensures UpdateSourceAxis(rule, [0, 0], [1, 0], 0) == [1, 0]
    ensures UpdateSourceAxis(rule, [1, 0], [0, 1], 0) == if rule.Replace? then [0, 1] else [1, 1]
  {
    MergeUpdate([0, 0], [1, 0], 0, [1, 0]);
    MergeUpdate([1, 0], [0, 1], 0, [1, 1]);
  }

  /** The chain state after the first substitution, under either rule. */
  function AfterFirstMix(): Chain<int> {
    Start(Scan, 0).(data := Once, sourceAxis := [1, 0], mixed := true)
  }

  /** The chain state after the second substitution; the rule decides what `source_axis` keeps of slice 0. */
  function AfterSecondMix(rule: SourceRule): Chain<int> {
    AfterFirstMix().(data := Twice, sourceAxis := if rule.Replace? then [0, 1] else [1, 1])
  }

  /** A substitution step in a chain whose substitution and update both succeed. */
  lemma SubstitutionStep<V(!new)>(sess: Session<V>, st: Chain<V>, axes: AxisArg, p: Param, d: Draw, rule: SourceRule,
                                  zoom: (Plane<V>, nat, nat) -> Plane<V>, ap: Applied<V>, sa: seq<int>)
    requires Loaded(sess) && Resamples(zoom) && Fits(st.data, st.shape)
    requires MixedFits(sess.shape, st.shape, axes, p, d)
    requires MixedAxis(sess.original, sess.shape, st.data, st.shape, axes, p, d, zoom) == Ok(ap)
    requires UpdateSourceAxis(rule, st.sourceAxis, ap.info.axisSource, MainAxis(axes)) == sa
    ensures Step(sess, st, Mixed(axes, p), d, rule, zoom) == Ok(st.(data := ap.data, sourceAxis := sa, mixed := true))
  {
  }

  lemma SecondStep(rule: SourceRule)
    ensures Loaded(Scan) && Resamples(Ones)
    ensures SpecFits(Scan.shape, Scan.shape, Steps[1], Picks[1])
    ensures Step(Scan, Start(Scan, 0), Steps[1], Picks[1], rule, Ones) == Ok(AfterFirstMix())
  {
    var st := Start(Scan, 0);
    assert Steps[1] == Mixed(Pair, Int(1));
    assert st.data == Scan.original && st.shape == Scan.shape;
    assert st.sourceAxis == [0, 0] by {
      assert seq(2, _ => 0) == [0, 0];
    }
    FirstMix();
    PairSplits();
    SourceUpdates(rule);
    SubstitutionStep(Scan, st, Pair, Int(1), Picks[1], rule, Ones,
                     Applied(Once, Scan.shape, MixedInfo([1, 0], [0])), [1, 0]);
  }

  lemma ThirdStep(rule: SourceRule)
    ensures Loaded(Scan) && Resamples(Ones) && Fits(AfterFirstMix().data, AfterFirstMix().shape)
    ensures SpecFits(Scan.shape, AfterFirstMix().shape, Steps[2], Picks[2])
    ensures Step(Scan, AfterFirstMix(), Steps[2], Picks[2], rule, Ones) == Ok(AfterSecondMix(rule))
  {
    SecondMix();
    PairSplits();
    SourceUpdates(rule);
    SubstitutionStep(Scan, AfterFirstMix(), Pair, Int(1), Picks[2], rule, Ones,
                     Applied(Twice, Scan.shape, MixedInfo([0, 1], [1])), if rule.Replace? then [0, 1] else [1, 1]);
    assert Steps[2] == Mixed(Pair, Int(1));
  }

  /** A run of a single step that succeeds. */
  lemma OneStepRun<V(!new)>(sess: Session<V>, specs: seq<Spec>, draws: seq<Draw>, st: Chain<V>, next: Chain<V>,
                            rule: SourceRule, zoom: (Plane<V>, nat, nat) -> Plane<V>)
    requires Loaded(sess) && Resamples(zoom) && Fits(st.data, st.shape) && |specs| == |draws| == 1
    requires SpecFits(sess.shape, st.shape, specs[0], draws[0])
    requires Step(sess, st, specs[0], draws[0], rule, zoom) == Ok(next)
    ensures ChainFits(sess, specs, draws, st, rule, zoom)
    ensures Run(sess, specs, draws, st, rule, zoom) == Ok(next)
  {
    RunCons(sess, specs, draws, st, next, rule, zoom);
    assert specs[1..] == [] && draws[1..] == [];
  }

  /** The last step alone. */
  lemma RunLast(rule: SourceRule)
    ensures Loaded(Scan) && Resamples(Ones) && Fits(AfterFirstMix().data, AfterFirstMix().shape)
    ensures ChainFits(Scan, Steps[2..], Picks[2..], AfterFirstMix(), rule, Ones)
    ensures Run(Scan, Steps[2..], Picks[2..], AfterFirstMix(), rule, Ones) == Ok(AfterSecondMix(rule))
  {
    ThirdStep(rule);
    var s, p := Steps[2..], Picks[2..];
    assert s == [Steps[2]] && p == [Picks[2]];
    OneStepRun(Scan, s, p, AfterFirstMix(), AfterSecondMix(rule), rule, Ones);
  }

  /** The two substitutions. */
  lemma RunMixes(rule: SourceRule)
    ensures Loaded(Scan) && Resamples(Ones)
    ensures ChainFits(Scan, Steps[1..], Picks[1..], Start(Scan, 0), rule, Ones)
    ensures Run(Scan, Steps[1..], Picks[1..], Start(Scan, 0), rule, Ones) == Ok(AfterSecondMix(rule))
  {
    SecondStep(rule);
    RunLast(rule);
    var s, p := Steps[1..], Picks[1..];
    assert s[0] == Steps[1] && p[0] == Picks[1] && s[1..] == Steps[2..] && p[1..] == Picks[2..];
    RunCons(Scan, s, p, Start(Scan, 0), AfterFirstMix(), rule, Ones);
  }

  /** The whole chain under either rule: it succeeds, with both slices substituted and the identity map. */
  lemma FindingRun(rule: SourceRule)
    ensures Loaded(Scan) && Resamples(Ones)
    ensures ChainReady(Scan, Steps, Picks, rule, Ones)
    ensures Run(Scan, Steps, Picks, Start(Scan, 0), rule, Ones) == Ok(AfterSecondMix(rule))
  {
    FirstStep(rule);
    RunMixes(rule);
    assert Steps[0].axis == 0;
    RunCons(Scan, Steps, Picks, Start(Scan, 0), Start(Scan, 0), rule, Ones);
  }

  /** A chain whose run succeeds returns the run's volume with the chain targets of its final state. */
  lemma ChainedRunOf<V(!new)>(sess: Session<V>, specs: seq<Spec>, draws: seq<Draw>, rule: SourceRule,
                              zoom: (Plane<V>, nat, nat) -> Plane<V>, st: Chain<V>)
    requires Loaded(sess) && Resamples(zoom) && |specs| > 0 && ChainReady(sess, specs, draws, rule, zoom)
    requires Tracked(specs[0]) && Run(sess, specs, draws, Start(sess, specs[0].axis), rule, zoom) == Ok(st)
    ensures ChainedRun(sess, specs, draws, rule, zoom)
      == Ok(Labeled(st.data, st.shape, ChainedTargets(Dim(sess.shape, specs[0].axis), st.finalToOriginal,
                                                      st.sourceAxis, st.axis, st.removed, st.mixed)))
  {
  }

  /** The whole chain under either rule: the final state's volume with its chain targets. */
  lemma FindingResult(rule: SourceRule)
    ensures Loaded(Scan) && Resamples(Ones) && ChainReady(Scan, Steps, Picks, rule, Ones)
    ensures var st := AfterSecondMix(rule);
      ChainedRun(Scan, Steps, Picks, rule, Ones)
        == Ok(Labeled(Twice, Scan.shape, ChainedTargets(2, Range(2), st.sourceAxis, 0, false, true)))
  {
    FindingRun(rule);
    ChainedRunOf(Scan, Steps, Picks, rule, Ones, AfterSecondMix(rule));
  }

  /**
   * As written (line 239): after the second substitution, position 0 is no longer
   * listed in `mixed_positions` and its source axis reads as the tracked axis,
   * although it still holds the plane resampled from axis 1.
   */
  lemma ReplaceForgetsSubstitution()
    ensures Loaded(Scan) && Resamples(Ones) && ChainReady(Scan, Steps, Picks, Replace, Ones)
    ensures var r := ChainedRun(Scan, Steps, Picks, Replace, Ones);
      && r.Ok? && r.value.targets.ChainTargets?
      && var t := r.value.targets;
      && t.finalToOriginal == [0, 1] && t.sourceAxis == [0, 1] && 0 !in t.mixedPositions
      && r.value.shape == Scan.shape
      && SliceAt(r.value.data, r.value.shape, 0, 0) == AuxPlane(Scan.original, Scan.shape, Scan.shape, 0, 1, 0, Ones)
  {
    FindingResult(Replace);
    AuxOne();
    assert Range(2) == [0, 1];
    assert SliceAt(Twice, Scan.shape, 0, 0) == [[1]];
  }

  /** Both positions of the merged `source_axis` differ from axis 0. */
  lemma MergedMarks()
    ensures var marks := Mismatches(AfterSecondMix(Merge).sourceAxis, 0); 0 in marks && 1 in marks
  {
    var sa := AfterSecondMix(Merge).sourceAxis;
    assert sa == [1, 1] && sa[0] != 0 && sa[1] != 0;
  }

  /**
   * With the merging update the same chain keeps both marks and reports both
   * substituted positions in `mixed_positions`.
   */
  lemma MergeReportsSubstitution()
    ensures Loaded(Scan) && Resamples(Ones) && ChainReady(Scan, Steps, Picks, Merge, Ones)
    ensures var r := ChainedRun(Scan, Steps, Picks, Merge, Ones);
      && r.Ok? && r.value.targets.ChainTargets?
      && var t := r.value.targets;
      && t.finalToOriginal == [0, 1] && t.sourceAxis == [1, 1] && 0 in t.mixedPositions && 1 in t.mixedPositions
  {
    FindingResult(Merge);
    MergedMarks();
  }
}
