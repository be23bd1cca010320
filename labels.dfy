/**
 * Ground-truth label derivation: the target dictionaries built for one
 * simulation (single and independent modes) and for a chain.
 */
module Labels {
  import opened Indices

  /** The target dictionaries `simulate` returns. */
  datatype Targets =
    | SliceTargets(isMissing: int, missingPositions: seq<int>, presenceTarget: seq<int>, sequenceTarget: seq<int>)
    | MixedTargets(isMixed: int, mixedPositions: seq<int>, axisSource: seq<int>, sequenceTarget: seq<int>)
    | ChainTargets(finalToOriginal: seq<int>, sourceAxis: seq<int>, missingOriginalIndices: seq<int>,
                   presenceTarget: seq<int>, sequenceTarget: seq<int>, mixedPositions: seq<int>)

  /** Targets of a removal of `removed` from an axis of length n. */
  function RemovalTargets(n: nat, removed: seq<int>): (t: Targets)
    ensures t.SliceTargets? && |t.presenceTarget| == n
  {
    SliceTargets(if |removed| > 0 then 1 else 0, removed, Indicator(n, removed, false), SetDiff(n, removed))
  }

  /** Targets of a reordering by `shuffled` of an axis of length n. */
  function ReorderTargets(n: nat, shuffled: seq<int>): (t: Targets)
    ensures t.SliceTargets? && t.isMissing == 0 && |t.presenceTarget| == n
  {
    SliceTargets(0, [], seq(n, _ => 1), Argsort(shuffled))
  }

  /** Targets of a substitution; n is the original extent along the caller's first listed axis. */
  function SubstitutionTargets(positions: seq<int>, axisSource: seq<int>, n: nat): (t: Targets)
    ensures t.MixedTargets? && (t.isMixed == 1 <==> |positions| > 0) && |t.sequenceTarget| == n
  {
    MixedTargets(if |positions| > 0 then 1 else 0, positions, axisSource, Range(n))
  }

  /** `np.where(s != a)[0]`: the ascending positions whose entry differs from `a`. */
  function Mismatches(s: seq<int>, a: int): (r: seq<int>)
    ensures Increasing(r) && InRange(r, |s|)
    ensures forall i :: i in r <==> 0 <= i < |s| && s[i] != a
  {
    if |s| == 0 then []
    else
      var prefix := Mismatches(s[..|s| - 1], a);
      if s[|s| - 1] != a then prefix + [|s| - 1] else prefix
  }

  /**
   * Targets of a chain over an original axis of length n, from the final
   * provenance map, the final source-axis map, the last removal/reordering axis and
   * whether a removal and a substitution were applied.
   */
  function ChainedTargets(n: nat, finalToOriginal: seq<int>, sourceAxis: seq<int>, axis: int,
                          removed: bool, mixed: bool): (t: Targets)
    ensures t.ChainTargets? && |t.presenceTarget| == n
    ensures !mixed ==> t.mixedPositions == []
  {
    ChainTargets(
      finalToOriginal,
      sourceAxis,
      if removed then SetDiff(n, finalToOriginal) else [],
      if removed then Indicator(n, finalToOriginal, true) else seq(n, _ => 1),
      if |finalToOriginal| > 0 then Argsort(finalToOriginal) else Range(n),
      if mixed then Mismatches(sourceAxis, axis) else [])
  }

  // ---------------------------------------------------------------- lemmas

  /**
   * Removal targets: `presence_target` is 0 exactly at the removed positions and
   * sums to n - k; `sequence_target` is the ascending list of survivors; `is_missing`
   * is 1 exactly when something was removed.
   */
  lemma RemovalTargetsMeaning(n: nat, removed: seq<int>)
    requires IsChoice(removed, n, |removed|)
    ensures var t := RemovalTargets(n, removed);
      && (t.isMissing == 1 <==> |removed| > 0)
      && t.missingPositions == removed
      && |t.presenceTarget| == n
      && (forall i :: 0 <= i < n ==> (t.presenceTarget[i] == 0 <==> i in removed))
      && Sum(t.presenceTarget) == n - |removed|
      && Increasing(t.sequenceTarget) && |t.sequenceTarget| == n - |removed|
      && forall x :: x in t.sequenceTarget <==> 0 <= x < n && x !in removed
  {
    IndicatorSum(n, removed, false);
    FilterCount(n, removed);
  }

  /**
   * Reordering targets: `sequence_target` is the inverse permutation of
   * `shuffled_indices`, `presence_target` is all ones and nothing is missing.
   */
  lemma ReorderTargetsMeaning(n: nat, shuffled: seq<int>)
    requires IsPermutation(shuffled, n)
    ensures var t := ReorderTargets(n, shuffled);
      && t.isMissing == 0 && t.missingPositions == []
      && t.presenceTarget == seq(n, _ => 1) && Sum(t.presenceTarget) == n
      && IsPermutation(t.sequenceTarget, n)
      && forall v :: 0 <= v < n ==> shuffled[t.sequenceTarget[v]] == v && t.sequenceTarget[shuffled[v]] == v
  {
    var t := ReorderTargets(n, shuffled);
    ArgsortInverts(shuffled);
    OnesSum(n);
    var a := t.sequenceTarget;
    forall v | 0 <= v < n ensures a[shuffled[v]] == v {
      var w := a[shuffled[v]];
      assert shuffled[w] == shuffled[v] by {
        assert Take(shuffled, a)[shuffled[v]] == shuffled[v];
      }
    }
  }

  lemma {:induction false} OnesSum(n: nat)
    ensures Sum(seq(n, _ => 1)) == n
  {
    if n > 0 {
      OnesSum(n - 1);
      assert seq(n, _ => 1)[..n - 1] == seq(n - 1, _ => 1);
    }
  }

  /**
   * Chain targets, for any provenance map of distinct original positions:
   * `missing_original_indices` is the ascending complement of the map (empty when
   * no removal ran), `presence_target` is the membership indicator summing to the
   * map's length (all ones when no removal ran), `sequence_target` is a permutation
   * sorting the map ascending, and `mixed_positions` lists the positions whose
   * source axis differs from the tracked axis.
   */
  lemma ChainedTargetsMeaning(n: nat, f: seq<int>, sourceAxis: seq<int>, axis: int, removed: bool, mixed: bool)
    requires Distinct(f) && InRange(f, n)
    ensures var t := ChainedTargets(n, f, sourceAxis, axis, removed, mixed);
      && t.finalToOriginal == f && t.sourceAxis == sourceAxis
      && (removed ==>
            && Increasing(t.missingOriginalIndices)
            && (forall x :: x in t.missingOriginalIndices <==> 0 <= x < n && x !in f)
            && |t.missingOriginalIndices| == n - |f|
            && (forall i :: 0 <= i < n ==> (t.presenceTarget[i] == 1 <==> i in f))
            && Sum(t.presenceTarget) == |f|)
      && (!removed ==> t.missingOriginalIndices == [] && t.presenceTarget == seq(n, _ => 1))
      && |t.presenceTarget| == n
      && (|f| > 0 ==> IsPermutation(t.sequenceTarget, |f|) && Increasing(Take(f, t.sequenceTarget)))
      && (|f| == 0 ==> t.sequenceTarget == Range(n))
      && (mixed ==>
            && Increasing(t.mixedPositions)
            && forall i :: i in t.mixedPositions <==> 0 <= i < |sourceAxis| && sourceAxis[i] != axis)
      && (!mixed ==> t.mixedPositions == [])
  {
    FilterCount(n, f);
    IndicatorSum(n, f, true);
    if |f| > 0 {
      ArgsortSorts(f);
    }
  }

  /**
   * When no removal ran the map holds every original position, so the labels the
   * chain writes without a removal agree with those it would compute with one.
   */
  lemma ChainedTargetsWithoutRemoval(n: nat, f: seq<int>, sourceAxis: seq<int>, axis: int, mixed: bool)
    requires IsPermutation(f, n)
    ensures ChainedTargets(n, f, sourceAxis, axis, false, mixed) == ChainedTargets(n, f, sourceAxis, axis, true, mixed)
  {
    FilterCount(n, f);
    FilterSplit(n, f);
    assert SetDiff(n, f) == [];
    forall i | 0 <= i < n ensures i in f {
      assert |Filter(n, f, true)| == n;
      IncreasingFillsRange(Filter(n, f, true), n);
      assert Filter(n, f, true)[i] == i && Filter(n, f, true)[i] in Filter(n, f, true);
    }
    assert Indicator(n, f, true) == seq(n, _ => 1);
  }
}
