# NeuroGlitch-Sim simulator core in Dafny

This project models `NIfTISimulator` (`src/simulator.py`), the engine that damages a 3-D
MRI volume in controlled ways and returns ground-truth labels for the damage:

- **removal** (`simulate_missing_slides`) deletes k distinct slices along an axis;
- **reordering** (`simulate_wrong_sequence`) permutes the slices along an axis, either
  fully or only on a chosen subset;
- **cross-axis substitution** (`simulate_mixed_axis`) overwrites chosen slices along a
  main axis with resampled slices taken across another axis of the original volume;
- **`simulate`** dispatches one simulation (`single`), several on the original volume
  (`independent`) or several in sequence (`chained`), and derives the target
  dictionaries (presence, sequence, missing and mixed positions). In chained mode it
  also threads the provenance maps `final_to_original` and `source_axis`.

A volume is a `seq<seq<seq<V>>>` indexed `[x][y][z]` with an explicit `Shape`. The voxel
type `V` is opaque. Each random draw (`np.random.choice`, `permutation`, `randint`) is an
argument (`Primitives.Draw`) with preconditions saying it is a valid draw. The bilinear
resample `ndi.zoom` is a function argument `zoom`, of which only the shape of its result
is known (`Primitives.Resamples`). Failures are values of `Outcomes.Error`. Every
operation is a function or lemma-backed specification. Where the source mutates arrays
in loops (the subset scatter, the substitution loop, the independent `results.append`
loop and the chained loop), a method with loop invariants is proved equal to that
specification.

Modules: `Outcomes` (errors), `Indices` (index bookkeeping: `np.delete`, `np.take`,
`setdiff1d`, `isin`, `argsort`, fancy-index assignment), `Volumes` (slices of a 3-D
grid), `Params` (count resolution), `Primitives` (the three primitives), `Labels` (target
dictionaries), `Simulator` (`simulate` and `clear_state`), `Properties` (what the labels
mean, chain provenance) and `Findings` (the issue below).

## Model

| member | source | states |
|---|---|---|
| `Params.Resolve` | src/simulator.py:27-32 | Succeeds exactly for an int or a fraction in [0,1]. An int is used as given. A fraction num/den yields the floor of num*n/den, which lies in [0, n]. Anything else fails with an invalid-parameter error. |
| `Params.RemovalCount` | src/simulator.py:27-35 | A removal count is accepted exactly when it resolves to 0 <= k < n. An int count k is accepted exactly when 0 <= k < n and is then used as given. |
| `Params.SubsetCount` | src/simulator.py:51-59 | A reorder or substitution count is accepted exactly when it resolves to 0 <= m <= n, so m == n is allowed. An int count m is accepted exactly when 0 <= m <= n and is then used as given. |
| `Params.FractionBoundaries` | src/simulator.py:85-92 | Fraction 1.0 always fails for removal but is a full count for reordering and substitution. Fraction 0.0 is a zero count for all three (for removal, on a non-empty axis). |
| `Primitives.MissingSlides` | src/simulator.py:25-44 | `simulate_missing_slides`: resolve and check the count, delete the drawn positions along the axis, and report them as `remove_indices`. A success is well-shaped and carries removal info. `MissingSlidesResult` gives its meaning. |
| `Primitives.MissingSlidesResult` | src/simulator.py:25-44 | Removal succeeds iff the count is accepted. The axis shrinks to n-k and the other extents stay. The survivors are exactly the unremoved positions, in ascending order, and output slice t is input slice `keep[t]`. |
| `Primitives.MissingSlidesNoOp` | src/simulator.py:37-38 | Removing zero slices returns the volume unchanged. |
| `Primitives.SubsetShuffle` | src/simulator.py:61-64 | `np.arange(n)` with the chosen positions overwritten by the permuted choice. It has length n. `SubsetShufflePermutes` proves it a permutation that fixes the other positions. |
| `Primitives.SubsetShufflePermutes` | src/simulator.py:61-64 | The subset shuffle is a permutation of 0..n-1. It fixes every position outside the chosen subset and sends `chosen[t]` to `chosen[order[t]]`. |
| `Primitives.ScatterSubset` | src/simulator.py:62-64 | The in-place fancy-index assignment into `np.arange(n)` computes the subset shuffle. |
| `Primitives.WrongSequence` | src/simulator.py:46-72 | `simulate_wrong_sequence`: the drawn permutation, or the subset shuffle for a given count, applied with `np.take`. A success keeps the shape and carries `shuffled_indices`. `WrongSequenceResult` gives its meaning. |
| `Primitives.WrongSequenceResult` | src/simulator.py:46-72 | Reordering fails only on a rejected count. It keeps the shape, and `shuffled_indices` is a permutation of 0..n-1 (the drawn one when no parameter is given). Output slice i is input slice `shuffled_indices[i]`. With a parameter, positions outside the subset are fixed. |
| `Primitives.SimulateWrongSequence` | src/simulator.py:46-72 | The procedure (scatter in place, then `np.take`) returns exactly the reordering specification. |
| `Primitives.ArgsortRestores` | src/simulator.py:181 | Gathering the reordered volume by `argsort(shuffled_indices)` gives back the input volume. |
| `Primitives.WrongSequenceNoOp` | src/simulator.py:48-49 | Reordering by the identity permutation returns the volume unchanged. |
| `Primitives.Dedup` | src/simulator.py:77-79 | `list(set(axis_list))`: ascending, holding exactly the listed axes that lie in 0..2. |
| `Primitives.MainAxis` | src/simulator.py:81 | The first deduplicated axis, which is one of the listed axes. `AxisListSplit` proves it is the smallest. |
| `Primitives.AuxAxes` | src/simulator.py:82 | The rest of the deduplicated list, all within 0..2. `AxisListSplit` proves they are the other listed axes, ascending. |
| `Primitives.AxisListSplit` | src/simulator.py:77-82 | After deduplication the main axis is the smallest listed axis. The auxiliary axes are the other listed axes, ascending, and never include the main axis. |
| `Primitives.Substitute` | src/simulator.py:98-131 | The writes of the substitution loop: each replaced position in turn receives the resampled auxiliary plane. The result keeps the shape. `MixedAxisResult` gives the slice contents. |
| `Primitives.MixedAxis` | src/simulator.py:74-140 | `simulate_mixed_axis`: check the list, deduplicate, resolve the count, substitute, and build `axis_source`. A success has a valid list, keeps the shape and carries substitution info. `MixedAxisResult` gives its meaning. |
| `Primitives.MixedAxisResult` | src/simulator.py:74-140 | Substitution fails exactly on an invalid axis list (checked before deduplication) or a rejected count. On success the shape is kept and `mixed_positions == replace_indices`. `axis_source` has length n and holds the main axis where the slice is untouched. With auxiliary axes, replaced positions hold the resampled auxiliary slice and an axis different from the main one; without them nothing changes. |
| `Primitives.MixedAxisNoOp` | src/simulator.py:94-96 | Replacing zero positions returns the volume unchanged. |
| `Primitives.ReplaceSlices` | src/simulator.py:95-133 | The in-place loop produces the substituted volume and the scattered `axis_source`, or the untouched copy and an all-main `axis_source` when there are no auxiliary axes. |
| `Primitives.SimulateMixedAxis` | src/simulator.py:74-140 | The procedure returns exactly the substitution specification. |
| `Labels.RemovalTargets` | src/simulator.py:167-173 | Removal targets, with a presence target of length n. `RemovalTargetsMeaning` gives their meaning. |
| `Labels.ReorderTargets` | src/simulator.py:177-182 | Reordering targets: nothing is missing, and the presence target has length n. `ReorderTargetsMeaning` gives their meaning. |
| `Labels.SubstitutionTargets` | src/simulator.py:183-192 | Substitution targets: `is_mixed` is 1 iff something was replaced, and `sequence_target` spans the given extent. `Properties.SubstitutionLabels` gives their meaning. |
| `Labels.Mismatches` | src/simulator.py:255 | `np.where(s != a)[0]` yields the ascending positions whose entry differs from a, and exactly those. |
| `Labels.RemovalTargetsMeaning` | src/simulator.py:167-173 | `is_missing` is 1 iff something was removed. `presence_target` is 0 exactly at the removed positions and sums to n-k. `sequence_target` is the ascending list of survivors. |
| `Labels.ReorderTargetsMeaning` | src/simulator.py:177-182 | `sequence_target` is the inverse permutation of `shuffled_indices`, `presence_target` is all ones and nothing is missing. |
| `Labels.ChainedTargets` | src/simulator.py:243-255 | Chain targets: the presence target has length N, and there are no mixed positions unless a substitution ran. `ChainedTargetsMeaning` and `Properties.ProvenanceLabels` give their meaning. |
| `Labels.ChainedTargetsMeaning` | src/simulator.py:243-255 | `missing_original_indices` is the ascending complement of the map, and `presence_target` its membership indicator summing to the map's length. `sequence_target` is a permutation sorting the map (the identity when the map is empty). `mixed_positions` lists exactly the positions whose source axis differs from the tracked axis. |
| `Labels.ChainedTargetsWithoutRemoval` | src/simulator.py:248-253 | When no removal ran, the hard-coded "nothing missing, all present" labels agree with those the removal branch would compute. |
| `Simulator.ClearState` | src/simulator.py:21-23 | `clear_state` changes nothing. |
| `Simulator.SpecList` | src/simulator.py:143-146 | A dictionary becomes a one-element list, a list is kept, and anything else fails. |
| `Simulator.UpdateSourceAxis` | src/simulator.py:239 | The result has the step's length. Under the as-written rule the step's `axis_source` replaces `source_axis` wholesale. The merging rule does the same when the two lengths differ, because the positions do not line up. |
| `Simulator.Step` | src/simulator.py:220-241 | A simulation of unknown type fails with the unknown-type error. On success the step keeps the volume well-shaped, and the two flags record whether a removal and whether a substitution has run. |
| `Simulator.Run` | src/simulator.py:220-241 | The chain loop: steps in order, the first failure aborting. A success is well-shaped. `Properties.RunKeepsProvenance`, `Properties.RunRulesAgree` and `Properties.RunStopsAtUnknown` give its meaning. |
| `Simulator.ChainedRun` | src/simulator.py:200-213 | A chain whose first simulation is not a removal or reordering fails, as the shape lookup at line 211 does. |
| `Simulator.Simulation` | src/simulator.py:142-309 | `simulate`, given the rule for line 239 (`Replace` is the program as written, `Merge` the corrected update). Only a dictionary or list can succeed. A list of results comes back exactly in independent mode (or an unknown mode name, which takes the independent branch). |
| `Simulator.OneSimulation` | src/simulator.py:153-198 | One simulation on the original volume, dispatched on its type, with its targets. A success is well-shaped. `Properties.RemovalLabels`, `Properties.ReorderLabels`, `Properties.SubstitutionLabels` and `Properties.UnknownTypeFails` give its meaning. |
| `Simulator.IndependentRuns` | src/simulator.py:261-309 | The independent loop, the first failure aborting. A success has one result per simulation. `Properties.IndependentRunsEach` gives each result. |
| `Simulator.SimulateOne` | src/simulator.py:153-198 | One simulation on the original volume with its targets equals its specification. |
| `Simulator.SimulateIndependent` | src/simulator.py:261-309 | The append loop equals the specification of independent mode. |
| `Simulator.ChainStep` | src/simulator.py:220-241 | One loop iteration equals one chain step under the given rule for line 239. |
| `Simulator.SimulateChained` | src/simulator.py:200-259 | The chained loop over one state variable equals the chain specification under the given rule. |
| `Simulator.Simulate` | src/simulator.py:142-309 | The dispatcher equals its specification under the given rule. |
| `Properties.ModeValidation` | src/simulator.py:148-151 | A non-list fails first, then a count the mode does not accept (single needs 1, independent and chained need at least 2). A result needs an accepted count, and single mode on a dictionary is exactly that one simulation. |
| `Properties.RemovalLabels` | src/simulator.py:164-173 | A single removal succeeds iff the count is accepted. Its `presence_target` is 0 exactly at the removed positions and sums to the output extent. Output slice j is original slice `sequence_target[j]`. |
| `Properties.ReorderLabels` | src/simulator.py:174-182 | A single reordering reports nothing missing. `sequence_target` is a permutation, and gathering the output by it restores the original volume. |
| `Properties.SubstitutionLabels` | src/simulator.py:183-192 | A single substitution reports the replaced positions. Every position whose `axis_source` is the main axis holds its original slice. With auxiliary axes, `axis_source` differs from the main axis exactly at the replaced positions. `sequence_target` is the identity over the first listed axis. |
| `Properties.IndependentRunsEach` | src/simulator.py:262-308 | The independent loop succeeds iff every simulation succeeds, and result i is what simulation i produces alone. |
| `Properties.IndependentIsSingleEach` | src/simulator.py:261-309 | Independent mode returns, in input order, one result per simulation, each equal to that simulation in single mode. |
| `Properties.MergeKeepsMarks` | src/simulator.py:239 | Under the corrected update, when the step's `axis_source` and the map have the same length, an entry this step substituted takes its auxiliary axis and every other entry keeps its earlier value. |
| `Properties.RemovalKeepsProvenance` | src/simulator.py:223-228 | A removal along the tracked axis succeeds exactly when its count is accepted. It never fails on an index, and both maps become the map with the removed positions deleted. The axis and the provenance invariant are kept. |
| `Properties.ReorderKeepsProvenance` | src/simulator.py:229-234 | A reordering along the tracked axis succeeds exactly when the primitive does, and never fails on an index. `shuffled_indices` is a permutation of the map's positions (the drawn one with no parameter), and both maps become the old maps gathered by it. The axis and the provenance invariant are kept. |
| `Properties.SubstitutionKeepsProvenance` | src/simulator.py:235-239 | A substitution with the tracked axis as main axis never fails on an index. It leaves `final_to_original`, the shape and the axis unchanged, and changes `source_axis` only at the replaced positions. The provenance invariant is kept. |
| `Properties.StepKeepsProvenance` | src/simulator.py:220-241 | Any step along the tracked axis keeps the provenance invariant and never indexes out of range. |
| `Properties.RunKeepsProvenance` | src/simulator.py:220-241 | The provenance invariant holds after every step of a chain along one axis: `final_to_original` is injective into [0,N), its length is the current extent, and every slice not marked as substituted is the original slice it names. |
| `Properties.ProvenanceLabels` | src/simulator.py:243-255 | For a chain state with provenance, the presence, missing and sequence targets describe the map. Every slice outside `mixed_positions` is its original slice. With nothing missing or mixed, gathering by `sequence_target` restores the original volume. |
| `Properties.ChainedLabels` | src/simulator.py:200-259 | Under the merging rule, a chain whose steps all work along the first simulation's axis never fails on an index, and its returned targets have the meaning `ProvenanceLabels` states. |
| `Properties.RemoveThenReorder` | src/simulator.py:204-255 | Under either rule, the chain [remove 2, full reorder] on a ten-slice axis succeeds with 8 slices left, 2 missing and a presence sum of 8. |
| `Properties.RemoveThenReorderMerged` | src/simulator.py:204-255 | The same chain run directly under the merging rule gives the same counts. |
| `Properties.StepRulesAgree` | src/simulator.py:235-239 | Before any substitution, a step along the tracked axis gives the same result under line 239 as written and under the merging rule. |
| `Properties.RunRulesAgree` | src/simulator.py:220-241 | A chain along one axis with at most one substitution in total fits and runs the same under both rules. |
| `Properties.ChainedRunRulesAgree` | src/simulator.py:200-259 | A chain along its first simulation's axis with at most one substitution returns the same result under both rules. So `ChainedLabels` also covers the program as written for such chains. |
| `Properties.RunStopsAtUnknown` | src/simulator.py:240-241 | A chain that reaches a simulation of unknown type fails. |
| `Properties.UnknownTypeFails` | src/simulator.py:193-194 | A simulation of unknown type makes `simulate` fail in every mode and under either rule: on its own, among independent runs, or in a chain. |
| `Findings.ReplaceForgetsSubstitution` | src/simulator.py:239 | As written, a chain with two substitutions relabels a substituted slice as original: its `source_axis` entry reads as the tracked axis and it is absent from `mixed_positions`, yet it holds the plane resampled from axis 1. |
| `Findings.MergeReportsSubstitution` | src/simulator.py:239 | With the merging update the same chain reports both substituted positions. |

## Left out

- Loading the NIfTI file in `__init__` (src/simulator.py:15-19) is left out. The session is a given volume and shape with every extent at least 1. Volumes with a zero extent are not modelled.
- `save_data` (src/simulator.py:311-365) and the `save_type`/`output_path` branches of `simulate` are left out: they write JPEG, GIF and NIfTI files.
- The debug `print` at src/simulator.py:161 is left out.
- Voxel values and the bilinear `ndi.zoom` are floating-point numerics. The resample is a function argument, known only to return a plane of the requested shape. Where float zoom factors would make it miss that shape by rounding, the source's assignment would fail; the model does not capture this.
- Random draws are arguments, not an RNG. Their distribution is not modelled, only that each is a valid draw (distinct in-range indices, permutations, in-range auxiliary picks).
- A float parameter is an exact rational num/den, so `int(f * n)` is an exact floor. Binary floating-point rounding of `f * n` is not modelled.
- Python `bool` counts (a subclass of `int`) and non-integer axis values are not modelled.
- Negative axes of removal and reordering are not modelled; `Axis` is 0..2. NumPy accepts -1..-3 and counts them from the last axis. In a chain, a negative first axis itself fills `source_axis` (src/simulator.py:208) and is compared at src/simulator.py:255.
- The exception classes are collapsed into one error value each. The `ValueError`s, the `TypeError` at src/simulator.py:211, the `KeyError` of an unknown type's missing keys, the `IndexError` or `TypeError` of `sim['axis_list'][0]` on an empty or non-list axis list at src/simulator.py:160 and src/simulator.py:268 (the model reports the invalid-axis-list error), and the `IndexError`s of out-of-range `np.delete`/fancy indexing in chains across different axes all become `Outcomes.Error` values. For an unknown type, the source may fail on a missing key before reaching its unknown-type error; the model returns the unknown-type error.
- The unused `chain` argument of `simulate` is left out.
- `sim_types_applied` is kept only as the two flags the targets read: a removal ran, and a substitution ran.
- `Simulator.Simulation`, `Simulator.Simulate` and `Simulator.SimulateChained` take the rule for line 239 as an argument. `Replace` is the program as written and `Merge` the corrected update (see Findings). The provenance lemmas are proved under `Merge`. `Properties.ChainedRunRulesAgree` carries them to `Replace` for chains with at most one substitution. With two or more substitutions the as-written rule can lose marks, so no provenance is claimed for it there.
- `Properties.RunKeepsProvenance`, `Properties.ChainedLabels` and the other provenance lemmas are stated only for chains whose steps all work along the first simulation's axis: the source never checks that chained steps share an axis. Chains across different axes are modelled under both rules, and no provenance is claimed for them. They include the `IndexError` of a removal or reordering whose indices exceed the maps. Under `Merge`, a substitution whose main-axis extent differs from the map's length takes its `axis_source` as line 239 does.
- `Simulator.ChainedRun`: for a first simulation of unknown type the source fails with a missing key at src/simulator.py:210; the model reports the same error as for a first substitution.
- src/NeuroGlitch.py, src/single_file.py, src/param.py and src/gif_visualizer.py are not part of this model: they are command-line wrappers, a random configuration generator and image writing.

## Findings

| source | as written | input that shows it | evidently intended | confidence | as-written member | corrected member |
|---|---|---|---|---|---|---|
| src/simulator.py:239 | A substitution step in a chain sets `source_axis = sim_info['axis_source']`. That array marks only the positions this step replaced, so marks from an earlier substitution are lost. | A 2x1x1 volume, chain [full reorder on axis 0 with identity, mixed_axis [0,1] weight 1 replacing slice 0, mixed_axis [0,1] weight 1 replacing slice 1]. Slice 0 holds a resampled axis-1 plane, yet `source_axis` is [0,1] and `mixed_positions` omits 0. | Keep the earlier entries and overwrite only the positions the step replaced, so `mixed_positions` lists every substituted slice. | not executed | `Findings.ReplaceForgetsSubstitution` | `Findings.MergeReportsSubstitution` |
