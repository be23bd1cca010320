/**
 * `NIfTISimulator.simulate`: the dispatcher that runs one simulation ("single"),
 * several on the original volume ("independent") or several in sequence
 * ("chained"), and derives the ground-truth targets of each.
 */
module Simulator {
  import opened Outcomes
  import opened Indices
  import opened Volumes
  import opened Params
  import opened Primitives
  import opened Labels

  /** One simulation dictionary, by its `type` key. */
  datatype Spec =
    | Missing(removeParam: Param, axis: Axis)      // 'missing_slides'
    | WrongSeq(shuffleParam: Param, axis: Axis)    // 'wrong_sequence'
    | Mixed(axisList: AxisArg, weightParam: Param) // 'mixed_axis'
    | Unknown(tag: string)                         // any other type

  /** The `simulations` argument: one dictionary, a list of them, or any other value. */
  datatype Simulations = DictArg(spec: Spec) | ListArg(specs: seq<Spec>) | OtherArg

  /** The `mode` argument; any other string runs the independent branch. */
  datatype Mode = Single | Independent | Chained | OtherMode

  /** The simulator object: the loaded volume and its shape, which no method changes. */
  datatype Session<V> = Session(original: Grid<V>, shape: Shape)

  predicate Loaded<V>(sess: Session<V>) {
    Fits(sess.original, sess.shape) && Positive(sess.shape)
  }

  /** `clear_state`: there is no state besides the loaded volume, so nothing changes. */
  function ClearState<V>(sess: Session<V>): (r: Session<V>)
    ensures r == sess
  {
    sess
  }

  /** A simulated volume with its shape and target dictionary. */
  datatype Labeled<V> = Labeled(data: Grid<V>, shape: Shape, targets: Targets)

  /** What `simulate` returns: one pair, or a list of pairs in independent mode. */
  datatype Output<V> = One(result: Labeled<V>) | Many(results: seq<Labeled<V>>)

  /** Lines 143-146: a dictionary becomes a one-element list; anything but a list fails. */
  function SpecList(sims: Simulations): (r: Result<seq<Spec>>)
    ensures r.Err? <==> sims.OtherArg?
    ensures r.Err? ==> r.error == InvalidSimulations
    ensures sims.DictArg? ==> r == Ok([sims.spec])
    ensures sims.ListArg? ==> r == Ok(sims.specs)
  {
    match sims
    case DictArg(s) => Ok([s])
    case ListArg(ss) => Ok(ss)
    case OtherArg => Err(InvalidSimulations)
  }

  /** The draws of one simulation fit it when run on a volume of shape `s`. */
  predicate SpecFits(os: Shape, s: Shape, spec: Spec, d: Draw) {
    match spec
    case Missing(p, a) => RemovalFits(s, p, a, d)
    case WrongSeq(p, a) => ReorderFits(s, p, a, d)
    case Mixed(axes, p) => MixedFits(os, s, axes, p, d)
    case Unknown(_) => true
  }

  // ================================================================ one simulation

  /**
   * One simulation on the original volume with its targets (lines 153-198 and
   * 263-301). The substitution's `sequence_target` spans the original extent along
   * the first axis the caller listed.
   */
  function OneSimulation<V(!new)>(sess: Session<V>, spec: Spec, d: Draw,
                                  zoom: (Plane<V>, nat, nat) -> Plane<V>): (r: Result<Labeled<V>>)
    requires Loaded(sess) && Resamples(zoom) && SpecFits(sess.shape, sess.shape, spec, d)
    ensures r.Ok? ==> Fits(r.value.data, r.value.shape)
  {
    var orig, os := sess.original, sess.shape;
    match spec
    case Missing(p, a) =>
      (match MissingSlides(orig, os, p, a, d)
       case Err(e) => Err(e)
       case Ok(ap) => Ok(Labeled(ap.data, ap.shape, RemovalTargets(Dim(os, a), ap.info.removeIndices))))
    case WrongSeq(p, a) =>
      (match WrongSequence(orig, os, p, a, d)
       case Err(e) => Err(e)
       case Ok(ap) => Ok(Labeled(ap.data, ap.shape, ReorderTargets(Dim(os, a), ap.info.shuffledIndices))))
    case Mixed(axes, p) =>
      (match MixedAxis(orig, os, orig, os, axes, p, d, zoom)
       case Err(e) => Err(e)
       case Ok(ap) =>
         var first: Axis := axes.items[0];
         Ok(Labeled(ap.data, ap.shape, SubstitutionTargets(ap.info.mixedPositions, ap.info.axisSource, Dim(os, first)))))
    case Unknown(_) => Err(UnknownType)
  }

  /** `r` with `xs` put in front of its list, or its error. */
  function Prepend<V>(xs: seq<Labeled<V>>, r: Result<seq<Labeled<V>>>): Result<seq<Labeled<V>>> {
    match r
    case Err(e) => Err(e)
    case Ok(ys) => Ok(xs + ys)
  }

  /** Independent mode (lines 261-309): every simulation on the original volume, the first failure aborting. */
  function IndependentRuns<V(!new)>(sess: Session<V>, specs: seq<Spec>, draws: seq<Draw>,
                                    zoom: (Plane<V>, nat, nat) -> Plane<V>): (r: Result<seq<Labeled<V>>>)
    requires Loaded(sess) && Resamples(zoom) && |draws| == |specs|
    requires forall i :: 0 <= i < |specs| ==> SpecFits(sess.shape, sess.shape, specs[i], draws[i])
    ensures r.Ok? ==> |r.value| == |specs|
    decreases |specs|
  {
    if |specs| == 0 then Ok([])
    else
      match OneSimulation(sess, specs[0], draws[0], zoom)
      case Err(e) => Err(e)
      case Ok(x) => Prepend([x], IndependentRuns(sess, specs[1..], draws[1..], zoom))
  }

  lemma PrependNothing<V>(r: Result<seq<Labeled<V>>>)
    ensures Prepend([], r) == r
  {
    if r.Ok? {
      assert [] + r.value == r.value;
    }
  }

  lemma PrependTwice<V>(xs: seq<Labeled<V>>, ys: seq<Labeled<V>>, r: Result<seq<Labeled<V>>>)
    ensures Prepend(xs, Prepend(ys, r)) == Prepend(xs + ys, r)
  {
    if r.Ok? {
      assert xs + (ys + r.value) == (xs + ys) + r.value;
    }
  }

  /** The independent runs from position i on: simulation i, then the rest. */
  lemma IndependentUnfold<V(!new)>(sess: Session<V>, specs: seq<Spec>, draws: seq<Draw>,
                                   zoom: (Plane<V>, nat, nat) -> Plane<V>, i: nat)
    requires Loaded(sess) && Resamples(zoom) && |draws| == |specs| && i < |specs|
    requires forall i :: 0 <= i < |specs| ==> SpecFits(sess.shape, sess.shape, specs[i], draws[i])
    ensures IndependentRuns(sess, specs[i..], draws[i..], zoom)
      == match OneSimulation(sess, specs[i], draws[i], zoom)
         case Err(e) => Err(e)
         case Ok(x) => Prepend([x], IndependentRuns(sess, specs[i + 1..], draws[i + 1..], zoom))
  {
    assert specs[i..][1..] == specs[i + 1..] && draws[i..][1..] == draws[i + 1..];
  }

  // ================================================================ chained

  /** The chain's state between steps: the volume and the provenance arrays of lines 204-217. */
  datatype Chain<V> = Chain(
    data: Grid<V>, shape: Shape,
    finalToOriginal: seq<int>,  // original position of each current slice
    sourceAxis: seq<int>,       // axis each current slice came from
    axis: Axis,                 // the axis of the last removal or reordering
    removed: bool,              // 'missing_slides' in sim_types_applied
    mixed: bool)                // 'mixed_axis' in sim_types_applied

  /** How a substitution step updates `source_axis`. */
  datatype SourceRule =
    | Replace  // line 239 as written: take the step's `axis_source` wholesale
    | Merge    // keep the earlier entries, overwriting only the positions this step substituted

  /**
   * The `source_axis` after a substitution step whose main axis is `main`. Merging
   * lines up the step's entries with the earlier ones; where the two arrays differ
   * in length (a substitution along another axis) it takes the step's array as line 239 does.
   */
  function UpdateSourceAxis(rule: SourceRule, prev: seq<int>, axisSource: seq<int>, main: int): (r: seq<int>)
    ensures |r| == |axisSource|
    ensures rule.Replace? || |axisSource| != |prev| ==> r == axisSource
  {
    match rule
    case Replace => axisSource
    case Merge =>
      if |axisSource| != |prev| then axisSource
      else
        var marks := Mismatches(axisSource, main);
        Scatter(prev, marks, Take(axisSource, marks))
  }

  /** One iteration of the loop at lines 220-241. */
  function Step<V(!new)>(sess: Session<V>, st: Chain<V>, spec: Spec, d: Draw, rule: SourceRule,
                         zoom: (Plane<V>, nat, nat) -> Plane<V>): (r: Result<Chain<V>>)
    requires Loaded(sess) && Resamples(zoom) && Fits(st.data, st.shape)
    requires SpecFits(sess.shape, st.shape, spec, d)
    ensures r.Ok? ==> Fits(r.value.data, r.value.shape)
    ensures r.Ok? ==> r.value.removed == (st.removed || spec.Missing?) && r.value.mixed == (st.mixed || spec.Mixed?)
    ensures spec.Unknown? ==> r == Err(UnknownType)
  {
    var f, sa := st.finalToOriginal, st.sourceAxis;
    match spec
    case Missing(p, a) =>
      (match MissingSlides(st.data, st.shape, p, a, d)
       case Err(e) => Err(e)
       case Ok(ap) =>
         var idx := ap.info.removeIndices;
         if !InRange(idx, |f|) || !InRange(idx, |sa|) then Err(IndexOutOfBounds)
         else Ok(Chain(ap.data, ap.shape, Delete(f, idx), Delete(sa, idx), a, true, st.mixed)))
    case WrongSeq(p, a) =>
      (match WrongSequence(st.data, st.shape, p, a, d)
       case Err(e) => Err(e)
       case Ok(ap) =>
         var sh := ap.info.shuffledIndices;
         if !InRange(sh, |f|) || !InRange(sh, |sa|) then Err(IndexOutOfBounds)
         else Ok(Chain(ap.data, ap.shape, Take(f, sh), Take(sa, sh), a, st.removed, st.mixed)))
    case Mixed(axes, p) =>
      (match MixedAxis(sess.original, sess.shape, st.data, st.shape, axes, p, d, zoom)
       case Err(e) => Err(e)
       case Ok(ap) =>
         Ok(st.(data := ap.data, sourceAxis := UpdateSourceAxis(rule, sa, ap.info.axisSource, MainAxis(axes)),
                mixed := true)))
    case Unknown(_) => Err(UnknownType)
  }

  /** The draws fit every step the chain reaches. */
  predicate ChainFits<V(!new)>(sess: Session<V>, specs: seq<Spec>, draws: seq<Draw>, st: Chain<V>, rule: SourceRule,
                               zoom: (Plane<V>, nat, nat) -> Plane<V>)
    requires Loaded(sess) && Resamples(zoom) && Fits(st.data, st.shape) && |draws| == |specs|
    decreases |specs|
  {
    |specs| == 0 ||
    (SpecFits(sess.shape, st.shape, specs[0], draws[0]) &&
     match Step(sess, st, specs[0], draws[0], rule, zoom)
     case Err(_) => true
     case Ok(next) => ChainFits(sess, specs[1..], draws[1..], next, rule, zoom))
  }

  /** The loop at lines 220-241: the steps in order, the first failure aborting. */
  function Run<V(!new)>(sess: Session<V>, specs: seq<Spec>, draws: seq<Draw>, st: Chain<V>, rule: SourceRule,
                        zoom: (Plane<V>, nat, nat) -> Plane<V>): (r: Result<Chain<V>>)
    requires Loaded(sess) && Resamples(zoom) && Fits(st.data, st.shape) && |draws| == |specs|
    requires ChainFits(sess, specs, draws, st, rule, zoom)
    ensures r.Ok? ==> Fits(r.value.data, r.value.shape)
    decreases |specs|
  {
    if |specs| == 0 then Ok(st)
    else
      match Step(sess, st, specs[0], draws[0], rule, zoom)
      case Err(e) => Err(e)
      case Ok(next) => Run(sess, specs[1..], draws[1..], next, rule, zoom)
  }

  /** The first simulation fixes the tracked axis (lines 204-213); only removal and reordering name one. */
  predicate Tracked(spec: Spec) {
    spec.Missing? || spec.WrongSeq?
  }

  /** Lines 207-209: the original volume, the identity map and every slice from the tracked axis. */
  function Start<V>(sess: Session<V>, axis: Axis): Chain<V> {
    var n := Dim(sess.shape, axis);
    Chain(sess.original, sess.shape, Range(n), seq(n, _ => axis), axis, false, false)
  }

  /** The draws fit a chain, whenever it gets past line 211. */
  predicate ChainReady<V(!new)>(sess: Session<V>, specs: seq<Spec>, draws: seq<Draw>, rule: SourceRule,
                                zoom: (Plane<V>, nat, nat) -> Plane<V>)
    requires Loaded(sess) && Resamples(zoom)
  {
    |draws| == |specs| &&
    (|specs| > 0 && Tracked(specs[0]) ==> ChainFits(sess, specs, draws, Start(sess, specs[0].axis), rule, zoom))
  }

  /** Chained mode (lines 200-259): run the steps from the original volume, then derive the chain targets. */
  function ChainedRun<V(!new)>(sess: Session<V>, specs: seq<Spec>, draws: seq<Draw>, rule: SourceRule,
                               zoom: (Plane<V>, nat, nat) -> Plane<V>): (r: Result<Labeled<V>>)
    requires Loaded(sess) && Resamples(zoom) && |specs| > 0 && ChainReady(sess, specs, draws, rule, zoom)
    ensures !Tracked(specs[0]) ==> r == Err(MixedAxisFirstInChain)
    ensures r.Ok? ==> Fits(r.value.data, r.value.shape)
  {
    if !Tracked(specs[0]) then Err(MixedAxisFirstInChain)
    else
      var n := Dim(sess.shape, specs[0].axis);
      match Run(sess, specs, draws, Start(sess, specs[0].axis), rule, zoom)
      case Err(e) => Err(e)
      case Ok(st) =>
        Ok(Labeled(st.data, st.shape,
                   ChainedTargets(n, st.finalToOriginal, st.sourceAxis, st.axis, st.removed, st.mixed)))
  }

  // ================================================================ simulate

  /** The draws fit whatever `simulate` runs with them. */
  predicate DrawsFit<V(!new)>(sess: Session<V>, sims: Simulations, mode: Mode, draws: seq<Draw>, rule: SourceRule,
                              zoom: (Plane<V>, nat, nat) -> Plane<V>)
    requires Loaded(sess) && Resamples(zoom)
  {
    match SpecList(sims)
    case Err(_) => true
    case Ok(specs) =>
      |draws| == |specs| &&
      if mode == Chained then ChainReady(sess, specs, draws, rule, zoom)
      else forall i :: 0 <= i < |specs| ==> SpecFits(sess.shape, sess.shape, specs[i], draws[i])
  }

  /** The count check of lines 148-151. */
  predicate CountAccepted(mode: Mode, count: nat) {
    && ((mode == Independent || mode == Chained) ==> count >= 2)
    && (mode == Single ==> count == 1)
  }

  /** `simulate` (lines 142-309); `rule` says how a chain updates `source_axis`, `Replace` being line 239 as written. */
  function Simulation<V(!new)>(sess: Session<V>, sims: Simulations, mode: Mode, draws: seq<Draw>, rule: SourceRule,
                               zoom: (Plane<V>, nat, nat) -> Plane<V>): (r: Result<Output<V>>)
    requires Loaded(sess) && Resamples(zoom) && DrawsFit(sess, sims, mode, draws, rule, zoom)
    ensures r.Ok? ==> sims.ListArg? || sims.DictArg?
    ensures r.Ok? ==> (r.value.Many? <==> mode == Independent || mode == OtherMode)
  {
    match SpecList(sims)
    case Err(e) => Err(e)
    case Ok(specs) =>
      if !CountAccepted(mode, |specs|) then Err(InvalidSpecCount)
      else if mode == Single then
        (match OneSimulation(sess, specs[0], draws[0], zoom)
         case Err(e) => Err(e)
         case Ok(x) => Ok(One(x)))
      else if mode == Chained then
        (match ChainedRun(sess, specs, draws, rule, zoom)
         case Err(e) => Err(e)
         case Ok(x) => Ok(One(x)))
      else
        match IndependentRuns(sess, specs, draws, zoom)
        case Err(e) => Err(e)
        case Ok(xs) => Ok(Many(xs))
  }

  // ================================================================ the procedure

  /** One simulation as the dispatcher runs it. */
  method SimulateOne<V(!new)>(sess: Session<V>, spec: Spec, d: Draw, zoom: (Plane<V>, nat, nat) -> Plane<V>)
    returns (r: Result<Labeled<V>>)
    requires Loaded(sess) && Resamples(zoom) && SpecFits(sess.shape, sess.shape, spec, d)
    ensures r == OneSimulation(sess, spec, d, zoom)
  {
    var orig, os := sess.original, sess.shape;
    match spec {
      case Missing(p, a) =>
        var out := MissingSlides(orig, os, p, a, d);
        if out.Err? {
          return Err(out.error);
        }
        r := Ok(Labeled(out.value.data, out.value.shape, RemovalTargets(Dim(os, a), out.value.info.removeIndices)));
      case WrongSeq(p, a) =>
        var out := SimulateWrongSequence(orig, os, p, a, d);
        if out.Err? {
          return Err(out.error);
        }
        r := Ok(Labeled(out.value.data, out.value.shape, ReorderTargets(Dim(os, a), out.value.info.shuffledIndices)));
      case Mixed(axes, p) =>
        var out := SimulateMixedAxis(orig, os, orig, os, axes, p, d, zoom);
        if out.Err? {
          return Err(out.error);
        }
        var first: Axis := axes.items[0];
        var info := out.value.info;
        r := Ok(Labeled(out.value.data, out.value.shape, SubstitutionTargets(info.mixedPositions, info.axisSource, Dim(os, first))));
      case Unknown(_) =>
        r := Err(UnknownType);
    }
  }

  /** The loop at lines 262-309: append each result in turn. */
  method SimulateIndependent<V(!new)>(sess: Session<V>, specs: seq<Spec>, draws: seq<Draw>,
                                      zoom: (Plane<V>, nat, nat) -> Plane<V>)
    returns (r: Result<seq<Labeled<V>>>)
    requires Loaded(sess) && Resamples(zoom) && |draws| == |specs|
    requires forall i :: 0 <= i < |specs| ==> SpecFits(sess.shape, sess.shape, specs[i], draws[i])
    ensures r == IndependentRuns(sess, specs, draws, zoom)
  {
    var results: seq<Labeled<V>> := [];
    assert specs[0..] == specs && draws[0..] == draws;
    PrependNothing(IndependentRuns(sess, specs, draws, zoom));
    for i := 0 to |specs|
      invariant IndependentRuns(sess, specs, draws, zoom)
                == Prepend(results, IndependentRuns(sess, specs[i..], draws[i..], zoom))
    {
      IndependentUnfold(sess, specs, draws, zoom, i);
      var x := SimulateOne(sess, specs[i], draws[i], zoom);
      if x.Err? {
        return Err(x.error);
      }
      PrependTwice(results, [x.value], IndependentRuns(sess, specs[i + 1..], draws[i + 1..], zoom));
      results := results + [x.value];
    }
    assert specs[|specs|..] == [] && draws[|specs|..] == [];
    assert results + [] == results;
    r := Ok(results);
  }

  /** The body of the loop at lines 220-241 for one simulation, updating `source_axis` by `rule`. */
  method ChainStep<V(!new)>(sess: Session<V>, st: Chain<V>, spec: Spec, d: Draw, rule: SourceRule,
                            zoom: (Plane<V>, nat, nat) -> Plane<V>)
    returns (r: Result<Chain<V>>)
    requires Loaded(sess) && Resamples(zoom) && Fits(st.data, st.shape)
    requires SpecFits(sess.shape, st.shape, spec, d)
    ensures r == Step(sess, st, spec, d, rule, zoom)
  {
    var f, sa := st.finalToOriginal, st.sourceAxis;
    match spec {
      case Missing(p, a) =>
        var out := MissingSlides(st.data, st.shape, p, a, d);
        if out.Err? {
          return Err(out.error);
        }
        var idx := out.value.info.removeIndices;
        if !InRange(idx, |f|) || !InRange(idx, |sa|) {
          return Err(IndexOutOfBounds);
        }
        r := Ok(Chain(out.value.data, out.value.shape, Delete(f, idx), Delete(sa, idx), a, true, st.mixed));
      case WrongSeq(p, a) =>
        var out := SimulateWrongSequence(st.data, st.shape, p, a, d);
        if out.Err? {
          return Err(out.error);
        }
        var sh := out.value.info.shuffledIndices;
        if !InRange(sh, |f|) || !InRange(sh, |sa|) {
          return Err(IndexOutOfBounds);
        }
        r := Ok(Chain(out.value.data, out.value.shape, Take(f, sh), Take(sa, sh), a, st.removed, st.mixed));
      case Mixed(axes, p) =>
        var out := SimulateMixedAxis(sess.original, sess.shape, st.data, st.shape, axes, p, d, zoom);
        if out.Err? {
          return Err(out.error);
        }
        var updated := UpdateSourceAxis(rule, sa, out.value.info.axisSource, MainAxis(axes));
        r := Ok(st.(data := out.value.data, sourceAxis := updated, mixed := true));
      case Unknown(_) =>
        r := Err(UnknownType);
    }
  }

  /** The chained branch at lines 200-259: set up the provenance arrays, run the steps, derive the targets. */
  method SimulateChained<V(!new)>(sess: Session<V>, specs: seq<Spec>, draws: seq<Draw>, rule: SourceRule,
                                  zoom: (Plane<V>, nat, nat) -> Plane<V>)
    returns (r: Result<Labeled<V>>)
    requires Loaded(sess) && Resamples(zoom) && |specs| > 0 && ChainReady(sess, specs, draws, rule, zoom)
    ensures r == ChainedRun(sess, specs, draws, rule, zoom)
  {
    if !Tracked(specs[0]) {
      return Err(MixedAxisFirstInChain);
    }
    var n := Dim(sess.shape, specs[0].axis);
    var state := Start(sess, specs[0].axis);
    for i := 0 to |specs|
      invariant Fits(state.data, state.shape)
      invariant ChainFits(sess, specs[i..], draws[i..], state, rule, zoom)
      invariant Run(sess, specs, draws, Start(sess, specs[0].axis), rule, zoom)
                == Run(sess, specs[i..], draws[i..], state, rule, zoom)
    {
      assert specs[i..][1..] == specs[i + 1..] && draws[i..][1..] == draws[i + 1..];
      var next := ChainStep(sess, state, specs[i], draws[i], rule, zoom);
      if next.Err? {
        return Err(next.error);
      }
      state := next.value;
    }
    assert specs[|specs|..] == [] && draws[|specs|..] == [];
    r := Ok(Labeled(state.data, state.shape,
                    ChainedTargets(n, state.finalToOriginal, state.sourceAxis, state.axis, state.removed, state.mixed)));
  }

  /** `simulate`: normalise the argument, check the count, then dispatch on the mode. */
  method Simulate<V(!new)>(sess: Session<V>, sims: Simulations, mode: Mode, draws: seq<Draw>, rule: SourceRule,
                           zoom: (Plane<V>, nat, nat) -> Plane<V>)
    returns (r: Result<Output<V>>)
    requires Loaded(sess) && Resamples(zoom) && DrawsFit(sess, sims, mode, draws, rule, zoom)
    ensures r == Simulation(sess, sims, mode, draws, rule, zoom)
  {
    var specs: seq<Spec>;
    match sims {
      case DictArg(s) => specs := [s];
      case ListArg(ss) => specs := ss;
      case OtherArg => return Err(InvalidSimulations);
    }
    if (mode == Independent || mode == Chained) && |specs| < 2 {
      return Err(InvalidSpecCount);
    }
    if mode == Single && |specs| != 1 {
      return Err(InvalidSpecCount);
    }
    if mode == Single {
      var x := SimulateOne(sess, specs[0], draws[0], zoom);
      r := if x.Err? then Err(x.error) else Ok(One(x.value));
    } else if mode == Chained {
      var x := SimulateChained(sess, specs, draws, rule, zoom);
      r := if x.Err? then Err(x.error) else Ok(One(x.value));
    } else {
      var xs := SimulateIndependent(sess, specs, draws, zoom);
      r := if xs.Err? then Err(xs.error) else Ok(Many(xs.value));
    }
  }
}
