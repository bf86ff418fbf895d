/** The Scenario of scenario.py: an ordered list of step descriptors run by name
    against one Signal, and the rows of the feature table it writes. */
module Scenarios {
  import opened Common
  import opened Signals

  /** One step descriptor of the configuration: {"order", "function_name",
      "attributes" (optional), "output_label" (optional)}. */
  datatype Step = Step(order: int, functionName: string, attributes: Option<Attributes>, outputLabel: Option<string>)

  // ---------------------------------------------------------------------------
  // Sorting by order: list.sort(key=itemgetter('order')), which is stable.

  predicate SortedByOrder(s: seq<Step>)
  {
    forall i, j :: 0 <= i < j < |s| ==> s[i].order <= s[j].order
  }

  /** The steps of `s` whose order is `o`, in their order in `s`. */
  function WithOrder(s: seq<Step>, o: int): (r: seq<Step>)
    ensures |r| <= |s|
  {
    if s == [] then []
    else (if s[0].order == o then [s[0]] else []) + WithOrder(s[1..], o)
  }

  /** `x` placed in front of the first step of `s` whose order is not smaller. */
  function InsertByOrder(x: Step, s: seq<Step>): (r: seq<Step>)
    ensures |r| == |s| + 1
  {
    if s == [] || x.order <= s[0].order then [x] + s
    else [s[0]] + InsertByOrder(x, s[1..])
  }

  /** The steps sorted by order, steps of equal order kept in their given order. */
  function SortByOrder(s: seq<Step>): (r: seq<Step>)
    ensures |r| == |s|
  {
    if s == [] then [] else InsertByOrder(s[0], SortByOrder(s[1..]))
  }

  lemma {:induction false} InsertByOrderMultiset(x: Step, s: seq<Step>)
    ensures multiset(InsertByOrder(x, s)) == multiset{x} + multiset(s)
  {
    if s != [] && x.order > s[0].order {
      InsertByOrderMultiset(x, s[1..]);
      assert s == [s[0]] + s[1..];
    }
  }

  lemma {:induction false} InsertByOrderSorted(x: Step, s: seq<Step>)
    requires SortedByOrder(s)
    ensures SortedByOrder(InsertByOrder(x, s))
  {
    if s != [] && x.order > s[0].order {
      InsertByOrderSorted(x, s[1..]);
      InsertByOrderMultiset(x, s[1..]);
      var t := InsertByOrder(x, s[1..]);
      forall k | 0 <= k < |t| ensures s[0].order <= t[k].order {
        assert t[k] in multiset(t);
        assert t[k] == x || t[k] in multiset(s[1..]);
        if t[k] != x {
          var j :| 0 <= j < |s[1..]| && s[1..][j] == t[k];
          assert s[j + 1] == t[k];
        }
      }
    }
  }

  lemma {:induction false} InsertByOrderWithOrder(x: Step, s: seq<Step>, o: int)
    ensures WithOrder(InsertByOrder(x, s), o) == (if x.order == o then [x] else []) + WithOrder(s, o)
  {
    if s == [] || x.order <= s[0].order {
      assert InsertByOrder(x, s)[1..] == s;
    } else {
      InsertByOrderWithOrder(x, s[1..], o);
      assert InsertByOrder(x, s)[1..] == InsertByOrder(x, s[1..]);
      if s[0].order == o {
        assert x.order != o;
      }
    }
  }

  /** Sorting yields a permutation of the steps. */
  lemma {:induction false} SortByOrderPermutation(s: seq<Step>)
    ensures multiset(SortByOrder(s)) == multiset(s)
  {
    if s != [] {
      SortByOrderPermutation(s[1..]);
      InsertByOrderMultiset(s[0], SortByOrder(s[1..]));
      assert s == [s[0]] + s[1..];
    }
  }

  /** Sorting yields non-decreasing orders. */
  lemma {:induction false} SortByOrderSorted(s: seq<Step>)
    ensures SortedByOrder(SortByOrder(s))
  {
    if s != [] {
      SortByOrderSorted(s[1..]);
      InsertByOrderSorted(s[0], SortByOrder(s[1..]));
    }
  }

  /** Sorting is stable: the steps of any one order keep their relative order. */
  lemma {:induction false} SortByOrderStable(s: seq<Step>, o: int)
    ensures WithOrder(SortByOrder(s), o) == WithOrder(s, o)
  {
    if s != [] {
      SortByOrderStable(s[1..], o);
      InsertByOrderWithOrder(s[0], SortByOrder(s[1..]), o);
    }
  }

  // ---------------------------------------------------------------------------
  // Dispatch by name: getattr(signal, function_name).

  /** The Signal methods a step can name and that this model runs. */
  datatype Op =
    | ZNormalizeOp
    | SmoothOp
    | ExtractOp(kind: FeatureKind)
    | SignalValuesOp       // get_signal_values: a query, no effect on the signal
    | FeatureWindowsOp     // get_values_for_features: a query
    | DivideIntoWindowsOp  // divide_into_windows: a query

  /** The Python name of each operation. */
  function OpName(op: Op): string
  {
    match op
    case ZNormalizeOp => "z_normalize"
    case SmoothOp => "smooth"
    case ExtractOp(kind) => KindName(kind)
    case SignalValuesOp => "get_signal_values"
    case FeatureWindowsOp => "get_values_for_features"
    case DivideIntoWindowsOp => "divide_into_windows"
  }

  function KindName(kind: FeatureKind): string
  {
    match kind
    case Mean => "mean"
    case Median => "median"
    case StandardDeviation => "standard_deviation"
    case Minimum => "minimum"
    case Maximum => "maximum"
    case Variance => "variance"
    case Kurtosis => "kurtosis"
    case Skewness => "skewness"
  }

  /** Signal methods outside this model: signal decimation, baseline removal and plotting. */
  const UnmodelledMethods: set<string> := {"decimate", "get_phase_part", "draw_plot"}

  /** Signal data attributes: getattr finds them, but they cannot be called. */
  const DataAttributes: set<string> := {"signal_type", "signal_samples", "windowing_attributes", "features"}

  /** getattr by name: the operation, or the error the call of that attribute raises. */
  function Lookup(name: string): (r: Result<Op>)
    ensures r.Ok? ==> OpName(r.value) == name
    ensures r.Err? ==> r.error in {UnknownOperation(name), NotCallable(name), Unmodelled(name)}
  {
    match name
    case "z_normalize" => Ok(ZNormalizeOp)
    case "smooth" => Ok(SmoothOp)
    case "mean" => Ok(ExtractOp(Mean))
    case "median" => Ok(ExtractOp(Median))
    case "standard_deviation" => Ok(ExtractOp(StandardDeviation))
    case "minimum" => Ok(ExtractOp(Minimum))
    case "maximum" => Ok(ExtractOp(Maximum))
    case "variance" => Ok(ExtractOp(Variance))
    case "kurtosis" => Ok(ExtractOp(Kurtosis))
    case "skewness" => Ok(ExtractOp(Skewness))
    case "get_signal_values" => Ok(SignalValuesOp)
    case "get_values_for_features" => Ok(FeatureWindowsOp)
    case "divide_into_windows" => Ok(DivideIntoWindowsOp)
    case _ =>
      if name in UnmodelledMethods then Err(Unmodelled(name))
      else if name in DataAttributes then Err(NotCallable(name))
      else Err(UnknownOperation(name))
  }

  /** Every operation is found under its own name, and only under it. */
  lemma LookupOpName(op: Op, name: string)
    ensures Lookup(name) == Ok(op) <==> OpName(op) == name
  {
    if OpName(op) == name && op.ExtractOp? {
      match op.kind
      case Mean =>
      case Median =>
      case StandardDeviation =>
      case Minimum =>
      case Maximum =>
      case Variance =>
      case Kurtosis =>
      case Skewness =>
    }
  }

  /** The arguments process_methods passes. */
  datatype Call = NoArgs | WithAttributes(attributes: Attributes) | WithLabel(text: string)

  /** No argument when both fields are absent, the attributes when only the label is
      absent, and otherwise the label. */
  function CallShape(step: Step): (c: Call)
    ensures c.NoArgs? <==> step.attributes.None? && step.outputLabel.None?
    ensures c.WithAttributes? <==> step.attributes.Some? && step.outputLabel.None?
    ensures c.WithLabel? <==> step.outputLabel.Some?
    ensures c.WithAttributes? ==> c.attributes == step.attributes.value
    ensures c.WithLabel? ==> c.text == step.outputLabel.value
  {
    if step.attributes.None? && step.outputLabel.None? then NoArgs
    else if step.outputLabel.None? then WithAttributes(step.attributes.value)
    else WithLabel(step.outputLabel.value)
  }

  /** A present label always wins: the attributes of such a step are never passed. */
  lemma LabelHidesAttributes(step: Step, attributes: Option<Attributes>)
    requires step.outputLabel.Some?
    ensures CallShape(step.(attributes := attributes)) == CallShape(step)
  {
  }

  /** The label an extractor stores: its default when called without an argument,
      otherwise whatever it was called with. */
  function LabelFor(kind: FeatureKind, call: Call): Label
  {
    match call
    case NoArgs => Text(DefaultLabel(kind))
    case WithAttributes(a) => Bag(a)
    case WithLabel(s) => Text(s)
  }

  /** The effect of calling `op` with `call` on the signal state. */
  function Invoke(st: SignalState, windowing: Option<WindowSpec>, ext: ExternalStats, op: Op, call: Call): (r: Result<SignalState>)
    requires HaltsFor(st.samples, windowing)
    ensures r.Ok? ==> Times(r.value.samples) == Times(st.samples)
    ensures r.Ok? ==> st.features <= r.value.features
    ensures (op.SignalValuesOp? || op.FeatureWindowsOp? || op.DivideIntoWindowsOp?) && r.Ok? ==> r.value == st
    ensures op.DivideIntoWindowsOp? && call.NoArgs? && |st.samples| == 0 ==> r == Err(NoSamples)
  {
    match op
    case ZNormalizeOp =>
      TransformsKeepTimes(st.samples, map[]);
      if call.NoArgs? then OnSamples(st, ZNormalizeSpec(st.samples)) else Err(ArgumentMismatch)
    case SmoothOp =>
      // smooth(attr) needs the bag; a string label cannot be indexed by a key
      if call.WithAttributes? then
        (TransformsKeepTimes(st.samples, call.attributes);
         OnSamples(st, SmoothSpec(st.samples, call.attributes)))
      else Err(ArgumentMismatch)
    case ExtractOp(kind) =>
      ExtractSpec(st, windowing, kind, LabelFor(kind, call), ext)
    case SignalValuesOp =>
      if call.NoArgs? then Ok(st) else Err(ArgumentMismatch)
    case FeatureWindowsOp =>
      if !call.NoArgs? then Err(ArgumentMismatch)
      else if FeatureWindows(st.samples, windowing).Err? then Err(FeatureWindows(st.samples, windowing).error)
      else Ok(st)
    case DivideIntoWindowsOp =>
      if !call.NoArgs? then Err(ArgumentMismatch)
      else if |st.samples| == 0 then Err(NoSamples)
      else if windowing.None? then Err(NoWindowing)
      else Ok(st)
  }

  /** One step of process_methods: look the name up, then call it in the step's shape.
      A step keeps the timestamps and only ever appends feature entries. */
  function ApplyStep(st: SignalState, windowing: Option<WindowSpec>, ext: ExternalStats, step: Step): (r: Result<SignalState>)
    requires HaltsFor(st.samples, windowing)
    ensures Lookup(step.functionName).Err? ==> r == Err(Lookup(step.functionName).error)
    ensures r.Ok? ==> Times(r.value.samples) == Times(st.samples)
    ensures r.Ok? ==> st.features <= r.value.features
  {
    var op := Lookup(step.functionName);
    if op.Err? then Err(op.error)
    else
      Invoke(st, windowing, ext, op.value, CallShape(step))
  }

  /** What running a list of steps leaves: the signal state and whether every step succeeded. */
  datatype RunResult = RunResult(state: SignalState, outcome: Outcome)

  /** The steps in turn, each on the state the previous one left; the first failing
      step ends the run with the state as it was before that step. */
  function Run(st: SignalState, windowing: Option<WindowSpec>, ext: ExternalStats, steps: seq<Step>): (r: RunResult)
    requires HaltsFor(st.samples, windowing)
    ensures Times(r.state.samples) == Times(st.samples)
    ensures st.features <= r.state.features
    decreases |steps|
  {
    if steps == [] then RunResult(st, Pass)
    else
      match ApplyStep(st, windowing, ext, steps[0])
      case Err(e) => RunResult(st, Fail(e))
      case Ok(next) => Run(next, windowing, ext, steps[1..])
  }

  /** Running `a + b` is running `a`, then, if it succeeded, `b` on what `a` left. */
  lemma {:induction false} RunAppend(st: SignalState, windowing: Option<WindowSpec>, ext: ExternalStats,
                                     a: seq<Step>, b: seq<Step>)
    requires HaltsFor(st.samples, windowing)
    ensures var ra := Run(st, windowing, ext, a);
            Run(st, windowing, ext, a + b) ==
              if ra.outcome.Fail? then ra else Run(ra.state, windowing, ext, b)
    decreases |a|
  {
    if a == [] {
      assert a + b == b;
    } else {
      assert (a + b)[0] == a[0];
      assert (a + b)[1..] == a[1..] + b;
      var r := ApplyStep(st, windowing, ext, a[0]);
      if r.Ok? {
        RunAppend(r.value, windowing, ext, a[1..], b);
      }
    }
  }

  /** When the steps before step k succeed and step k fails, the run fails with that
      error, the steps after k never run, and the effects of the steps before k remain. */
  lemma RunFailsAt(st: SignalState, windowing: Option<WindowSpec>, ext: ExternalStats, steps: seq<Step>, k: nat)
    requires HaltsFor(st.samples, windowing) && k < |steps|
    requires Run(st, windowing, ext, steps[..k]).outcome == Pass
    requires ApplyStep(Run(st, windowing, ext, steps[..k]).state, windowing, ext, steps[k]).Err?
    ensures Run(st, windowing, ext, steps) ==
              RunResult(Run(st, windowing, ext, steps[..k]).state,
                        Fail(ApplyStep(Run(st, windowing, ext, steps[..k]).state, windowing, ext, steps[k]).error))
  {
    assert steps == steps[..k] + steps[k..];
    RunAppend(st, windowing, ext, steps[..k], steps[k..]);
    assert steps[k..][0] == steps[k];
  }

  /** When steps 0 .. i-1 succeed and step i succeeds on what they left, the run of
      steps 0 .. i ends in its result. */
  lemma RunExtend(st: SignalState, windowing: Option<WindowSpec>, ext: ExternalStats, steps: seq<Step>, i: nat)
    requires HaltsFor(st.samples, windowing) && i < |steps|
    requires Run(st, windowing, ext, steps[..i]).outcome == Pass
    requires ApplyStep(Run(st, windowing, ext, steps[..i]).state, windowing, ext, steps[i]).Ok?
    ensures Run(st, windowing, ext, steps[..i + 1]) ==
              RunResult(ApplyStep(Run(st, windowing, ext, steps[..i]).state, windowing, ext, steps[i]).value, Pass)
  {
    PrefixSnoc(steps, i);
    RunSnoc(st, windowing, ext, steps[..i], steps[i]);
  }

  /** The prefix of length i + 1 is the prefix of length i and element i. */
  lemma PrefixSnoc<T>(s: seq<T>, i: nat)
    requires i < |s|
    ensures s[..i + 1] == s[..i] + [s[i]]
  {
  }

  /** One more successful step after a successful run ends in that step's result. */
  lemma {:induction false} RunSnoc(st: SignalState, windowing: Option<WindowSpec>, ext: ExternalStats, a: seq<Step>, x: Step)
    requires HaltsFor(st.samples, windowing)
    requires Run(st, windowing, ext, a).outcome == Pass
    requires ApplyStep(Run(st, windowing, ext, a).state, windowing, ext, x).Ok?
    ensures Run(st, windowing, ext, a + [x]) ==
              RunResult(ApplyStep(Run(st, windowing, ext, a).state, windowing, ext, x).value, Pass)
    decreases |a|
  {
    if a == [] {
      assert a + [x] == [x] && [x][1..] == [];
    } else {
      assert (a + [x])[0] == a[0] && (a + [x])[1..] == a[1..] + [x];
      RunSnoc(ApplyStep(st, windowing, ext, a[0]).value, windowing, ext, a[1..], x);
    }
  }

  /** A run that succeeds ran every step: step k ran on what steps 0 .. k-1 left. */
  lemma RunPassesEveryStep(st: SignalState, windowing: Option<WindowSpec>, ext: ExternalStats, steps: seq<Step>, k: nat)
    requires HaltsFor(st.samples, windowing) && k < |steps|
    requires Run(st, windowing, ext, steps).outcome == Pass
    ensures Run(st, windowing, ext, steps[..k]).outcome == Pass
    ensures ApplyStep(Run(st, windowing, ext, steps[..k]).state, windowing, ext, steps[k]).Ok?
  {
    assert steps == steps[..k] + steps[k..];
    RunAppend(st, windowing, ext, steps[..k], steps[k..]);
    assert steps[k..][0] == steps[k];
  }

  /** The name of step k is not an operation: the run stops there. */
  lemma UnknownNameStopsRun(st: SignalState, windowing: Option<WindowSpec>, ext: ExternalStats, steps: seq<Step>, k: nat)
    requires HaltsFor(st.samples, windowing) && k < |steps|
    requires Lookup(steps[k].functionName).Err?
    ensures Run(st, windowing, ext, steps).outcome.Fail?
  {
    if Run(st, windowing, ext, steps).outcome == Pass {
      RunPassesEveryStep(st, windowing, ext, steps, k);
    }
  }

  /** The step calls one of the eight extractors. */
  predicate IsExtractorStep(step: Step)
  {
    Lookup(step.functionName).Ok? && Lookup(step.functionName).value.ExtractOp?
  }

  /** The label an extractor step stores with its entry. */
  function StepLabel(step: Step): Label
    requires IsExtractorStep(step)
  {
    LabelFor(Lookup(step.functionName).value.kind, CallShape(step))
  }

  /** `final` is `st` with one entry appended per step of `steps`, in step order,
      each labelled as its call shape says, and the same samples. */
  ghost predicate AppendedByExtractors(st: SignalState, final: SignalState, steps: seq<Step>)
    requires forall k :: 0 <= k < |steps| ==> IsExtractorStep(steps[k])
  {
    && final.samples == st.samples
    && |final.features| == |st.features| + |steps|
    && final.features[..|st.features|] == st.features
    && forall k :: 0 <= k < |steps| ==> final.features[|st.features| + k].name == StepLabel(steps[k])
  }

  /** A run of extractor steps that succeeds appends one entry per step, in step
      order, each labelled as its call shape says, and leaves the samples alone. */
  lemma {:induction false} RunOfExtractors(st: SignalState, windowing: Option<WindowSpec>, ext: ExternalStats, steps: seq<Step>)
    requires HaltsFor(st.samples, windowing)
    requires forall k :: 0 <= k < |steps| ==> IsExtractorStep(steps[k])
    requires Run(st, windowing, ext, steps).outcome == Pass
    ensures AppendedByExtractors(st, Run(st, windowing, ext, steps).state, steps)
    decreases |steps|
  {
    if steps == [] {
      assert st.features[..|st.features|] == st.features;
    } else {
      ExtractorStepEffect(st, windowing, ext, steps[0]);
      var next := ApplyStep(st, windowing, ext, steps[0]).value;
      RunOfExtractors(next, windowing, ext, steps[1..]);
      var final := Run(next, windowing, ext, steps[1..]).state;
      assert Run(st, windowing, ext, steps).state == final;
      AppendedByFirstThenRest(st, next, final, steps);
    }
  }

  /** One entry appended by the first step, then the entries of the remaining steps. */
  lemma AppendedByFirstThenRest(st: SignalState, next: SignalState, final: SignalState, steps: seq<Step>)
    requires forall k :: 0 <= k < |steps| ==> IsExtractorStep(steps[k])
    requires |steps| > 0
    requires next.samples == st.samples && |next.features| == |st.features| + 1
    requires next.features == st.features + [next.features[|st.features|]]
    requires next.features[|st.features|].name == StepLabel(steps[0])
    requires AppendedByExtractors(next, final, steps[1..])
    ensures AppendedByExtractors(st, final, steps)
  {
    assert final.features[..|st.features|] == final.features[..|next.features|][..|st.features|];
    forall k | 0 <= k < |steps|
      ensures final.features[|st.features| + k].name == StepLabel(steps[k])
    {
      if k == 0 {
        assert final.features[|st.features|] == final.features[..|next.features|][|st.features|];
      } else {
        assert steps[k] == steps[1..][k - 1];
        assert |st.features| + k == |next.features| + (k - 1);
      }
    }
  }

  /** A successful extractor step keeps the samples and appends one entry, labelled
      as its call shape says. */
  lemma ExtractorStepEffect(st: SignalState, windowing: Option<WindowSpec>, ext: ExternalStats, step: Step)
    requires HaltsFor(st.samples, windowing)
    requires IsExtractorStep(step)
    requires ApplyStep(st, windowing, ext, step).Ok?
    ensures var next := ApplyStep(st, windowing, ext, step).value;
            && next.samples == st.samples
            && |next.features| == |st.features| + 1
            && next.features == st.features + [next.features[|st.features|]]
            && next.features[|st.features|].name == StepLabel(step)
  {
    var kind := Lookup(step.functionName).value.kind;
    ExtractorStep(st, windowing, ext, step);
    ExtractAppendsOne(st, windowing, kind, LabelFor(kind, CallShape(step)), ext);
  }

  /** An extractor step is the extraction of its kind, labelled as its call shape says. */
  lemma ExtractorStep(st: SignalState, windowing: Option<WindowSpec>, ext: ExternalStats, step: Step)
    requires HaltsFor(st.samples, windowing)
    requires Lookup(step.functionName).Ok? && Lookup(step.functionName).value.ExtractOp?
    ensures ApplyStep(st, windowing, ext, step) ==
              ExtractSpec(st, windowing, Lookup(step.functionName).value.kind,
                          LabelFor(Lookup(step.functionName).value.kind, CallShape(step)), ext)
  {
  }

  /** A step keeps every feature entry one value per window. */
  lemma ApplyStepKeepsUniform(st: SignalState, windowing: Option<WindowSpec>, ext: ExternalStats, step: Step)
    requires HaltsFor(st.samples, windowing) && Uniform(st, windowing)
    requires ApplyStep(st, windowing, ext, step).Ok?
    ensures Uniform(ApplyStep(st, windowing, ext, step).value, windowing)
  {
    var next := ApplyStep(st, windowing, ext, step).value;
    WidthByTimes(st.samples, next.samples, windowing);
    var op := Lookup(step.functionName).value;
    if op.ExtractOp? {
      ExtractorStep(st, windowing, ext, step);
      ExtractAppendsOne(st, windowing, op.kind, LabelFor(op.kind, CallShape(step)), ext);
    } else {
      NonExtractorStep(st, windowing, ext, step);
    }
  }

  /** A step that is not an extractor leaves the feature entries as they are. */
  lemma NonExtractorStep(st: SignalState, windowing: Option<WindowSpec>, ext: ExternalStats, step: Step)
    requires HaltsFor(st.samples, windowing)
    requires ApplyStep(st, windowing, ext, step).Ok? && !Lookup(step.functionName).value.ExtractOp?
    ensures ApplyStep(st, windowing, ext, step).value.features == st.features
  {
  }

  /** Every feature entry a run leaves holds one value per window. */
  lemma {:induction false} RunKeepsUniform(st: SignalState, windowing: Option<WindowSpec>, ext: ExternalStats, steps: seq<Step>)
    requires HaltsFor(st.samples, windowing) && Uniform(st, windowing)
    ensures Uniform(Run(st, windowing, ext, steps).state, windowing)
    decreases |steps|
  {
    if steps != [] && ApplyStep(st, windowing, ext, steps[0]).Ok? {
      ApplyStepKeepsUniform(st, windowing, ext, steps[0]);
      RunKeepsUniform(ApplyStep(st, windowing, ext, steps[0]).value, windowing, ext, steps[1..]);
    }
  }

  // ---------------------------------------------------------------------------
  // The rows of write_csv.

  /** One cell of the feature table: a heading, a feature label or a feature's values. */
  datatype Cell = Heading(text: string) | LabelCell(name: Label) | ValuesCell(values: seq<Number>)

  const Header: seq<Cell> := [Heading("Feature"), Heading("Value")]

  class Scenario {
    const scenarioName: string
    var processingMethods: seq<Step>
    const processedSignal: Signal

    /** Scenario(...): the signal is created without windowing. */
    constructor (scenarioName: string, rows: seq<Sample>, signalType: string, methods: seq<Step>)
      ensures this.scenarioName == scenarioName && processingMethods == methods
      ensures fresh(processedSignal) && fresh(processedSignal.samples)
      ensures processedSignal.State() == SignalState(rows, []) && processedSignal.windowing.None?
    {
      this.scenarioName := scenarioName;
      processingMethods := methods;
      processedSignal := new Signal(rows, signalType, None);
    }

    /** sort_methods_by_order: the steps sorted by order, stably. */
    method SortMethodsByOrder()
      modifies this`processingMethods
      ensures processingMethods == SortByOrder(old(processingMethods))
    {
      processingMethods := SortByOrder(processingMethods);
    }

    /** The body of the loop of process_methods for one step. */
    method Apply(step: Step, ext: ExternalStats) returns (outcome: Outcome)
      requires HaltsFor(processedSignal.samples[..], processedSignal.windowing)
      modifies processedSignal`features, processedSignal.samples
      ensures outcome == OutcomeOf(ApplyStep(old(processedSignal.State()), processedSignal.windowing, ext, step))
      ensures processedSignal.State() ==
                ValueOr(ApplyStep(old(processedSignal.State()), processedSignal.windowing, ext, step), old(processedSignal.State()))
    {
      var op := Lookup(step.functionName);
      if op.Err? {
        return Fail(op.error);
      }
      var call := CallShape(step);
      match op.value
      case ZNormalizeOp =>
        if call.NoArgs? {
          outcome := processedSignal.ZNormalize();
        } else {
          outcome := Fail(ArgumentMismatch);
        }
      case SmoothOp =>
        if call.WithAttributes? {
          outcome := processedSignal.Smooth(call.attributes);
        } else {
          outcome := Fail(ArgumentMismatch);
        }
      case ExtractOp(kind) =>
        outcome := processedSignal.ExtractFeature(kind, LabelFor(kind, call), ext);
      case SignalValuesOp =>
        if call.NoArgs? {
          var _ := processedSignal.GetSignalValues();
          outcome := Pass;
        } else {
          outcome := Fail(ArgumentMismatch);
        }
      case FeatureWindowsOp =>
        if call.NoArgs? {
          var r := processedSignal.GetValuesForFeatures();
          outcome := OutcomeOf(r);
        } else {
          outcome := Fail(ArgumentMismatch);
        }
      case DivideIntoWindowsOp =>
        if !call.NoArgs? {
          outcome := Fail(ArgumentMismatch);
        } else if processedSignal.samples.Length == 0 {
          outcome := Fail(NoSamples);
        } else if processedSignal.windowing.None? {
          outcome := Fail(NoWindowing);
        } else {
          var r := processedSignal.DivideIntoWindows();
          outcome := OutcomeOf(r);
        }
    }

    /** process_methods: sort, then run every step in turn until one fails. */
    method ProcessMethods(ext: ExternalStats) returns (outcome: Outcome)
      requires HaltsFor(processedSignal.samples[..], processedSignal.windowing)
      modifies this`processingMethods, processedSignal`features, processedSignal.samples
      ensures processingMethods == SortByOrder(old(processingMethods))
      ensures Run(old(processedSignal.State()), processedSignal.windowing, ext, processingMethods) ==
                RunResult(processedSignal.State(), outcome)
    {
      SortMethodsByOrder();
      outcome := RunMethods(ext);
    }

    /** The loop of process_methods: every step in list order until one fails. */
    method RunMethods(ext: ExternalStats) returns (outcome: Outcome)
      requires HaltsFor(processedSignal.samples[..], processedSignal.windowing)
      modifies processedSignal`features, processedSignal.samples
      ensures Run(old(processedSignal.State()), processedSignal.windowing, ext, processingMethods) ==
                RunResult(processedSignal.State(), outcome)
    {
      ghost var st0 := processedSignal.State();
      ghost var windowing := processedSignal.windowing;
      var i := 0;
      while i < |processingMethods|
        invariant i <= |processingMethods|
        invariant HaltsFor(st0.samples, windowing)
        invariant Run(st0, windowing, ext, processingMethods[..i]) == RunResult(processedSignal.State(), Pass)
        invariant HaltsFor(processedSignal.samples[..], windowing)
      {
        var o := Apply(processingMethods[i], ext);
        if o.Fail? {
          RunFailsAt(st0, windowing, ext, processingMethods, i);
          return o;
        }
        RunExtend(st0, windowing, ext, processingMethods, i);
        i := i + 1;
      }
      assert processingMethods[..i] == processingMethods;
      return Pass;
    }

    /** The rows write_csv writes: none without features; otherwise the header
        ["Feature", "Value"], then one [label, values] row per feature, in order. */
    method CsvRows() returns (rows: seq<seq<Cell>>)
      ensures |processedSignal.features| == 0 ==> rows == []
      ensures |processedSignal.features| > 0 ==> |rows| == |processedSignal.features| + 1 && rows[0] == Header
      ensures |processedSignal.features| > 0 ==> forall k :: 0 <= k < |processedSignal.features| ==>
                rows[k + 1] == [LabelCell(processedSignal.features[k].name), ValuesCell(processedSignal.features[k].values)]
    {
      var features := processedSignal.features;
      if |features| == 0 {
        return [];
      }
      rows := [Header];
      for k := 0 to |features|
        invariant |rows| == k + 1 && rows[0] == Header
        invariant forall j :: 0 <= j < k ==> rows[j + 1] == [LabelCell(features[j].name), ValuesCell(features[j].values)]
      {
        rows := rows + [[LabelCell(features[k].name), ValuesCell(features[k].values)]];
      }
    }
  }
}
