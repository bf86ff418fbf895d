/** The Signal of signal.py: a mutable (timestamp, value) table, an optional windowing
    and an append-only list of extracted features; its in-place transforms and its
    feature extractors; and the pure specification of each operation. */
module Signals {
  import opened Common
  import opened Stats
  import opened Windowing
  import opened Smoothing

  /** The statistics a feature extractor computes, one per extractor method. */
  datatype FeatureKind = Mean | Median | StandardDeviation | Minimum | Maximum | Variance | Kurtosis | Skewness

  /** numpy / scipy routines the model does not interpret (np.median, np.std,
      scipy.stats.kurtosis, scipy.stats.skew), supplied from outside. */
  datatype ExternalStats = ExternalStats(
    median: seq<real> -> Number,
    std: seq<real> -> Number,
    kurtosis: seq<real> -> Number,
    skew: seq<real> -> Number)

  /** The label an extractor stores when it is called without one. */
  function DefaultLabel(kind: FeatureKind): string
  {
    match kind
    case Mean => "Mean"
    case Median => "Median"
    case StandardDeviation => "Standard deviation"
    case Minimum => "Minimum"
    case Maximum => "Maximum"
    case Variance => "Variance"
    case Kurtosis => "Kurtosis"
    case Skewness => "Skewness"
  }

  /** Different extractors have different default labels. */
  lemma DefaultLabelsDistinct(a: FeatureKind, b: FeatureKind)
    requires a != b
    ensures DefaultLabel(a) != DefaultLabel(b)
  {
    match a
    case Mean =>
    case Median =>
    case StandardDeviation =>
    case Minimum =>
    case Maximum =>
    case Variance =>
    case Kurtosis =>
    case Skewness =>
  }

  /** The statistic of one window. np.mean and np.var give NaN on an empty window;
      np.min and np.max raise ValueError on it. */
  function Statistic(kind: FeatureKind, ext: ExternalStats, w: seq<real>): (r: Result<Number>)
    ensures r.Err? <==> (kind == Minimum || kind == Maximum) && |w| == 0
    ensures r.Err? ==> r.error == EmptyWindow
  {
    match kind
    case Mean => Ok(if |w| == 0 then NaN else Finite(Average(w)))
    case Variance => Ok(if |w| == 0 then NaN else Finite(PopVariance(w)))
    case Minimum => if |w| == 0 then Err(EmptyWindow) else Ok(Finite(Min(w)))
    case Maximum => if |w| == 0 then Err(EmptyWindow) else Ok(Finite(Max(w)))
    case Median => Ok(ext.median(w))
    case StandardDeviation => Ok(ext.std(w))
    case Kurtosis => Ok(ext.kurtosis(w))
    case Skewness => Ok(ext.skew(w))
  }

  /** The statistic of every window, in window order; the first window whose
      statistic fails makes the whole extraction fail. */
  function FeatureValues(ws: seq<seq<real>>, kind: FeatureKind, ext: ExternalStats): (r: Result<seq<Number>>)
    ensures r.Ok? <==> forall i :: 0 <= i < |ws| ==> Statistic(kind, ext, ws[i]).Ok?
    ensures r.Ok? ==> |r.value| == |ws|
    ensures r.Ok? ==> forall i :: 0 <= i < |ws| ==> Statistic(kind, ext, ws[i]) == Ok(r.value[i])
    ensures r.Err? ==> r.error == EmptyWindow
  {
    if ws == [] then Ok([])
    else
      var head := Statistic(kind, ext, ws[0]);
      var tail := FeatureValues(ws[1..], kind, ext);
      assert forall i :: 1 <= i < |ws| ==> ws[i] == ws[1..][i - 1];
      if head.Err? then Err(head.error)
      else if tail.Err? then Err(tail.error)
      else Ok([head.value] + tail.value)
  }

  /** The loop every extractor runs: the statistic of each window in turn, stopping
      at the first window it rejects. */
  method WindowStatistics(ws: seq<seq<real>>, kind: FeatureKind, ext: ExternalStats) returns (r: Result<seq<Number>>)
    ensures r == FeatureValues(ws, kind, ext)
  {
    var featureValues: seq<Number> := [];
    for i := 0 to |ws|
      invariant |featureValues| == i
      invariant forall k :: 0 <= k < i ==> Statistic(kind, ext, ws[k]) == Ok(featureValues[k])
    {
      var v := Statistic(kind, ext, ws[i]);
      if v.Err? {
        return Err(v.error);
      }
      featureValues := featureValues + [v.value];
    }
    assert featureValues == FeatureValues(ws, kind, ext).value;
    return Ok(featureValues);
  }

  /** The windowing loop terminates for these samples (always so without windowing). */
  predicate HaltsFor(s: seq<Sample>, windowing: Option<WindowSpec>)
  {
    windowing.None? || Halts(Times(s), windowing.value)
  }

  /** What get_values_for_features returns: without windowing one window holding
      every value; with windowing the windows of divide_into_windows, or the
      IndexError that reading the first timestamp of an empty signal raises. */
  function FeatureWindows(s: seq<Sample>, windowing: Option<WindowSpec>): (r: Result<seq<seq<real>>>)
    requires HaltsFor(s, windowing)
    ensures r.Err? <==> windowing.Some? && |s| == 0
    ensures r.Err? ==> r.error == NoSamples
    ensures r.Ok? ==> |r.value| == Width(s, windowing)
  {
    if windowing.None? then Ok([Values(s)])
    else if |s| == 0 then Err(NoSamples)
    else Ok(Windows(s, windowing.value))
  }

  /** The number of values every feature entry holds: one per window. */
  function Width(s: seq<Sample>, windowing: Option<WindowSpec>): nat
    requires HaltsFor(s, windowing)
  {
    if windowing.None? then 1
    else if |s| == 0 then 0
    else WindowCount(s[0].time, s[|s| - 1].time, windowing.value)
  }

  /** The abstract state of a Signal: its samples and its features. */
  datatype SignalState = SignalState(samples: seq<Sample>, features: seq<Feature>)

  /** A feature extractor: one entry [label, per-window statistic] appended. */
  function ExtractSpec(st: SignalState, windowing: Option<WindowSpec>, kind: FeatureKind,
                       name: Label, ext: ExternalStats): Result<SignalState>
    requires HaltsFor(st.samples, windowing)
  {
    match FeatureWindows(st.samples, windowing)
    case Err(e) => Err(e)
    case Ok(ws) =>
      match FeatureValues(ws, kind, ext)
      case Err(e) => Err(e)
      case Ok(vals) => Ok(SignalState(st.samples, st.features + [Feature(name, vals)]))
  }

  /** z_normalize: every value x becomes (x - m) / v with m the mean and v the
      population variance of the values before the loop. An empty signal is left
      as it is; a constant non-empty one (v = 0) is reported, not divided by zero. */
  function ZNormalizeSpec(s: seq<Sample>): Result<seq<Sample>>
  {
    if |s| == 0 then Ok(s)
    else if PopVariance(Values(s)) == 0.0 then Err(ZeroVariance)
    else Ok(WithValues(s, ZNormalized(Values(s))))
  }

  /** Python's int() on a number: truncation toward zero. */
  function Truncate(x: real): (r: int)
    ensures x >= 0.0 ==> r as real <= x < r as real + 1.0
    ensures x < 0.0 ==> r as real - 1.0 < x <= r as real
  {
    if x >= 0.0 then x.Floor else -((-x).Floor)
  }

  /** The number of passes `range(int(n))` runs: none for a negative count. */
  function Iterations(n: real): (r: nat)
    ensures n >= 0.0 ==> r as real <= n < r as real + 1.0
    ensures n < 1.0 ==> r == 0
  {
    if Truncate(n) < 0 then 0 else Truncate(n)
  }

  const IterationsKey: string := "numberOfIterations"

  /** smooth(attr): `numberOfIterations` passes of neighbour averaging, or the KeyError
      of a bag without that entry. */
  function SmoothSpec(s: seq<Sample>, attributes: Attributes): Result<seq<Sample>>
  {
    if IterationsKey !in attributes then Err(MissingAttribute(IterationsKey))
    else Ok(WithValues(s, Smoothed(Values(s), Iterations(attributes[IterationsKey]))))
  }

  /** Lifts an operation on the samples to the signal state. */
  function OnSamples(st: SignalState, r: Result<seq<Sample>>): Result<SignalState>
  {
    if r.Ok? then Ok(SignalState(r.value, st.features)) else Err(r.error)
  }

  /** Every feature entry holds one value per window. */
  ghost predicate Uniform(st: SignalState, windowing: Option<WindowSpec>)
    requires HaltsFor(st.samples, windowing)
  {
    forall k :: 0 <= k < |st.features| ==> |st.features[k].values| == Width(st.samples, windowing)
  }

  /** A non-empty signal whose values are all equal is rejected with ZeroVariance
      and left as it is; numpy would divide by zero there. */
  lemma ConstantSignalRejected(s: seq<Sample>)
    requires |s| > 0 && forall i :: 0 <= i < |s| ==> s[i].value == s[0].value
    ensures ZNormalizeSpec(s) == Err(ZeroVariance)
  {
    ConstantHasZeroVariance(Values(s));
  }

  /** Windowed extraction is extraction over each window's rows: value k of the
      entry a windowed extractor appends is the one value the same extractor
      appends, without windowing, to the samples of window k. */
  lemma WindowedExtractionBySlices(st: SignalState, spec: WindowSpec, kind: FeatureKind,
                                   name: Label, ext: ExternalStats, k: nat)
    requires |st.samples| > 0 && Halts(Times(st.samples), spec)
    requires ExtractSpec(st, Some(spec), kind, name, ext).Ok?
    requires k < Width(st.samples, Some(spec))
    ensures var t0 := st.samples[0].time;
            var part := SignalState(Slice(st.samples, WindowStart(t0, spec, k), WindowStop(t0, spec, k)), st.features);
            ExtractSpec(part, None, kind, name, ext).Ok? &&
            ExtractSpec(part, None, kind, name, ext).value.features[|st.features|].values
              == [ExtractSpec(st, Some(spec), kind, name, ext).value.features[|st.features|].values[k]]
  {
    var s, t0 := st.samples, st.samples[0].time;
    var ws := Windows(s, spec);
    assert FeatureWindows(s, Some(spec)) == Ok(ws);
    var vals := FeatureValues(ws, kind, ext).value;
    assert ExtractSpec(st, Some(spec), kind, name, ext).value.features[|st.features|].values == vals;
    WindowsAreSlices(s, spec, k);
    var part := SignalState(Slice(s, WindowStart(t0, spec, k), WindowStop(t0, spec, k)), st.features);
    var w := Values(part.samples);
    assert ws[k] == w;
    assert FeatureWindows(part.samples, None) == Ok([w]);
    assert Statistic(kind, ext, w) == Ok(vals[k]);
    var single := FeatureValues([w], kind, ext);
    assert single.Ok? && |single.value| == 1 && single.value[0] == vals[k];
    assert single.value == [vals[k]];
  }

  /** Whether the windowing terminates, and how many windows there are, depends on
      the timestamps only. */
  lemma WidthByTimes(s: seq<Sample>, u: seq<Sample>, windowing: Option<WindowSpec>)
    requires Times(s) == Times(u) && HaltsFor(s, windowing)
    ensures HaltsFor(u, windowing) && Width(s, windowing) == Width(u, windowing)
  {
    assert |s| == |Times(s)| == |Times(u)| == |u|;
    if windowing.Some? && |s| > 0 {
      WindowsCountByTimes(s, u, windowing.value);
    }
  }

  /** A successful extraction appends exactly one entry, leaves the earlier ones and
      the samples untouched, and stores in it the statistic of every window, in order. */
  lemma ExtractAppendsOne(st: SignalState, windowing: Option<WindowSpec>, kind: FeatureKind,
                          name: Label, ext: ExternalStats)
    requires HaltsFor(st.samples, windowing)
    requires ExtractSpec(st, windowing, kind, name, ext).Ok?
    ensures FeatureWindows(st.samples, windowing).Ok?
    ensures var st' := ExtractSpec(st, windowing, kind, name, ext).value;
            var ws := FeatureWindows(st.samples, windowing).value;
            && st'.samples == st.samples
            && |st'.features| == |st.features| + 1
            && st'.features[..|st.features|] == st.features
            && st'.features[|st.features|].name == name
            && |st'.features[|st.features|].values| == |ws| == Width(st.samples, windowing)
            && forall i :: 0 <= i < |ws| ==>
                 Statistic(kind, ext, ws[i]) == Ok(st'.features[|st.features|].values[i])
  {
    var s := st.samples;
    if windowing.Some? {
      assert |s| > 0;
      assert |Windows(s, windowing.value)| == WindowCount(s[0].time, s[|s| - 1].time, windowing.value);
    }
  }

  /** An extraction fails exactly when windowing an empty signal, or when a minimum
      or a maximum meets an empty window; it then changes nothing. */
  lemma ExtractFailure(st: SignalState, windowing: Option<WindowSpec>, kind: FeatureKind,
                       name: Label, ext: ExternalStats)
    requires HaltsFor(st.samples, windowing)
    ensures ExtractSpec(st, windowing, kind, name, ext).Err? <==>
              || (windowing.Some? && |st.samples| == 0)
              || ((kind == Minimum || kind == Maximum) &&
                  exists i :: 0 <= i < |FeatureWindows(st.samples, windowing).value| &&
                              FeatureWindows(st.samples, windowing).value[i] == [])
  {
    var fw := FeatureWindows(st.samples, windowing);
    if fw.Ok? {
      var ws := fw.value;
      if FeatureValues(ws, kind, ext).Err? {
        var i :| 0 <= i < |ws| && Statistic(kind, ext, ws[i]).Err?;
        assert ws[i] == [];
      }
    }
  }

  /** Every minimum stored is a value of its window, below or equal to all of them;
      every maximum is one above or equal to all of them. */
  lemma ExtremaAreWindowElements(st: SignalState, windowing: Option<WindowSpec>, kind: FeatureKind,
                                 name: Label, ext: ExternalStats, i: nat)
    requires HaltsFor(st.samples, windowing)
    requires kind == Minimum || kind == Maximum
    requires ExtractSpec(st, windowing, kind, name, ext).Ok?
    requires i < Width(st.samples, windowing)
    ensures var ws := FeatureWindows(st.samples, windowing).value;
            var x := ExtractSpec(st, windowing, kind, name, ext).value.features[|st.features|].values[i];
            && i < |ws| && x.Finite? && x.x in ws[i]
            && forall j :: 0 <= j < |ws[i]| ==> (if kind == Minimum then x.x <= ws[i][j] else ws[i][j] <= x.x)
  {
    ExtractAppendsOne(st, windowing, kind, name, ext);
  }

  /** The transforms keep the timestamps and the sample count. */
  lemma TransformsKeepTimes(s: seq<Sample>, attributes: Attributes)
    ensures ZNormalizeSpec(s).Ok? ==> Times(ZNormalizeSpec(s).value) == Times(s)
    ensures SmoothSpec(s, attributes).Ok? ==> Times(SmoothSpec(s, attributes).value) == Times(s)
  {
    if ZNormalizeSpec(s).Ok? && |s| > 0 {
      WithValuesColumns(s, ZNormalized(Values(s)));
    }
    if SmoothSpec(s, attributes).Ok? {
      WithValuesColumns(s, Smoothed(Values(s), Iterations(attributes[IterationsKey])));
    }
  }

  /** z_normalize replaces every value x by (x - m) / v, m and v the mean and the
      population variance of the old values, and keeps every timestamp. */
  lemma ZNormalizeValues(s: seq<Sample>, i: nat)
    requires i < |s| && PopVariance(Values(s)) != 0.0
    ensures ZNormalizeSpec(s).Ok? && |ZNormalizeSpec(s).value| == |s|
    ensures ZNormalizeSpec(s).value[i] ==
              Sample(s[i].time, ZScore(s[i].value, Average(Values(s)), PopVariance(Values(s))))
  {
    var xs := Values(s);
    var zs := ZNormalized(xs);
    assert ZNormalizeSpec(s) == Ok(WithValues(s, zs));
    assert WithValues(s, zs)[i] == Sample(s[i].time, zs[i]);
    assert xs[i] == s[i].value;
  }

  /** A count below one runs no pass: the samples come back as they were. */
  lemma SmoothWithoutIterations(s: seq<Sample>, attributes: Attributes)
    requires IterationsKey in attributes && attributes[IterationsKey] < 1.0
    ensures SmoothSpec(s, attributes) == Ok(s)
  {
    assert Iterations(attributes[IterationsKey]) == 0;
    WithValuesOfValues(s);
  }

  /** Smoothing keeps the first and the last value, and on fewer than three samples
      it changes nothing. */
  lemma SmoothKeepsEnds(s: seq<Sample>, attributes: Attributes)
    requires SmoothSpec(s, attributes).Ok?
    ensures |s| >= 2 ==> SmoothSpec(s, attributes).value[0] == s[0]
    ensures |s| >= 2 ==> SmoothSpec(s, attributes).value[|s| - 1] == s[|s| - 1]
    ensures |s| < 3 ==> SmoothSpec(s, attributes).value == s
  {
    var n := Iterations(attributes[IterationsKey]);
    assert SmoothSpec(s, attributes).value == WithValues(s, Smoothed(Values(s), n));
    if |s| >= 2 {
      SmoothedKeepsEnds(Values(s), n);
    }
    if |s| < 3 {
      ShortSignalUnchanged(Values(s), n);
      WithValuesOfValues(s);
    }
  }

  /** The samples (0, 1), (1, 2), (2, 3), (3, 4), (4, 5) used by ExampleMean and ExampleWindows. */
  function ExampleSamples(): seq<Sample>
  {
    [Sample(0.0, 1.0), Sample(1.0, 2.0), Sample(2.0, 3.0), Sample(3.0, 4.0), Sample(4.0, 5.0)]
  }

  /** Unwindowed, the mean of the example is the single entry ["Mean", [3.0]]. */
  lemma ExampleMean(ext: ExternalStats)
    ensures ExtractSpec(SignalState(ExampleSamples(), []), None, Mean, Text(DefaultLabel(Mean)), ext)
              == Ok(SignalState(ExampleSamples(), [Feature(Text("Mean"), [Finite(3.0)])]))
  {
    var s := ExampleSamples();
    var vs := [1.0, 2.0, 3.0, 4.0, 5.0];
    assert Values(s) == vs;
    assert vs[1..] == [2.0, 3.0, 4.0, 5.0] && vs[2..] == [3.0, 4.0, 5.0];
    assert vs[3..] == [4.0, 5.0] && vs[4..] == [5.0] && vs[5..] == [];
    assert Sum(vs[4..]) == 5.0;
    assert Sum(vs[3..]) == 9.0;
    assert Sum(vs[2..]) == 12.0;
    assert Sum(vs[1..]) == 14.0;
    assert Sum(vs) == 15.0;
    assert Average(vs) == 3.0;
    assert FeatureWindows(s, None) == Ok([vs]);
    var ws: seq<seq<real>> := [vs];
    assert Statistic(Mean, ext, ws[0]) == Ok(Finite(3.0));
    assert ws[1..] == [];
    assert FeatureValues(ws, Mean, ext).Ok?;
    var fv := FeatureValues(ws, Mean, ext).value;
    assert |fv| == 1 && fv[0] == Finite(3.0);
    assert fv == [Finite(3.0)];
    var entries: seq<Feature> := [];
    assert entries + [Feature(Text("Mean"), fv)] == [Feature(Text("Mean"), [Finite(3.0)])];
  }

  /** With length 2 and slide 1 the example has the three windows [0, 2], [1, 3] and
      [2, 4]: the next one, [3, 5], stops after the last timestamp 4. */
  lemma ExampleWindows()
    ensures Windows(ExampleSamples(), WindowSpec(2.0, 1.0)) ==
              [[1.0, 2.0, 3.0], [2.0, 3.0, 4.0], [3.0, 4.0, 5.0]]
  {
    var s := ExampleSamples();
    var spec := WindowSpec(2.0, 1.0);
    assert WindowCount(0.0, 4.0, spec) == 3;
    var ws := Windows(s, spec);
    assert WindowStart(0.0, spec, 1) == 1.0 && WindowStop(0.0, spec, 1) == 3.0;
    assert WindowStart(0.0, spec, 2) == 2.0 && WindowStop(0.0, spec, 2) == 4.0;
    assert s[1..] == [Sample(1.0, 2.0), Sample(2.0, 3.0), Sample(3.0, 4.0), Sample(4.0, 5.0)];
    assert s[2..] == [Sample(2.0, 3.0), Sample(3.0, 4.0), Sample(4.0, 5.0)];
    assert s[3..] == [Sample(3.0, 4.0), Sample(4.0, 5.0)];
    assert s[4..] == [Sample(4.0, 5.0)];
    assert ws[0] == WindowValues(s, 0.0, 2.0) == [1.0, 2.0, 3.0];
    assert ws[1] == WindowValues(s, 1.0, 3.0) == [2.0, 3.0, 4.0];
    assert ws[2] == WindowValues(s, 2.0, 4.0) == [3.0, 4.0, 5.0];
  }

  class Signal {
    /** signal_samples: the (timestamp, value) rows, overwritten in place. */
    var samples: array<Sample>
    const signalType: string
    /** windowing_attributes: None means one window holding every value. */
    const windowing: Option<WindowSpec>
    /** features: the [label, per-window values] entries, in extraction order. */
    var features: seq<Feature>

    ghost function State(): SignalState
      reads this, samples
    {
      SignalState(samples[..], features)
    }

    /** Signal(...): the samples are given (the CSV read is not modelled); no features yet. */
    constructor (rows: seq<Sample>, signalType: string, windowing: Option<WindowSpec>)
      ensures fresh(samples) && samples[..] == rows && features == []
      ensures this.signalType == signalType && this.windowing == windowing
    {
      samples := new Sample[|rows|](i requires 0 <= i < |rows| => rows[i]);
      this.signalType := signalType;
      this.windowing := windowing;
      features := [];
    }

    /** get_signal_values: the value column, one entry per sample, in order. */
    method GetSignalValues() returns (values: seq<real>)
      ensures |values| == samples.Length
      ensures forall i :: 0 <= i < samples.Length ==> values[i] == samples[i].value
    {
      values := [];
      for i := 0 to samples.Length
        invariant |values| == i
        invariant forall k :: 0 <= k < i ==> values[k] == samples[k].value
      {
        values := values + [samples[i].value];
      }
    }

    /** divide_into_windows: the first window starts at the first timestamp; windows
        slide by `slide` until one stops after the last timestamp. */
    method DivideIntoWindows() returns (r: Result<seq<seq<real>>>)
      requires windowing.Some? && Halts(Times(samples[..]), windowing.value)
      ensures samples.Length == 0 ==> r == Err(NoSamples)
      ensures samples.Length > 0 ==> r == Ok(Windows(samples[..], windowing.value))
    {
      if samples.Length == 0 {
        return Err(NoSamples);
      }
      var spec := windowing.value;
      ghost var s := samples[..];
      var t0 := samples[0].time;
      var last := samples[samples.Length - 1].time;
      assert Times(s)[0] == t0 && Times(s)[|s| - 1] == last;
      var windowStart := t0;
      var windowStop := t0 + spec.length;
      var ws := [WindowValues(samples[..], windowStart, windowStop)];
      SlideStep(t0, spec, 0);
      windowStart, windowStop := windowStart + spec.slide, windowStop + spec.slide;
      while windowStop <= last
        invariant 1 <= |ws| <= WindowCount(t0, last, spec)
        invariant windowStart == WindowStart(t0, spec, |ws|)
        invariant windowStop == WindowStop(t0, spec, |ws|)
        invariant spec.slide > 0.0 || windowStop > last
        invariant forall j :: 0 <= j < |ws| ==> ws[j] == Windows(s, spec)[j]
        decreases if spec.slide > 0.0 then ((last - windowStop) / spec.slide).Floor else 0
      {
        WindowEmitted(t0, last, spec, |ws|);
        LoopMeasureDecreases(last, windowStop, spec.slide);
        SlideStep(t0, spec, |ws|);
        ws := ws + [WindowValues(samples[..], windowStart, windowStop)];
        windowStart, windowStop := windowStart + spec.slide, windowStop + spec.slide;
      }
      if spec.slide > 0.0 {
        WindowEmitted(t0, last, spec, |ws|);
      }
      assert |ws| == |Windows(s, spec)|;
      assert ws == Windows(s, spec);
      return Ok(ws);
    }

    /** get_values_for_features: one window of every value without windowing, the
        windows of divide_into_windows otherwise. */
    method GetValuesForFeatures() returns (r: Result<seq<seq<real>>>)
      requires HaltsFor(samples[..], windowing)
      ensures r == FeatureWindows(samples[..], windowing)
    {
      if windowing.None? {
        var values := GetSignalValues();
        assert values == Values(samples[..]);
        return Ok([values]);
      }
      r := DivideIntoWindows();
    }

    /** mean, median, standard_deviation, minimum, maximum, variance, kurtosis and
        skewness: the statistic of every window, appended as one [label, values] entry. */
    method ExtractFeature(kind: FeatureKind, name: Label, ext: ExternalStats) returns (outcome: Outcome)
      requires HaltsFor(samples[..], windowing)
      modifies this`features
      ensures outcome == OutcomeOf(ExtractSpec(old(State()), windowing, kind, name, ext))
      ensures State() == ValueOr(ExtractSpec(old(State()), windowing, kind, name, ext), old(State()))
    {
      var windows := GetValuesForFeatures();
      if windows.Err? {
        return Fail(windows.error);
      }
      var featureValues := WindowStatistics(windows.value, kind, ext);
      if featureValues.Err? {
        return Fail(featureValues.error);
      }
      features := features + [Feature(name, featureValues.value)];
      return Pass;
    }

    /** z_normalize: the mean and the variance are computed once, then every value is
        overwritten by (value - mean) / variance. */
    method ZNormalize() returns (outcome: Outcome)
      modifies samples
      ensures outcome == OutcomeOf(ZNormalizeSpec(old(samples[..])))
      ensures samples[..] == ValueOr(ZNormalizeSpec(old(samples[..])), old(samples[..]))
    {
      if samples.Length == 0 {
        return Pass;
      }
      var values := GetSignalValues();
      assert values == Values(samples[..]);
      var mean := Average(values);
      var variance := PopVariance(values);
      if variance == 0.0 {
        return Fail(ZeroVariance);
      }
      ghost var before := samples[..];
      RescaleValues(mean, variance);
      ghost var scores := ZNormalized(values);
      assert forall k :: 0 <= k < samples.Length ==> samples[k] == Sample(before[k].time, scores[k]);
      WithValuesPointwise(samples[..], before, scores);
      return Pass;
    }

    /** The loop of z_normalize: every value x is overwritten, in place and in
        order, by (x - mean) / variance. */
    method RescaleValues(mean: real, variance: real)
      requires variance != 0.0
      modifies samples
      ensures forall k :: 0 <= k < samples.Length ==>
                samples[k] == Sample(old(samples[k]).time, ZScore(old(samples[k]).value, mean, variance))
    {
      ghost var before := samples[..];
      for i := 0 to samples.Length
        invariant forall k :: 0 <= k < i ==> samples[k] == Sample(before[k].time, ZScore(before[k].value, mean, variance))
        invariant forall k :: i <= k < samples.Length ==> samples[k] == before[k]
      {
        samples[i] := Sample(samples[i].time, ZScore(samples[i].value, mean, variance));
      }
    }

    /** One iteration of the outer loop of smooth: for i = 2 .. n-1, value i-1 becomes
        the mean of value i-2 (already overwritten) and value i. */
    method SmoothOnce()
      modifies samples
      ensures samples[..] == WithValues(old(samples[..]), SmoothPass(Values(old(samples[..]))))
    {
      ghost var start := samples[..];
      ghost var passStart := Values(start);
      if samples.Length < 2 {
        WithValuesOfValues(start);
        return;
      }
      var i := 2;
      while i < samples.Length
        invariant 2 <= i <= samples.Length
        invariant forall k :: 0 <= k < samples.Length ==>
                    samples[k] == Sample(start[k].time, PassUpTo(passStart, i)[k])
      {
        ghost var p := PassUpTo(passStart, i);
        ghost var q := PassUpTo(passStart, i + 1);
        assert q == p[i - 1 := (p[i - 2] + p[i]) / 2.0];
        var left, right := samples[i - 2].value, samples[i].value;
        assert left == p[i - 2] && right == p[i];
        samples[i - 1] := Sample(samples[i - 1].time, (left + right) / 2.0);
        assert samples[i - 1] == Sample(start[i - 1].time, q[i - 1]);
        i := i + 1;
      }
      WithValuesPointwise(samples[..], start, PassUpTo(passStart, i));
    }

    /** smooth: `numberOfIterations` passes over i = 2 .. n-1, each setting value i-1
        to the mean of value i-2 and value i. */
    method Smooth(attributes: Attributes) returns (outcome: Outcome)
      modifies samples
      ensures outcome == OutcomeOf(SmoothSpec(old(samples[..]), attributes))
      ensures samples[..] == ValueOr(SmoothSpec(old(samples[..]), attributes), old(samples[..]))
    {
      if IterationsKey !in attributes {
        return Fail(MissingAttribute(IterationsKey));
      }
      var iterations := Iterations(attributes[IterationsKey]);
      ghost var original := Values(samples[..]);
      WithValuesOfValues(samples[..]);
      for j := 0 to iterations
        invariant samples[..] == WithValues(old(samples[..]), Smoothed(original, j))
      {
        WithValuesColumns(old(samples[..]), Smoothed(original, j));
        SmoothOnce();
        WithValuesTwice(old(samples[..]), Smoothed(original, j), Smoothed(original, j + 1));
      }
      return Pass;
    }
  }

}
