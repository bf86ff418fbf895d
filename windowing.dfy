/** The sliding windows of Signal.divide_into_windows, as functions of the samples
    and of the windowing attributes (length, slide). */
module Windowing {
  import opened Common

  /** Start of window k: the first timestamp moved k times by the slide. */
  function WindowStart(t0: real, spec: WindowSpec, k: nat): real
  {
    t0 + (k as real) * spec.slide
  }

  /** Stop of window k: its start plus the window length. */
  function WindowStop(t0: real, spec: WindowSpec, k: nat): (r: real)
    ensures r == WindowStart(t0, spec, k) + spec.length
  {
    t0 + spec.length + (k as real) * spec.slide
  }

  /** The values of the samples whose timestamp lies in [start, stop] (both ends
      included), in sample order: the boolean mask of divide_into_windows. */
  function WindowValues(s: seq<Sample>, start: real, stop: real): (r: seq<real>)
    ensures |r| <= |s|
  {
    if s == [] then []
    else (if start <= s[0].time <= stop then [s[0].value] else []) + WindowValues(s[1..], start, stop)
  }

  /** The samples whose timestamp lies in [lo, hi], in sample order: the rows the
      boolean mask of divide_into_windows selects. */
  function Slice(s: seq<Sample>, lo: real, hi: real): (r: seq<Sample>)
    ensures |r| <= |s|
    ensures forall i :: 0 <= i < |r| ==> lo <= r[i].time <= hi
    ensures forall x :: x in r ==> x in s
  {
    if s == [] then []
    else (if lo <= s[0].time <= hi then [s[0]] else []) + Slice(s[1..], lo, hi)
  }

  /** A window's values are the value column of the selected rows. */
  lemma {:induction false} SliceValues(s: seq<Sample>, lo: real, hi: real)
    ensures Values(Slice(s, lo, hi)) == WindowValues(s, lo, hi)
  {
    if s != [] {
      SliceValues(s[1..], lo, hi);
      var head := if lo <= s[0].time <= hi then [s[0]] else [];
      ValuesConcat(head, Slice(s[1..], lo, hi));
    }
  }

  /** The window of a concatenation is the concatenation of the windows: the mask
      decides every sample on its own. */
  lemma {:induction false} WindowValuesAppend(a: seq<Sample>, b: seq<Sample>, lo: real, hi: real)
    ensures WindowValues(a + b, lo, hi) == WindowValues(a, lo, hi) + WindowValues(b, lo, hi)
  {
    if a == [] {
      assert a + b == b;
    } else {
      assert (a + b)[0] == a[0];
      assert (a + b)[1..] == a[1..] + b;
      WindowValuesAppend(a[1..], b, lo, hi);
    }
  }

  /** A single sample is in the window exactly when its timestamp is in range. */
  lemma WindowValuesOfOne(x: Sample, lo: real, hi: real)
    ensures WindowValues([x], lo, hi) == (if lo <= x.time <= hi then [x.value] else [])
  {
    assert [x][1..] == [];
  }

  /** The loop of divide_into_windows ends: it stops at the first window k >= 1 whose
      stop exceeds the last timestamp, and with a slide <= 0 only window 1 can be that one.
      (Without samples the loop is never reached: reading the first timestamp fails.) */
  predicate Halts(times: seq<real>, spec: WindowSpec)
  {
    |times| == 0 || spec.slide > 0.0 || WindowStop(times[0], spec, 1) > times[|times| - 1]
  }

  /** The number of windows emitted for first timestamp t0 and last timestamp `last`. */
  function WindowCount(t0: real, last: real, spec: WindowSpec): (n: nat)
    requires spec.slide > 0.0 || WindowStop(t0, spec, 1) > last
    ensures n >= 1
  {
    if WindowStop(t0, spec, 1) > last then 1
    else
      QuotientAtLeastOne(last - t0 - spec.length, spec.slide);
      1 + ((last - t0 - spec.length) / spec.slide).Floor
  }

  /** The windows divide_into_windows returns, window k spanning
      [WindowStart(t0, spec, k), WindowStop(t0, spec, k)]. */
  function Windows(s: seq<Sample>, spec: WindowSpec): (ws: seq<seq<real>>)
    requires |s| > 0 && Halts(Times(s), spec)
  {
    seq(WindowCount(s[0].time, s[|s| - 1].time, spec),
        k requires 0 <= k => WindowValues(s, WindowStart(s[0].time, spec, k), WindowStop(s[0].time, spec, k)))
  }

  /** Window k of divide_into_windows is the value column of the samples whose
      timestamp lies in [WindowStart k, WindowStop k]. */
  lemma WindowsAreSlices(s: seq<Sample>, spec: WindowSpec, k: nat)
    requires |s| > 0 && Halts(Times(s), spec) && k < |Windows(s, spec)|
    ensures Windows(s, spec)[k]
              == Values(Slice(s, WindowStart(s[0].time, spec, k), WindowStop(s[0].time, spec, k)))
  {
    SliceValues(s, WindowStart(s[0].time, spec, k), WindowStop(s[0].time, spec, k));
  }

  /** The number of windows depends on the timestamps only. */
  lemma WindowsCountByTimes(s: seq<Sample>, u: seq<Sample>, spec: WindowSpec)
    requires |s| > 0 && Times(s) == Times(u) && Halts(Times(s), spec)
    ensures |u| > 0 && Halts(Times(u), spec) && |Windows(s, spec)| == |Windows(u, spec)|
  {
    assert |s| == |Times(s)| == |Times(u)| == |u|;
    assert s[0].time == Times(s)[0] == Times(u)[0] == u[0].time;
    assert s[|s| - 1].time == Times(s)[|s| - 1] == Times(u)[|u| - 1] == u[|u| - 1].time;
  }

  /** With a positive slide, window k >= 1 is emitted exactly when its stop does not
      exceed the last timestamp; so generation ends at the first window that does. */
  lemma WindowEmitted(t0: real, last: real, spec: WindowSpec, k: nat)
    requires spec.slide > 0.0 && k >= 1
    ensures k < WindowCount(t0, last, spec) <==> WindowStop(t0, spec, k) <= last
  {
    MulMonotone(k as real, spec.slide);
    LeQuotient(k as real, last - t0 - spec.length, spec.slide);
  }

  /** With a slide <= 0 whose first step does not pass the last timestamp, no later
      window passes it either: the loop of divide_into_windows would run forever. */
  lemma NonPositiveSlideNeverStops(t0: real, last: real, spec: WindowSpec, k: nat)
    requires spec.slide <= 0.0 && WindowStop(t0, spec, 1) <= last && k >= 1
    ensures WindowStop(t0, spec, k) <= last
  {
    MulMonotoneNonPositive(k as real, spec.slide);
  }

  /** A window holding every timestamp holds every value, in order. */
  lemma {:induction false} WindowOfAll(s: seq<Sample>, start: real, stop: real)
    requires forall i :: 0 <= i < |s| ==> start <= s[i].time <= stop
    ensures WindowValues(s, start, stop) == Values(s)
  {
    if s != [] {
      assert forall i :: 0 <= i < |s[1..]| ==> s[1..][i] == s[i + 1];
      WindowOfAll(s[1..], start, stop);
      assert Values(s) == [s[0].value] + Values(s[1..]);
    }
  }

  /** For sorted timestamps, a window length that covers the whole duration yields
      exactly one window, and it holds every value. */
  lemma OneWindowWhenLengthCoversDuration(s: seq<Sample>, spec: WindowSpec)
    requires |s| > 0 && SortedByTime(s) && Halts(Times(s), spec)
    requires spec.length >= s[|s| - 1].time - s[0].time
    ensures Windows(s, spec) == [Values(s)]
  {
    var t0 := s[0].time;
    SingleWindowCount(s, spec);
    FirstWindow(s, spec, t0);
    FirstWindowHoldsAll(s, spec, t0);
    var ws := Windows(s, spec);
    assert ws == [ws[0]];
  }

  lemma SingleWindowCount(s: seq<Sample>, spec: WindowSpec)
    requires |s| > 0 && Halts(Times(s), spec)
    requires spec.length >= s[|s| - 1].time - s[0].time
    ensures |Windows(s, spec)| == 1
  {
    assert Times(s)[0] == s[0].time && Times(s)[|s| - 1] == s[|s| - 1].time;
    CountIsOne(s[0].time, s[|s| - 1].time, spec);
  }

  lemma FirstWindowHoldsAll(s: seq<Sample>, spec: WindowSpec, t0: real)
    requires |s| > 0 && SortedByTime(s) && t0 == s[0].time
    requires spec.length >= s[|s| - 1].time - t0
    ensures WindowValues(s, t0, t0 + spec.length) == Values(s)
  {
    forall i | 0 <= i < |s| ensures t0 <= s[i].time <= t0 + spec.length {
      assert s[0].time <= s[i].time <= s[|s| - 1].time;
    }
    WindowOfAll(s, t0, t0 + spec.length);
  }

  /** Window 0 spans [t0, t0 + length]. */
  lemma FirstWindow(s: seq<Sample>, spec: WindowSpec, t0: real)
    requires |s| > 0 && Halts(Times(s), spec) && t0 == s[0].time
    ensures Windows(s, spec)[0] == WindowValues(s, t0, t0 + spec.length)
  {
    FirstWindowBounds(s, spec, t0);
  }

  lemma FirstWindowBounds(s: seq<Sample>, spec: WindowSpec, t0: real)
    ensures WindowValues(s, WindowStart(t0, spec, 0), WindowStop(t0, spec, 0)) == WindowValues(s, t0, t0 + spec.length)
  {
    assert WindowStart(t0, spec, 0) == t0;
    assert WindowStop(t0, spec, 0) == t0 + spec.length;
  }

  lemma CountIsOne(t0: real, last: real, spec: WindowSpec)
    requires spec.slide > 0.0 || WindowStop(t0, spec, 1) > last
    requires spec.length >= last - t0
    ensures WindowCount(t0, last, spec) == 1
  {
  }

  /** A value is in a window exactly when some sample in the window's range carries it. */
  lemma {:induction false} WindowMembers(s: seq<Sample>, start: real, stop: real, x: real)
    ensures x in WindowValues(s, start, stop) <==>
            exists i :: 0 <= i < |s| && start <= s[i].time <= stop && s[i].value == x
  {
    if s != [] {
      WindowMembers(s[1..], start, stop, x);
      if x in WindowValues(s[1..], start, stop) {
        var i :| 0 <= i < |s[1..]| && start <= s[1..][i].time <= stop && s[1..][i].value == x;
        assert s[i + 1] == s[1..][i];
      }
      if exists i :: 0 <= i < |s| && start <= s[i].time <= stop && s[i].value == x {
        var i :| 0 <= i < |s| && start <= s[i].time <= stop && s[i].value == x;
        if i > 0 {
          assert s[1..][i - 1] == s[i];
        }
      }
    }
  }

  /** Moving window k by the slide gives window k + 1. */
  lemma SlideStep(t0: real, spec: WindowSpec, k: nat)
    ensures WindowStart(t0, spec, k) + spec.slide == WindowStart(t0, spec, k + 1)
    ensures WindowStop(t0, spec, k) + spec.slide == WindowStop(t0, spec, k + 1)
  {
  }

  /** With a positive slide, the number of further windows that fit before the last
      timestamp is a natural number that one step decreases by one. */
  lemma LoopMeasureDecreases(last: real, stop: real, slide: real)
    requires slide > 0.0 && stop <= last
    ensures ((last - stop) / slide).Floor >= 0
    ensures ((last - (stop + slide)) / slide).Floor == ((last - stop) / slide).Floor - 1
  {
    var q := (last - stop) / slide;
    assert q * slide == last - stop;
    assert (q - 1.0) * slide == q * slide - slide;
    assert (q - 1.0) * slide == last - (stop + slide);
    QuotientOfProduct(last - (stop + slide), slide, q - 1.0);
  }

  // Small facts of real arithmetic used above.

  lemma QuotientOfProduct(x: real, d: real, y: real)
    requires d != 0.0 && y * d == x
    ensures x / d == y
  {
  }

  lemma QuotientAtLeastOne(a: real, d: real)
    requires d > 0.0 && a >= d
    ensures a / d >= 1.0
  {
  }

  lemma MulMonotone(k: real, d: real)
    requires k >= 1.0 && d > 0.0
    ensures k * d >= d
  {
  }

  lemma MulMonotoneNonPositive(k: real, d: real)
    requires k >= 1.0 && d <= 0.0
    ensures k * d <= d
  {
  }

  lemma LeQuotient(k: real, a: real, d: real)
    requires d > 0.0
    ensures k * d <= a <==> k <= a / d
  {
  }
}
