/** Vocabulary shared by the signal, its windowing and the scenario executor:
    samples, feature entries and their labels, attribute bags and step errors. */
module Common {

  /** One row of a recording: a timestamp and the value measured at it. */
  datatype Sample = Sample(time: real, value: real)

  /** A per-window statistic. numpy yields NaN for the mean, variance, median, ...
      of an empty window; every other result is a finite real. */
  datatype Number = Finite(x: real) | NaN

  /** A JSON parameter bag such as {"numberOfIterations": 3} (numeric entries only). */
  type Attributes = map<string, real>

  /** The label stored with a feature entry: whatever the extractor was called with,
      a string, or the attribute bag when a step passes attributes to an extractor. */
  datatype Label = Text(text: string) | Bag(bag: Attributes)

  /** One entry of Signal.features: a label and one value per window. */
  datatype Feature = Feature(name: Label, values: seq<Number>)

  /** The windowing attributes {"length": ..., "slide": ...} of a signal. */
  datatype WindowSpec = WindowSpec(length: real, slide: real)

  /** The ways a step can fail. */
  datatype Error =
    | UnknownOperation(name: string)  // AttributeError: getattr finds no such attribute
    | NotCallable(name: string)       // TypeError: the attribute is data, not a method
    | Unmodelled(name: string)        // a Signal method outside this model
    | ArgumentMismatch                // TypeError: the call shape does not fit the operation
    | MissingAttribute(key: string)   // KeyError on the attribute bag
    | EmptyWindow                     // ValueError: np.min / np.max of an empty window
    | NoSamples                       // IndexError: signal_samples[0, 0] of an empty signal
    | NoWindowing                     // TypeError: windowing_attributes["length"] on None
    | ZeroVariance                    // z-normalisation of a constant, non-empty signal

  datatype Option<T> = None | Some(value: T)

  datatype Result<T> = Ok(value: T) | Err(error: Error)

  datatype Outcome = Pass | Fail(error: Error)

  function OutcomeOf<T>(r: Result<T>): Outcome
  {
    if r.Ok? then Pass else Fail(r.error)
  }

  /** The new value after an operation: its result when it succeeded, the old value otherwise. */
  function ValueOr<T>(r: Result<T>, previous: T): T
  {
    if r.Ok? then r.value else previous
  }

  /** The value column of a sample sequence. */
  function Values(s: seq<Sample>): (r: seq<real>)
    ensures |r| == |s|
    ensures forall i :: 0 <= i < |s| ==> r[i] == s[i].value
  {
    if s == [] then [] else [s[0].value] + Values(s[1..])
  }

  /** The value column of a concatenation is the concatenation of the columns. */
  lemma ValuesConcat(a: seq<Sample>, b: seq<Sample>)
    ensures Values(a + b) == Values(a) + Values(b)
  {
  }

  /** The timestamp column of a sample sequence. */
  function Times(s: seq<Sample>): (r: seq<real>)
    ensures |r| == |s|
    ensures forall i :: 0 <= i < |s| ==> r[i] == s[i].time
  {
    if s == [] then [] else [s[0].time] + Times(s[1..])
  }

  /** The samples `s` with their value column replaced by `vs`, timestamps kept. */
  function WithValues(s: seq<Sample>, vs: seq<real>): (r: seq<Sample>)
    requires |vs| == |s|
    ensures |r| == |s|
    ensures forall i :: 0 <= i < |s| ==> r[i] == Sample(s[i].time, vs[i])
  {
    seq(|s|, i requires 0 <= i < |s| => Sample(s[i].time, vs[i]))
  }

  /** Samples that agree pointwise with `s` on timestamps and with `vs` on values
      are WithValues(s, vs). */
  lemma WithValuesPointwise(a: seq<Sample>, s: seq<Sample>, vs: seq<real>)
    requires |a| == |s| == |vs|
    requires forall k :: 0 <= k < |a| ==> a[k] == Sample(s[k].time, vs[k])
    ensures a == WithValues(s, vs)
  {
  }

  /** Replacing the value column keeps the timestamp column and yields the new values. */
  lemma WithValuesColumns(s: seq<Sample>, vs: seq<real>)
    requires |vs| == |s|
    ensures Times(WithValues(s, vs)) == Times(s)
    ensures Values(WithValues(s, vs)) == vs
  {
    var r := WithValues(s, vs);
    assert forall i :: 0 <= i < |s| ==> Times(r)[i] == Times(s)[i];
    assert forall i :: 0 <= i < |s| ==> Values(r)[i] == vs[i];
  }

  /** Writing back the values a sample sequence already has changes nothing. */
  lemma WithValuesOfValues(s: seq<Sample>)
    ensures WithValues(s, Values(s)) == s
  {
    assert forall i :: 0 <= i < |s| ==> WithValues(s, Values(s))[i] == s[i];
  }

  /** Replacing the value column twice is replacing it once, by the second column. */
  lemma WithValuesTwice(s: seq<Sample>, a: seq<real>, b: seq<real>)
    requires |a| == |s| && |b| == |s|
    ensures WithValues(WithValues(s, a), b) == WithValues(s, b)
  {
    assert forall i :: 0 <= i < |s| ==> WithValues(WithValues(s, a), b)[i] == WithValues(s, b)[i];
  }

  /** Timestamps are non-decreasing. */
  predicate SortedByTime(s: seq<Sample>)
  {
    forall i, j :: 0 <= i <= j < |s| ==> s[i].time <= s[j].time
  }
}
