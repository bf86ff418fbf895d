# FIZEMO signal core, modelled in Dafny

FIZEMO extracts statistical features from time-stamped biosignal recordings. A
`Scenario` sorts its step descriptors by `order` and calls each one by name on a
`Signal`. A step is a transform (`z_normalize`, `smooth`), which rewrites the
sample values in place, or a feature extractor (`mean`, `median`,
`standard_deviation`, `minimum`, `maximum`, `variance`, `kurtosis`, `skewness`),
which appends one `[label, values]` entry to `Signal.features`. `values` holds
one statistic per window. Without windowing there is a single window holding
every value. With windowing (`length`, `slide`), window k spans
`[t0 + k·slide, t0 + length + k·slide]`, where `t0` is the first timestamp.
Windows are produced until one stops after the last timestamp. `write_csv` turns
the features into rows.

The model follows the source's own shape:

| file | module | models |
|---|---|---|
| `common.dfy` | `Common` | samples, feature entries, labels, attribute bags, errors, the value and timestamp columns |
| `stats.dfy` | `Stats` | mean, population variance, minimum, maximum, and the algebra of z-normalisation |
| `windowing.dfy` | `Windowing` | window bounds, window contents, window count, termination of the window loop |
| `smoothing.dfy` | `Smoothing` | the value column after each smoothing pass |
| `signal.dfy` | `Signals` | `class Signal` of `signal.py` (samples in an `array`, features in a `seq`), and the pure specification of each of its operations |
| `scenario.dfy` | `Scenarios` | `class Scenario` of `scenario.py`: stable sort, dispatch by name, the three call shapes, the run of a step list, the CSV rows |
| `classes.dfy` | `Classes` | `class Signal` of `classes.py` and its `update_values` |

Every method that changes state is proved against a function, in one of two ways:
- `ensures State() == ValueOr(ExtractSpec(old(State()), …), old(State()))`
- `ensures samples[..] == ValueOr(ZNormalizeSpec(old(samples[..])), …)`

The lemmas state what the source promises about those functions.

Two facts about the code that the model keeps:
- With samples at times 0..4, length 2 and slide 1, the windowing loop emits the
  three windows [0, 2], [1, 3] and [2, 4]. Window [3, 5] stops after the last
  timestamp, so the loop breaks before appending it (`ExampleWindows`).
- `scenario.py` dispatches every step to the `Signal`. Windowing is the
  `Signal`'s own `windowing_attr`, and a `Scenario` creates its signal without
  windowing.

`z_normalize` divides by the population variance, not by the standard deviation.
The model keeps this divisor. `ZNormalizedVariance` shows the consequence: the
result has variance 1/v, not 1.

## Model

| member | source | states |
|---|---|---|
| Stats.ZNormalized | signal.py:109-117 | element i is (x_i − m)/v, where m is the mean and v the population variance of the input; the length is kept |
| Stats.ZScore | signal.py:116 | the new value of one sample: (x − mean) / variance (a definition; ZNormalizeValues uses it) |
| Stats.ZNormalizedMean | signal.py:109-117 | the z-normalised values have mean 0 |
| Stats.ZNormalizedVariance | signal.py:112-117 | the z-normalised values have population variance 1/v, because the divisor is the variance and not its square root |
| Stats.Average | signal.py:112 | np.mean of a non-empty list: the sum of the values divided by their count (a definition; AverageWithinRange and ZNormalizedMean state its properties) |
| Stats.AverageWithinRange | signal.py:178-179 | the mean of a non-empty window lies between its minimum and its maximum |
| Stats.PopVariance | signal.py:113 | np.var of a non-empty list: the mean squared deviation from the mean, divisor n (a definition; PopVarianceNonNegative, ConstantHasZeroVariance and ZNormalizedVariance state its properties) |
| Stats.ConstantHasZeroVariance | signal.py:112-116 | a non-empty list of equal values has that value as its mean and variance 0, the divisor z_normalize would then use |
| Stats.PopVarianceNonNegative | signal.py:113 | the variance np.var computes is never negative |
| Stats.Min | signal.py:231 | np.min of a non-empty window is one of its elements and ≤ every element |
| Stats.Max | signal.py:248 | np.max of a non-empty window is one of its elements and ≥ every element |
| Windowing.WindowValues | signal.py:332-336 | the values of the in-range samples, in sample order and at most one per sample; SliceValues, WindowValuesAppend and WindowValuesOfOne characterise it completely |
| Windowing.Slice | signal.py:332-334 | the rows the mask selects: every one is a row of the signal with start ≤ time ≤ stop, and there are at most as many as rows |
| Windowing.SliceValues | signal.py:332-336 | a window's values are exactly the value column of the rows the mask selects |
| Windowing.WindowValuesAppend | signal.py:332-336 | the window of a concatenation is the concatenation of the windows: each row is selected on its own |
| Windowing.WindowValuesOfOne | signal.py:332-336 | a single row is in the window exactly when its timestamp is in [start, stop] |
| Windowing.WindowStart | signal.py:329-339 | the start of window k is the first timestamp plus k slides (a definition; SlideStep relates consecutive windows) |
| Windowing.WindowStop | signal.py:330-340 | the stop of window k is its start plus the window length |
| Windowing.SlideStep | signal.py:339-340 | adding the slide to the start and stop of window k gives window k + 1 |
| Windowing.Halts | signal.py:338-343 | the window loop breaks: always with a positive slide, otherwise only if window 1 already stops after the last timestamp (a definition; NonPositiveSlideNeverStops shows the other case loops) |
| Windowing.Windows | signal.py:326-351 | the returned list: WindowCount windows, window k holding the values in [WindowStart k, WindowStop k] (a definition; WindowsAreSlices, WindowEmitted and WindowOfAll state its properties) |
| Windowing.WindowsAreSlices | signal.py:326-351 | window k is the value column of the rows whose timestamp lies in [t0 + k·slide, t0 + length + k·slide] |
| Windowing.WindowMembers | signal.py:332-336 | x is in a window iff some sample with start ≤ time ≤ stop carries x |
| Windowing.WindowOfAll | signal.py:332-336 | a window whose range covers every timestamp holds every value, in sample order |
| Windowing.WindowCount | signal.py:335-343 | the first window is always emitted, so there is at least one window |
| Windowing.WindowEmitted | signal.py:338-343 | with a positive slide, window k ≥ 1 is emitted iff its stop t0+length+k·slide ≤ the last timestamp |
| Windowing.NonPositiveSlideNeverStops | signal.py:338-343 | with slide ≤ 0 and window 1 inside the range, every later window's stop is ≤ the last timestamp, so the loop never breaks |
| Windowing.OneWindowWhenLengthCoversDuration | signal.py:326-351 | for sorted timestamps, length ≥ last − first gives exactly one window, holding every value |
| Windowing.WindowsCountByTimes | signal.py:329-342 | the window count depends only on the timestamps |
| Smoothing.PassUpToShape | signal.py:140-141 | after steps 2..i−1 of a pass, value 0 is untouched, each value k ≤ i−2 is the mean of the new value k−1 and the old value k+1, and values from i−1 on are untouched |
| Smoothing.SmoothPassShape | signal.py:140-141 | one pass keeps both ends and sets each inner value to the mean of its already-updated left neighbour and its old right neighbour |
| Smoothing.ShortSignalUnchanged | signal.py:133-141 | fewer than three values are never changed, whatever the iteration count |
| Smoothing.SmoothedKeepsEnds | signal.py:133-141 | the first and last values never change |
| Smoothing.ConstantIsFixed | signal.py:139-141 | a constant signal is left as it is by any number of passes |
| Smoothing.PassUpTo | signal.py:140-141 | the value column after the inner loop has run up to index i; the length is kept (PassUpToShape states the values) |
| Smoothing.SmoothPass | signal.py:140-141 | one run of the inner loop over all indices 2..n−1; the length is kept (SmoothPassShape states the values) |
| Smoothing.Smoothed | signal.py:139-141 | n runs of the inner loop in turn; the length is kept (ShortSignalUnchanged, SmoothedKeepsEnds and ConstantIsFixed state the values) |
| Signals.DefaultLabelsDistinct | signal.py:166-300 | the eight default labels ("Mean", "Median", "Standard deviation", "Minimum", "Maximum", "Variance", "Kurtosis", "Skewness") are pairwise different |
| Signals.DefaultLabel | signal.py:166-286 | the default `attr` of each of the eight extractors (a definition; DefaultLabelsDistinct states they differ) |
| Signals.Statistic | signal.py:178-298 | only minimum and maximum fail, and only on an empty window (ValueError) |
| Signals.FeatureValues | signal.py:176-181 | succeeds iff every window's statistic does; then one value per window, value i being the statistic of window i |
| Signals.WindowStatistics | signal.py:176-179 | the per-window loop of an extractor returns exactly what FeatureValues gives: one statistic per window in window order, or EmptyWindow at the first window min/max rejects |
| Signals.FeatureWindows | signal.py:310-324 | fails exactly when a windowed signal is empty, with IndexError; otherwise one window per value every feature entry holds (Width) |
| Signals.HaltsFor | signal.py:319-322 | the loop of get_values_for_features ends: always without windowing, otherwise when divide_into_windows' loop does (a definition) |
| Signals.Width | signal.py:310-351 | the number of values each feature entry holds: 1 without windowing, else the window count (a definition; WidthByTimes and RunKeepsUniform use it) |
| Signals.ExtractSpec | signal.py:166-181 | an extractor's effect on the state: the windows, the statistic of each, one appended entry (a definition; ExtractAppendsOne, ExtractFailure and WindowedExtractionBySlices state its properties) |
| Signals.WindowedExtractionBySlices | signal.py:176-181 | value k of a windowed extraction equals the single value the same extractor gives, without windowing, on the rows of window k |
| Signals.ZNormalizeSpec | signal.py:109-117 | z_normalize on the sample list: empty is kept, a constant list is rejected, else every value is rescaled (a definition; ZNormalizeValues, ConstantSignalRejected, ZNormalizedMean and ZNormalizedVariance state its properties) |
| Signals.ConstantSignalRejected | signal.py:109-117 | a non-empty signal whose values are all equal gives ZeroVariance |
| Signals.SmoothSpec | signal.py:119-141 | smooth on the sample list: KeyError without `numberOfIterations`, else that many passes over the value column with the timestamps kept (a definition; TransformsKeepTimes, SmoothWithoutIterations and SmoothKeepsEnds state its properties) |
| Signals.Iterations | signal.py:139 | the number of passes range(int(n)) runs: for n ≥ 0 the whole part of n, and none for n < 1 |
| Signals.Truncate | signal.py:139 | int() truncates toward zero |
| Signals.WidthByTimes | signal.py:310-351 | whether windowing terminates, and the number of values per feature, depend only on the timestamps |
| Signals.ExtractAppendsOne | signal.py:166-181 | an extractor appends exactly one entry; earlier entries and the samples are untouched; the entry carries the given label and one statistic per window, in window order |
| Signals.ExtractFailure | signal.py:176-181 | extraction fails iff windowing an empty signal, or minimum/maximum meets an empty window |
| Signals.ExtremaAreWindowElements | signal.py:218-250 | each stored minimum (maximum) is an element of its window, ≤ (≥) every element of it |
| Signals.TransformsKeepTimes | signal.py:109-141 | z_normalize and smooth keep every timestamp and the sample count |
| Signals.ZNormalizeValues | signal.py:109-117 | sample i becomes (time_i, (x_i − m)/v), with m and v computed once from the old values |
| Signals.SmoothWithoutIterations | signal.py:139 | a numberOfIterations below 1 runs no pass and leaves the samples unchanged |
| Signals.SmoothKeepsEnds | signal.py:133-141 | smoothing keeps the first and last samples, and leaves fewer than three samples unchanged |
| Signals.ExampleMean | signal.py:166-181 | samples (0,1)…(4,5) without windowing: mean gives the single entry ["Mean", [3.0]] |
| Signals.ExampleWindows | signal.py:326-351 | the same samples with length 2 and slide 1 give the windows [1,2,3], [2,3,4], [3,4,5] |
| Signals.Signal.constructor | signal.py:58-77 | the samples as given, the windowing as given, no features |
| Signals.Signal.GetSignalValues | signal.py:302-308 | one value per sample; element i is the value of sample i |
| Common.Values | signal.py:302-308 | the value column: one value per sample, value i of sample i |
| Common.Times | signal.py:329-341 | the timestamp column: one timestamp per sample, timestamp i of sample i |
| Common.WithValues | signal.py:115-117 | the samples with value i replaced by the i-th new value and every timestamp kept |
| Signals.Signal.DivideIntoWindows | signal.py:326-351 | the windows of `Windows` (window k spans [t0+k·slide, t0+length+k·slide], and windows run until one stops after the last timestamp); IndexError on an empty signal |
| Signals.Signal.GetValuesForFeatures | signal.py:310-324 | no windowing gives exactly one window equal to the whole value list; otherwise the windows of divide_into_windows |
| Signals.Signal.ExtractFeature | signal.py:166-300 | the new state is the one ExtractSpec gives: one entry appended on success, nothing changed on failure |
| Signals.Signal.ZNormalize | signal.py:109-117 | the samples become those ZNormalizeSpec gives, computed in place |
| Signals.Signal.RescaleValues | signal.py:115-117 | the loop of z_normalize: every sample keeps its timestamp and its value x becomes (x − mean)/variance, in place |
| Signals.Signal.SmoothOnce | signal.py:140-141 | one in-place pass leaves the value column SmoothPass gives, with the timestamps kept |
| Signals.Signal.Smooth | signal.py:119-141 | the samples become those SmoothSpec gives (int(numberOfIterations) passes), or KeyError without that key |
| Scenarios.SortByOrderPermutation | scenario.py:27-28 | sorting the steps is a permutation |
| Scenarios.SortByOrderSorted | scenario.py:27-28 | sorting yields non-decreasing `order` |
| Scenarios.SortByOrderStable | scenario.py:27-28 | sorting is stable: steps of equal order keep their relative order |
| Scenarios.InsertByOrder | scenario.py:28 | one step inserted before the first step of no smaller order; one step longer (InsertByOrderMultiset, InsertByOrderSorted and InsertByOrderWithOrder state the rest) |
| Scenarios.SortByOrder | scenario.py:27-28 | the steps sorted by insertion; same length (SortByOrderPermutation, SortByOrderSorted and SortByOrderStable state the rest) |
| Scenarios.InsertByOrderMultiset | scenario.py:28 | inserting one step adds exactly that step to the multiset of steps |
| Scenarios.InsertByOrderSorted | scenario.py:28 | inserting into a list sorted by order keeps it sorted |
| Scenarios.InsertByOrderWithOrder | scenario.py:28 | inserting a step puts it before every step of its own order already present |
| Scenarios.Lookup | scenario.py:34 | a name found is the name of the operation found; otherwise the AttributeError / TypeError getattr or the call raises |
| Scenarios.OpName | scenario.py:34 | the Python method name of each modelled operation (a definition; LookupOpName states Lookup inverts it) |
| Scenarios.LookupOpName | scenario.py:34 | Lookup(name) = Ok(op) iff name is op's Python name |
| Scenarios.CallShape | scenario.py:35-40 | no argument iff attributes and label are both absent; attributes only iff the label is absent and the attributes present; the label whenever it is present |
| Scenarios.LabelHidesAttributes | scenario.py:39-40 | with a label present, the attributes never affect the call |
| Scenarios.LabelFor | scenario.py:35-40 | the label an extractor stores under each call shape: its default, the attribute bag, or the output label (a definition; LabelHidesAttributes and ExtractorStep use it) |
| Scenarios.Invoke | scenario.py:34-40 | a call keeps the timestamps and only appends feature entries; the three queries change nothing; divide_into_windows on an empty signal raises IndexError before it reads the windowing |
| Scenarios.ApplyStep | scenario.py:34-40 | an unknown name fails at that step with the lookup error; a step keeps the timestamps and only appends entries |
| Scenarios.Run | scenario.py:33-40 | a run keeps the timestamps and only appends entries |
| Scenarios.RunAppend | scenario.py:33-40 | running a + b is running a, then b on the state a leaves, unless a failed |
| Scenarios.RunFailsAt | scenario.py:33-40 | if step k is the first to fail, the run fails with its error, later steps do not run, and earlier effects remain |
| Scenarios.RunPassesEveryStep | scenario.py:33-40 | in a successful run every step ran, each on the state the steps before it left |
| Scenarios.RunSnoc | scenario.py:33-40 | after a successful run, one more successful step ends the run in that step's result |
| Scenarios.RunExtend | scenario.py:33-40 | when steps 0..i−1 succeed and step i succeeds on what they left, the run of steps 0..i ends in step i's result |
| Scenarios.UnknownNameStopsRun | scenario.py:34 | a step whose name is not an operation makes the run fail |
| Scenarios.ExtractorStep | scenario.py:34-40 | a step naming an extractor is that extraction, with the label its call shape gives |
| Scenarios.ExtractorStepEffect | scenario.py:34-40 | a successful extractor step keeps the samples and appends exactly one entry, labelled by its call shape |
| Scenarios.NonExtractorStep | scenario.py:34-40 | a successful step that is not an extractor leaves the feature entries as they are |
| Scenarios.RunOfExtractors | scenario.py:33-40 | a successful run of n extractor steps appends n entries, in step order, each labelled by its call shape, and leaves the samples alone |
| Scenarios.ApplyStepKeepsUniform | scenario.py:33-40 | a step keeps every feature entry at one value per window |
| Scenarios.RunKeepsUniform | scenario.py:33-40 | a run keeps every feature entry at one value per window |
| Scenarios.Scenario.constructor | scenario.py:21-24 | the signal is created with the given samples, no windowing and no features |
| Scenarios.Scenario.SortMethodsByOrder | scenario.py:27-28 | the steps become SortByOrder of the old steps |
| Scenarios.Scenario.Apply | scenario.py:34-40 | one dispatched step: the outcome and the new signal state are those ApplyStep gives |
| Scenarios.Scenario.ProcessMethods | scenario.py:31-40 | sorts first, then the outcome and the final signal state are those Run gives over the sorted steps |
| Scenarios.Scenario.RunMethods | scenario.py:33-40 | the loop over the step list: the outcome and the final signal state are those Run gives, stopping at the first failing step |
| Scenarios.Scenario.CsvRows | scenario.py:43-50 | no rows without features; otherwise the header ["Feature", "Value"], then one [label, values] row per feature, in order |
| Classes.Signal.constructor | classes.py:5-6 | both lists start empty |
| Classes.Signal.UpdateValues | classes.py:12-15 | the value list becomes the value column of the samples: same length, element i is value i; the old list is discarded, so a second call changes nothing; the samples are not touched |

## Left out

- decimate, get_phase_part and draw_plot (signal.py:79-107, 143-164): signal filtering and plotting. A step naming one fails with `Unmodelled`.
- The numeric bodies of np.median, np.std, scipy.stats.kurtosis and scipy.stats.skew: the model takes them as the parameter `ExternalStats`, with no property assumed.
- Floating point: values are exact reals, so rounding and overflow are not modelled. NaN appears only as the result numpy gives for an empty window.
- Integer sample columns: pandas would load an integer CSV into an integer array, which would truncate the values the transforms write back. The model assumes float columns.
- Reading the CSV file in `Signal.__init__`: the model's constructor takes the rows as given.
- Writing the CSV file in `write_csv`, including the file name with the current date: `CsvRows` models only the rows. A cell holds the label or the value list itself, not its `str()` text.
- Signals.ZNormalizeSpec: on a non-empty constant signal (variance 0), numpy writes NaN or ±inf and continues. The model reports `ZeroVariance` and leaves the samples unchanged, and a run stops at that step; later steps do not run.
- Signals.SmoothSpec: attribute values are numbers only. A string count such as "3", which int() would accept, is not modelled.
- Signals.Signal.DivideIntoWindows: a windowing bag without "length" or "slide" (a KeyError) cannot be expressed. `WindowSpec` always has both.
- Signals.Signal.DivideIntoWindows: the loop does not end when slide ≤ 0 and window 1 still fits (`NonPositiveSlideNeverStops`). The methods that window therefore require `Halts`, as the source gives no error path.
- Scenarios.Lookup: `getattr` also finds attributes every Python object inherits. Calling `__repr__` succeeds and changes nothing; calling `__doc__` raises TypeError. The model rejects every name outside Signal's methods and data attributes with `UnknownOperation`, and the run stops there.
- Scenarios.Scenario.constructor: `scenario.py` keeps a reference to the caller's list, so sorting it also reorders the caller's list. The model copies the list into the field; aliasing is not modelled.
- Scenarios.Scenario.ProcessMethods: an exception ends the run. It is modelled as a `Fail` outcome, leaving the state as it was after the last successful step.
- Classes.Signal: in classes.py, signalSamples and signalValues are class attributes, shared by every instance. The model gives each object its own fields, so aliasing between instances is not captured.
