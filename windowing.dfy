/**
 * The sliding-window dataset builder: every window of `lookBack + lookAhead`
 * consecutive prices is row-normalised with the mean and the standard deviation
 * of its first `lookBack` prices (its context), and becomes one sample whose
 * input is the normalised context and whose target is the normalised last price.
 */
module Windowing {
  import opened Results
  import opened PySeq

  /** numpy's `std` of a context. Its value is left abstract (there is no square
      root here); the model only relies on it being a function of the context. */
  type StdFn = seq<real> -> real

  /** The four aligned lists the builder returns: per-window mean and standard
      deviation, normalised input rows and normalised targets. */
  datatype Dataset = Dataset(means: seq<real>, sds: seq<real>, inputs: seq<seq<real>>, targets: seq<real>)

  datatype BuildError =
    | NoWindows                // the series yields no window, so nothing can be stacked
    | DegenerateWindow(end: nat) // the window ending before `end` has an empty context or a zero deviation

  /** `(v - m) / s`: a value measured in deviations from the mean. It is zero exactly
      at the mean and, for a positive deviation, positive exactly above it. */
  function Normalize(v: real, m: real, s: real): (r: real)
    requires s != 0.0
    ensures r == 0.0 <==> v == m
    ensures s > 0.0 ==> (r > 0.0 <==> v > m)
  {
    (v - m) / s
  }

  /** The vectorised `(window - wm) / ws`. */
  function NormalizeAll(vs: seq<real>, m: real, s: real): (r: seq<real>)
    requires s != 0.0
    ensures |r| == |vs|
  {
    seq(|vs|, j requires 0 <= j < |vs| => Normalize(vs[j], m, s))
  }

  /** The window `X[i - lookBack - lookAhead : i]` that ends just before index `i`. */
  function Window(xs: seq<real>, lookBack: nat, lookAhead: nat, i: nat): (w: seq<real>)
    requires lookBack + lookAhead <= i <= |xs|
    ensures |w| == lookBack + lookAhead
  {
    xs[i - lookBack - lookAhead .. i]
  }

  /** `window[:-lookAhead]`: the first `lookBack` prices of the window, and nothing
      at all when `lookAhead` is 0 (Python's `[:-0]`) or `lookBack` is 0. */
  function Context(xs: seq<real>, lookBack: nat, lookAhead: nat, i: nat): (c: seq<real>)
    requires lookBack + lookAhead <= i <= |xs|
    ensures |c| == if 0 < lookAhead then lookBack else 0
  {
    DropLast(Window(xs, lookBack, lookAhead, i), lookAhead)
  }

  /** The context is exactly the prices `xs[i - lookBack - lookAhead .. i - lookAhead]`,
      except that a `lookAhead` of 0 leaves it empty. */
  lemma ContextIsFirstLookBack(xs: seq<real>, lookBack: nat, lookAhead: nat, i: nat)
    requires lookBack + lookAhead <= i <= |xs|
    ensures Context(xs, lookBack, lookAhead, i)
         == if 0 < lookAhead then xs[i - lookBack - lookAhead .. i - lookAhead] else []
  {
  }

  /** `std` behaves as numpy's population standard deviation: on every nonempty
      context it is the nonnegative square root of the variance. */
  ghost predicate IsStd(std: StdFn)
  {
    forall c :: |c| > 0 ==> std(c) >= 0.0 && Square(std(c)) == Variance(c)
  }

  /** With a genuine standard deviation, a window whose context holds one price
      throughout is degenerate, so the builder stops there with an error. */
  lemma ConstantContextIsDegenerate(xs: seq<real>, lookBack: nat, lookAhead: nat, std: StdFn, i: nat)
    requires IsStd(std)
    requires lookBack + lookAhead <= i <= |xs|
    requires forall j :: i - lookBack - lookAhead <= j < i - lookAhead ==> xs[j] == xs[i - lookBack - lookAhead]
    ensures Degenerate(xs, lookBack, lookAhead, std, i)
  {
    var c := Context(xs, lookBack, lookAhead, i);
    if |c| > 0 {
      ContextIsFirstLookBack(xs, lookBack, lookAhead, i);
      assert forall j :: 0 <= j < |c| ==> c[j] == xs[i - lookBack - lookAhead + j];
      ConstantHasZeroVariance(c);
      if std(c) > 0.0 {
        PositiveSquare(std(c));
      }
    }
  }

  /** The square of a positive number is positive. */
  lemma PositiveSquare(x: real)
    requires x > 0.0
    ensures Square(x) > 0.0
  {
    assert Square(x) / x == x;
  }

  /** The window's statistics are unusable: its context is empty (numpy's mean is
      NaN) or its deviation is zero (the division yields non-finite values). */
  predicate Degenerate(xs: seq<real>, lookBack: nat, lookAhead: nat, std: StdFn, i: nat)
    requires lookBack + lookAhead <= i <= |xs|
    ensures Degenerate(xs, lookBack, lookAhead, std, i) <==>
      (lookBack == 0 || lookAhead == 0 || std(xs[i - lookBack - lookAhead .. i - lookAhead]) == 0.0)
  {
    ContextIsFirstLookBack(xs, lookBack, lookAhead, i);
    var c := Context(xs, lookBack, lookAhead, i);
    |c| == 0 || std(c) == 0.0
  }

  /** The series yields at least one window and none of them is degenerate. */
  predicate WellPosed(xs: seq<real>, lookBack: nat, lookAhead: nat, std: StdFn)
    ensures WellPosed(xs, lookBack, lookAhead, std) <==>
      && 0 < lookBack && 0 < lookAhead && lookBack + lookAhead < |xs|
      && forall k :: 0 <= k < |xs| - lookBack - lookAhead ==> std(xs[k..][..lookBack]) != 0.0
  {
    var r :=
      && 0 < lookBack && 0 < lookAhead
      && lookBack + lookAhead < |xs|
      && forall i :: lookBack + lookAhead <= i < |xs| ==> !Degenerate(xs, lookBack, lookAhead, std, i);
    assert r <==> && 0 < lookBack && 0 < lookAhead && lookBack + lookAhead < |xs|
                  && forall k :: 0 <= k < |xs| - lookBack - lookAhead ==> std(xs[k..][..lookBack]) != 0.0 by {
      if 0 < lookBack && 0 < lookAhead && lookBack + lookAhead < |xs| {
        if r {
          forall k | 0 <= k < |xs| - lookBack - lookAhead
            ensures std(xs[k..][..lookBack]) != 0.0
          {
            assert xs[k..][..lookBack] == xs[k .. k + lookBack];
            assert !Degenerate(xs, lookBack, lookAhead, std, k + lookBack + lookAhead);
          }
        } else {
          var i :| lookBack + lookAhead <= i < |xs| && Degenerate(xs, lookBack, lookAhead, std, i);
          var k := i - lookBack - lookAhead;
          assert xs[k..][..lookBack] == xs[k .. k + lookBack];
          assert std(xs[k..][..lookBack]) == 0.0;
        }
      }
    }
    r
  }

  /** `window[:-look_ahead].mean()`: the mean of the first `lookBack` prices of the window. */
  function WindowMean(xs: seq<real>, lookBack: nat, lookAhead: nat, i: nat): (m: real)
    requires 0 < lookBack && 0 < lookAhead
    requires lookBack + lookAhead <= i <= |xs|
    ensures m == Mean(xs[i - lookBack - lookAhead .. i - lookAhead])
  {
    ContextIsFirstLookBack(xs, lookBack, lookAhead, i);
    Mean(Context(xs, lookBack, lookAhead, i))
  }

  /** `window[:-look_ahead].std()`: the deviation of the first `lookBack` prices of the
      window, or of no prices at all when `lookAhead` is 0. */
  function WindowStd(xs: seq<real>, lookBack: nat, lookAhead: nat, std: StdFn, i: nat): (sd: real)
    requires lookBack + lookAhead <= i <= |xs|
    ensures 0 < lookAhead ==> sd == std(xs[i - lookBack - lookAhead .. i - lookAhead])
    ensures lookAhead == 0 ==> sd == std([])
  {
    ContextIsFirstLookBack(xs, lookBack, lookAhead, i);
    std(Context(xs, lookBack, lookAhead, i))
  }

  /** The normalised window with its last `lookAhead` entries cut off. */
  function InputRow(xs: seq<real>, lookBack: nat, lookAhead: nat, std: StdFn, i: nat): (row: seq<real>)
    requires lookBack + lookAhead <= i <= |xs|
    requires !Degenerate(xs, lookBack, lookAhead, std, i)
    ensures 0 < lookBack && 0 < lookAhead && |row| == lookBack
    ensures forall j :: 0 <= j < lookBack ==>
      row[j] == Normalize(xs[i - lookBack - lookAhead + j], WindowMean(xs, lookBack, lookAhead, i), WindowStd(xs, lookBack, lookAhead, std, i))
  {
    var w := Window(xs, lookBack, lookAhead, i);
    DropLast(NormalizeAll(w, WindowMean(xs, lookBack, lookAhead, i), WindowStd(xs, lookBack, lookAhead, std, i)), lookAhead)
  }

  /** The last entry of the normalised window. */
  function Target(xs: seq<real>, lookBack: nat, lookAhead: nat, std: StdFn, i: nat): (t: real)
    requires lookBack + lookAhead <= i <= |xs|
    requires !Degenerate(xs, lookBack, lookAhead, std, i)
    ensures 0 < lookBack && 0 < lookAhead
    ensures t == Normalize(xs[i - 1], WindowMean(xs, lookBack, lookAhead, i), WindowStd(xs, lookBack, lookAhead, std, i))
  {
    var w := Window(xs, lookBack, lookAhead, i);
    var n := NormalizeAll(w, WindowMean(xs, lookBack, lookAhead, i), WindowStd(xs, lookBack, lookAhead, std, i));
    n[|n| - 1]
  }

  /** The samples of the windows ending before `i`, one per window end in
      `[lookBack + lookAhead, i)`, in the order the builder appends them. */
  function SamplesBefore(xs: seq<real>, lookBack: nat, lookAhead: nat, std: StdFn, i: nat): (d: Dataset)
    requires lookBack + lookAhead <= i <= |xs|
    requires forall j :: lookBack + lookAhead <= j < i ==> !Degenerate(xs, lookBack, lookAhead, std, j)
    ensures |d.means| == |d.sds| == |d.inputs| == |d.targets| == i - lookBack - lookAhead
  {
    var n := i - lookBack - lookAhead;
    if n == 0 then Dataset([], [], [], [])
    else
      assert !Degenerate(xs, lookBack, lookAhead, std, lookBack + lookAhead);
      Dataset(
        seq(n, k requires 0 <= k < n => WindowMean(xs, lookBack, lookAhead, lookBack + lookAhead + k)),
        seq(n, k requires 0 <= k < n => WindowStd(xs, lookBack, lookAhead, std, lookBack + lookAhead + k)),
        seq(n, k requires 0 <= k < n => InputRow(xs, lookBack, lookAhead, std, lookBack + lookAhead + k)),
        seq(n, k requires 0 <= k < n => Target(xs, lookBack, lookAhead, std, lookBack + lookAhead + k)))
  }

  /** One more window end appends that window's sample to each of the four lists. */
  lemma SamplesBeforeStep(xs: seq<real>, lookBack: nat, lookAhead: nat, std: StdFn, i: nat)
    requires lookBack + lookAhead <= i < |xs|
    requires forall j :: lookBack + lookAhead <= j <= i ==> !Degenerate(xs, lookBack, lookAhead, std, j)
    ensures && 0 < lookBack && 0 < lookAhead
            && var d, e := SamplesBefore(xs, lookBack, lookAhead, std, i), SamplesBefore(xs, lookBack, lookAhead, std, i + 1);
               && e.means == d.means + [WindowMean(xs, lookBack, lookAhead, i)]
               && e.sds == d.sds + [WindowStd(xs, lookBack, lookAhead, std, i)]
               && e.inputs == d.inputs + [InputRow(xs, lookBack, lookAhead, std, i)]
               && e.targets == d.targets + [Target(xs, lookBack, lookAhead, std, i)]
  {
    assert !Degenerate(xs, lookBack, lookAhead, std, i);
    var d, e := SamplesBefore(xs, lookBack, lookAhead, std, i), SamplesBefore(xs, lookBack, lookAhead, std, i + 1);
    // One assertion per list, so that the solver proves the four equalities separately.
    assert e.means == d.means + [WindowMean(xs, lookBack, lookAhead, i)];
    assert e.sds == d.sds + [WindowStd(xs, lookBack, lookAhead, std, i)];
    assert e.inputs == d.inputs + [InputRow(xs, lookBack, lookAhead, std, i)];
    assert e.targets == d.targets + [Target(xs, lookBack, lookAhead, std, i)];
  }

  /** The first degenerate window end at or after `from`, if any. */
  function FirstDegenerate(xs: seq<real>, lookBack: nat, lookAhead: nat, std: StdFn, from: nat): (r: Option<nat>)
    requires lookBack + lookAhead <= from <= |xs|
    ensures r.Some? ==> from <= r.value < |xs| && Degenerate(xs, lookBack, lookAhead, std, r.value)
    ensures r.Some? ==> forall i :: from <= i < r.value ==> !Degenerate(xs, lookBack, lookAhead, std, i)
    ensures r.None? ==> forall i :: from <= i < |xs| ==> !Degenerate(xs, lookBack, lookAhead, std, i)
    decreases |xs| - from
  {
    if from == |xs| then None
    else if Degenerate(xs, lookBack, lookAhead, std, from) then Some(from)
    else FirstDegenerate(xs, lookBack, lookAhead, std, from + 1)
  }

  /** What `create_timeseries_dataset` produces for a series. */
  function CreateDataset(xs: seq<real>, lookBack: nat, lookAhead: nat, std: StdFn): (r: Result<Dataset, BuildError>)
    ensures r.Ok? <==> WellPosed(xs, lookBack, lookAhead, std)
    ensures r == Err(NoWindows) <==> |xs| <= lookBack + lookAhead
    ensures r.Err? && r.error.DegenerateWindow? ==>
      var e := r.error.end;
      && lookBack + lookAhead <= e < |xs|
      && Degenerate(xs, lookBack, lookAhead, std, e)
      && forall i :: lookBack + lookAhead <= i < e ==> !Degenerate(xs, lookBack, lookAhead, std, i)
  {
    if |xs| <= lookBack + lookAhead then Err(NoWindows)
    else match FirstDegenerate(xs, lookBack, lookAhead, std, lookBack + lookAhead)
      case Some(e) => Err(DegenerateWindow(e))
      case None => Ok(SamplesBefore(xs, lookBack, lookAhead, std, |xs|))
  }

  /** The builder stops at the first degenerate window. */
  lemma CreateDatasetStopsAt(xs: seq<real>, lookBack: nat, lookAhead: nat, std: StdFn, e: nat)
    requires lookBack + lookAhead <= e < |xs|
    requires Degenerate(xs, lookBack, lookAhead, std, e)
    requires forall j :: lookBack + lookAhead <= j < e ==> !Degenerate(xs, lookBack, lookAhead, std, j)
    ensures CreateDataset(xs, lookBack, lookAhead, std) == Err(DegenerateWindow(e))
  {
    var r := FirstDegenerate(xs, lookBack, lookAhead, std, lookBack + lookAhead);
    assert r.Some? && r.value == e;
  }

  /** The window normalised with its context's statistics yields the sample's input
      row and target. */
  lemma SampleOfWindow(xs: seq<real>, lookBack: nat, lookAhead: nat, std: StdFn, i: nat, normalized: seq<real>)
    requires lookBack + lookAhead <= i <= |xs|
    requires !Degenerate(xs, lookBack, lookAhead, std, i)
    requires 0 < lookBack && 0 < lookAhead
    requires normalized == NormalizeAll(Window(xs, lookBack, lookAhead, i),
      WindowMean(xs, lookBack, lookAhead, i), WindowStd(xs, lookBack, lookAhead, std, i))
    ensures 0 < |normalized|
    ensures DropLast(normalized, lookAhead) == InputRow(xs, lookBack, lookAhead, std, i)
    ensures normalized[|normalized| - 1] == Target(xs, lookBack, lookAhead, std, i)
  {
  }

  /** The builder itself: one pass over the window ends, appending to four lists. */
  method CreateTimeseriesDataset(xs: seq<real>, lookBack: nat, lookAhead: nat, std: StdFn)
    returns (r: Result<Dataset, BuildError>)
    ensures r == CreateDataset(xs, lookBack, lookAhead, std)
  {
    var dataX: seq<seq<real>>, dataY: seq<real> := [], [];
    var means: seq<real>, sd: seq<real> := [], [];
    var i := lookBack + lookAhead;
    while i < |xs|
      invariant lookBack + lookAhead <= i
      invariant i <= |xs| || i == lookBack + lookAhead
      invariant forall j :: lookBack + lookAhead <= j < i ==> !Degenerate(xs, lookBack, lookAhead, std, j)
      invariant i <= |xs| ==> Dataset(means, sd, dataX, dataY) == SamplesBefore(xs, lookBack, lookAhead, std, i)
      invariant i > |xs| ==> means == []
    {
      var window := xs[i - lookBack - lookAhead .. i];
      var context := DropLast(window, lookAhead);
      assert context == Context(xs, lookBack, lookAhead, i);
      if |context| == 0 {
        // numpy's mean of an empty context is NaN
        CreateDatasetStopsAt(xs, lookBack, lookAhead, std, i);
        return Err(DegenerateWindow(i));
      }
      var wm := Mean(context);
      var ws := std(context);
      if ws == 0.0 {
        // the division by `ws` below would yield non-finite values
        CreateDatasetStopsAt(xs, lookBack, lookAhead, std, i);
        return Err(DegenerateWindow(i));
      }
      SamplesBeforeStep(xs, lookBack, lookAhead, std, i);
      means := means + [wm];
      sd := sd + [ws];
      var normalized := NormalizeAll(window, wm, ws);
      SampleOfWindow(xs, lookBack, lookAhead, std, i, normalized);
      dataX := dataX + [DropLast(normalized, lookAhead)];
      dataY := dataY + [normalized[|normalized| - 1]];
      i := i + 1;
    }
    if |means| == 0 {
      // np.stack of an empty list fails
      return Err(NoWindows);
    }
    assert !Degenerate(xs, lookBack, lookAhead, std, lookBack + lookAhead);
    r := Ok(Dataset(means, sd, dataX, dataY));
  }

  /** One sample per window end in `[lookBack + lookAhead, |xs|)`: the four lists are
      aligned, with `|xs| - lookBack - lookAhead` entries each, and every input row has
      `lookBack` entries. */
  lemma SampleCount(xs: seq<real>, lookBack: nat, lookAhead: nat, std: StdFn)
    requires WellPosed(xs, lookBack, lookAhead, std)
    ensures var d := CreateDataset(xs, lookBack, lookAhead, std).value;
      && |d.means| == |d.sds| == |d.inputs| == |d.targets| == |xs| - lookBack - lookAhead
      && forall k :: 0 <= k < |d.inputs| ==> |d.inputs[k]| == lookBack
  {
    var d := CreateDataset(xs, lookBack, lookAhead, std).value;
    assert d == SamplesBefore(xs, lookBack, lookAhead, std, |xs|);
    forall k | 0 <= k < |d.inputs| ensures |d.inputs[k]| == lookBack {
      InputRowIsNormalisedContext(xs, lookBack, lookAhead, std, k);
    }
  }

  /** Each sample's statistics are those of its context `xs[k .. k + lookBack]` alone. */
  lemma StatisticsOfContext(xs: seq<real>, lookBack: nat, lookAhead: nat, std: StdFn, k: nat)
    requires WellPosed(xs, lookBack, lookAhead, std)
    requires k < |xs| - lookBack - lookAhead
    ensures var d := CreateDataset(xs, lookBack, lookAhead, std).value;
      && d.means[k] == Mean(xs[k .. k + lookBack])
      && d.sds[k] == std(xs[k .. k + lookBack])
      && d.sds[k] != 0.0
  {
    var i := lookBack + lookAhead + k;
    var d := CreateDataset(xs, lookBack, lookAhead, std).value;
    assert d == SamplesBefore(xs, lookBack, lookAhead, std, |xs|);
    assert k < |d.means|;
    assert d.means[k] == WindowMean(xs, lookBack, lookAhead, i);
    assert d.sds[k] == WindowStd(xs, lookBack, lookAhead, std, i);
    ContextIsFirstLookBack(xs, lookBack, lookAhead, i);
    assert !Degenerate(xs, lookBack, lookAhead, std, i);
  }

  /** No leakage: two series that agree on the context of sample `k` give that sample
      the same mean, deviation and input row, whatever the prices after the context
      (the look-ahead part of the window and the rest of the series) are. */
  lemma NoLeakage(xs: seq<real>, ys: seq<real>, lookBack: nat, lookAhead: nat, std: StdFn, k: nat)
    requires WellPosed(xs, lookBack, lookAhead, std) && WellPosed(ys, lookBack, lookAhead, std)
    requires k < |xs| - lookBack - lookAhead && k < |ys| - lookBack - lookAhead
    requires xs[k .. k + lookBack] == ys[k .. k + lookBack]
    ensures var dx, dy := CreateDataset(xs, lookBack, lookAhead, std).value, CreateDataset(ys, lookBack, lookAhead, std).value;
      dx.means[k] == dy.means[k] && dx.sds[k] == dy.sds[k] && dx.inputs[k] == dy.inputs[k]
  {
    StatisticsOfContext(xs, lookBack, lookAhead, std, k);
    StatisticsOfContext(ys, lookBack, lookAhead, std, k);
    InputRowIsNormalisedContext(xs, lookBack, lookAhead, std, k);
    InputRowIsNormalisedContext(ys, lookBack, lookAhead, std, k);
  }

  /** Input row `k` is the context `xs[k .. k + lookBack]` normalised with the sample's
      own statistics; in particular it has `lookBack` entries. */
  lemma InputRowIsNormalisedContext(xs: seq<real>, lookBack: nat, lookAhead: nat, std: StdFn, k: nat)
    requires WellPosed(xs, lookBack, lookAhead, std)
    requires k < |xs| - lookBack - lookAhead
    ensures var d := CreateDataset(xs, lookBack, lookAhead, std).value;
      && d.sds[k] != 0.0
      && |d.inputs[k]| == lookBack
      && d.inputs[k] == NormalizeAll(xs[k .. k + lookBack], d.means[k], d.sds[k])
  {
    var i := lookBack + lookAhead + k;
    StatisticsOfContext(xs, lookBack, lookAhead, std, k);
    var d := CreateDataset(xs, lookBack, lookAhead, std).value;
    assert d == SamplesBefore(xs, lookBack, lookAhead, std, |xs|);
    assert d.inputs[k] == InputRow(xs, lookBack, lookAhead, std, i);
    var w := Window(xs, lookBack, lookAhead, i);
    var n := NormalizeAll(w, d.means[k], d.sds[k]);
    assert d.inputs[k] == n[..lookBack];
    assert n[..lookBack] == NormalizeAll(xs[k .. k + lookBack], d.means[k], d.sds[k]);
  }

  /** Target `k` is the last price of its window, `xs[k + lookBack + lookAhead - 1]`,
      normalised with the sample's statistics; the `lookAhead - 1` prices between the
      context and it appear in neither the input nor the target. */
  lemma TargetIsNormalisedLast(xs: seq<real>, lookBack: nat, lookAhead: nat, std: StdFn, k: nat)
    requires WellPosed(xs, lookBack, lookAhead, std)
    requires k < |xs| - lookBack - lookAhead
    ensures var d := CreateDataset(xs, lookBack, lookAhead, std).value;
      d.sds[k] != 0.0 && d.targets[k] == Normalize(xs[k + lookBack + lookAhead - 1], d.means[k], d.sds[k])
  {
    var i := lookBack + lookAhead + k;
    StatisticsOfContext(xs, lookBack, lookAhead, std, k);
    var d := CreateDataset(xs, lookBack, lookAhead, std).value;
    assert d == SamplesBefore(xs, lookBack, lookAhead, std, |xs|);
    assert d.targets[k] == Target(xs, lookBack, lookAhead, std, i);
  }

  /** Sample `k` of `d` is made of the prices of `series` from offset `off` on: its mean
      and deviation are those of the context `series[off + k .. off + k + lookBack]`,
      its input row is that context normalised, and its target is the normalised
      price `series[off + k + lookBack + lookAhead - 1]`. */
  predicate SampleFrom(d: Dataset, k: nat, series: seq<real>, off: nat, lookBack: nat, lookAhead: nat, std: StdFn)
  {
    && k < |d.means| && k < |d.sds| && k < |d.inputs| && k < |d.targets|
    && 0 < lookBack && 0 < lookAhead && off + k + lookBack + lookAhead <= |series|
    && d.means[k] == Mean(series[off + k .. off + k + lookBack])
    && d.sds[k] == std(series[off + k .. off + k + lookBack])
    && d.sds[k] != 0.0
    && d.inputs[k] == NormalizeAll(series[off + k .. off + k + lookBack], d.means[k], d.sds[k])
    && d.targets[k] == Normalize(series[off + k + lookBack + lookAhead - 1], d.means[k], d.sds[k])
  }

  /** Every sample of a dataset is made of the series' own prices, at offset 0. */
  lemma SamplesFromSeries(xs: seq<real>, lookBack: nat, lookAhead: nat, std: StdFn, k: nat)
    requires WellPosed(xs, lookBack, lookAhead, std)
    requires k < |xs| - lookBack - lookAhead
    ensures SampleFrom(CreateDataset(xs, lookBack, lookAhead, std).value, k, xs, 0, lookBack, lookAhead, std)
  {
    SampleCount(xs, lookBack, lookAhead, std);
    StatisticsOfContext(xs, lookBack, lookAhead, std, k);
    InputRowIsNormalisedContext(xs, lookBack, lookAhead, std, k);
    TargetIsNormalisedLast(xs, lookBack, lookAhead, std, k);
  }

  /** A sample made of the prices of a slice of `series` is made of the prices of
      `series` itself, shifted by the slice's start. */
  lemma SampleFromSlice(d: Dataset, k: nat, series: seq<real>, off: nat, part: seq<real>, lookBack: nat, lookAhead: nat, std: StdFn)
    requires off + |part| <= |series| && part == series[off .. off + |part|]
    requires SampleFrom(d, k, part, 0, lookBack, lookAhead, std)
    ensures SampleFrom(d, k, series, off, lookBack, lookAhead, std)
  {
    var c := part[k .. k + lookBack];
    forall j | 0 <= j < lookBack
      ensures c[j] == series[off + k .. off + k + lookBack][j]
    {
      assert c[j] == part[k + j];
    }
    assert c == series[off + k .. off + k + lookBack];
    assert part[k + lookBack + lookAhead - 1] == series[off + k + lookBack + lookAhead - 1];
  }

  lemma {:induction false} SumOfNormalized(vs: seq<real>, m: real, s: real)
    requires s != 0.0
    ensures Sum(NormalizeAll(vs, m, s)) == (Sum(vs) - (|vs| as real) * m) / s
  {
    if |vs| > 0 {
      var n := NormalizeAll(vs, m, s);
      assert n[1..] == NormalizeAll(vs[1..], m, s);
      SumOfNormalized(vs[1..], m, s);
      var a, b := vs[0] - m, Sum(vs[1..]) - ((|vs| - 1) as real) * m;
      assert Sum(n) == n[0] + Sum(n[1..]);
      assert n[0] == a / s;
      DivisionDistributes(a, b, s);
      assert ((|vs| - 1) as real) * m + m == (|vs| as real) * m;
      assert a + b == Sum(vs) - (|vs| as real) * m;
    }
  }

  lemma DivisionDistributes(a: real, b: real, s: real)
    requires s != 0.0
    ensures a / s + b / s == (a + b) / s
  {
  }

  /** Row normalisation centres every input row: its entries sum to zero. */
  lemma InputRowHasZeroMean(xs: seq<real>, lookBack: nat, lookAhead: nat, std: StdFn, k: nat)
    requires WellPosed(xs, lookBack, lookAhead, std)
    requires k < |xs| - lookBack - lookAhead
    ensures Sum(CreateDataset(xs, lookBack, lookAhead, std).value.inputs[k]) == 0.0
  {
    var d := CreateDataset(xs, lookBack, lookAhead, std).value;
    var c := xs[k .. k + lookBack];
    StatisticsOfContext(xs, lookBack, lookAhead, std, k);
    InputRowIsNormalisedContext(xs, lookBack, lookAhead, std, k);
    CenteredSumIsZero(c, d.sds[k]);
  }

  /** Normalising with a sequence's own mean centres it. */
  lemma CenteredSumIsZero(c: seq<real>, s: real)
    requires |c| > 0 && s != 0.0
    ensures Sum(NormalizeAll(c, Mean(c), s)) == 0.0
  {
    var m, n := Mean(c), |c| as real;
    SumOfNormalized(c, m, s);
    assert n * m == Sum(c);
    assert (Sum(c) - n * m) / s == 0.0;
  }
}
