/**
 * Evaluating forecasts: normalised predictions and targets are brought back to
 * price units with each sample's mean and deviation, and compared by their mean
 * absolute error.
 */
module Forecasting {
  import opened PySeq
  import opened Windowing

  /** `v * sd + mean`: a normalised value back in price units. */
  function Rescale(v: real, m: real, s: real): (r: real)
    ensures s != 0.0 ==> Normalize(r, m, s) == v
  {
    v * s + m
  }

  /** Rescaling undoes the row normalisation and vice versa, for every nonzero deviation. */
  lemma RescaleInvertsNormalize(v: real, m: real, s: real)
    requires s != 0.0
    ensures Rescale(Normalize(v, m, s), m, s) == v
    ensures Normalize(Rescale(v, m, s), m, s) == v
  {
  }

  /** The element-wise `values * sd + mean` over one entry per sample. */
  function RescaleAll(vs: seq<real>, means: seq<real>, sds: seq<real>): (r: seq<real>)
    requires |vs| == |means| == |sds|
    ensures |r| == |vs|
  {
    seq(|vs|, k requires 0 <= k < |vs| => Rescale(vs[k], means[k], sds[k]))
  }

  /** `forecast_model` after the prediction: `predicted * test_sd + test_mean`. With
      nonzero deviations, normalising the result with the same statistics gives back
      the predictions. */
  function ForecastModel(predicted: seq<real>, testSd: seq<real>, testMean: seq<real>): (r: seq<real>)
    requires |predicted| == |testSd| == |testMean|
    ensures |r| == |predicted|
    ensures forall k :: 0 <= k < |r| && testSd[k] != 0.0 ==> Normalize(r[k], testMean[k], testSd[k]) == predicted[k]
  {
    var r := RescaleAll(predicted, testMean, testSd);
    assert forall k :: 0 <= k < |r| && testSd[k] != 0.0 ==> Normalize(r[k], testMean[k], testSd[k]) == predicted[k] by {
      forall k | 0 <= k < |r| && testSd[k] != 0.0
        ensures Normalize(r[k], testMean[k], testSd[k]) == predicted[k]
      {
        RescaleInvertsNormalize(predicted[k], testMean[k], testSd[k]);
      }
    }
    r
  }

  /** With nonzero deviations, rescaling is one-to-one. */
  lemma RescaleAllInjective(us: seq<real>, vs: seq<real>, means: seq<real>, sds: seq<real>)
    requires |us| == |vs| == |means| == |sds|
    requires forall k :: 0 <= k < |sds| ==> sds[k] != 0.0
    ensures RescaleAll(us, means, sds) == RescaleAll(vs, means, sds) <==> us == vs
  {
    if RescaleAll(us, means, sds) == RescaleAll(vs, means, sds) {
      forall k | 0 <= k < |us| ensures us[k] == vs[k] {
        assert RescaleAll(us, means, sds)[k] == RescaleAll(vs, means, sds)[k];
        RescaleInvertsNormalize(us[k], means[k], sds[k]);
        RescaleInvertsNormalize(vs[k], means[k], sds[k]);
      }
    }
  }

  /** Round trip on the targets: rescaling the targets of a dataset gives back the
      prices `xs[lookBack + lookAhead - 1 .. |xs| - 1]`, the last price of every window.
      The final price of the series is never a target. */
  lemma RescaledTargetsAreSeriesPrices(xs: seq<real>, lookBack: nat, lookAhead: nat, std: StdFn)
    requires WellPosed(xs, lookBack, lookAhead, std)
    ensures var d := CreateDataset(xs, lookBack, lookAhead, std).value;
      && |d.targets| == |d.means| == |d.sds|
      && RescaleAll(d.targets, d.means, d.sds) == xs[lookBack + lookAhead - 1 .. |xs| - 1]
  {
    var d := CreateDataset(xs, lookBack, lookAhead, std).value;
    SampleCount(xs, lookBack, lookAhead, std);
    forall k | 0 <= k < |d.targets|
      ensures Rescale(d.targets[k], d.means[k], d.sds[k]) == xs[lookBack + lookAhead - 1 + k]
    {
      TargetIsNormalisedLast(xs, lookBack, lookAhead, std, k);
      RescaleInvertsNormalize(xs[k + lookBack + lookAhead - 1], d.means[k], d.sds[k]);
    }
  }

  /** Round trip on the inputs: rescaling entry `j` of input row `k` gives back `xs[k + j]`. */
  lemma RescaledInputsAreContextPrices(xs: seq<real>, lookBack: nat, lookAhead: nat, std: StdFn, k: nat, j: nat)
    requires WellPosed(xs, lookBack, lookAhead, std)
    requires k < |xs| - lookBack - lookAhead && j < lookBack
    ensures var d := CreateDataset(xs, lookBack, lookAhead, std).value;
      |d.inputs[k]| == lookBack && Rescale(d.inputs[k][j], d.means[k], d.sds[k]) == xs[k + j]
  {
    var d := CreateDataset(xs, lookBack, lookAhead, std).value;
    InputRowIsNormalisedContext(xs, lookBack, lookAhead, std, k);
    RescaleInvertsNormalize(xs[k + j], d.means[k], d.sds[k]);
  }

  function Abs(x: real): (r: real)
    ensures r == x || r == -x
    ensures r >= 0.0
    ensures r == 0.0 <==> x == 0.0
  {
    if x < 0.0 then -x else x
  }

  function AbsoluteErrors(yTrue: seq<real>, yPred: seq<real>): (r: seq<real>)
    requires |yTrue| == |yPred|
    ensures |r| == |yTrue|
  {
    seq(|yTrue|, k requires 0 <= k < |yTrue| => Abs(yTrue[k] - yPred[k]))
  }

  /** The mean absolute error; its definition belongs to the metrics library. */
  function MeanAbsoluteError(yTrue: seq<real>, yPred: seq<real>): (e: real)
    requires |yTrue| == |yPred| > 0
    ensures e >= 0.0
    ensures e == 0.0 <==> yTrue == yPred
  {
    var errs := AbsoluteErrors(yTrue, yPred);
    SumOfNonNegatives(errs);
    assert (forall k :: 0 <= k < |errs| ==> errs[k] == 0.0) <==> yTrue == yPred by {
      if forall k :: 0 <= k < |errs| ==> errs[k] == 0.0 {
        assert forall k :: 0 <= k < |yTrue| ==> yTrue[k] == yPred[k] by {
          forall k | 0 <= k < |yTrue| ensures yTrue[k] == yPred[k] {
            assert errs[k] == Abs(yTrue[k] - yPred[k]);
          }
        }
      }
    }
    Sum(errs) / (|errs| as real)
  }

  /** What `forecast_one` returns: the rescaled test predictions, the rescaled test
      targets, and the train, validation and test errors. */
  datatype Evaluation = Evaluation(predicted: seq<real>, actual: seq<real>, errors: (real, real, real))

  /** The predictions for a dataset have one entry per sample. */
  predicate Aligned(preds: seq<real>, d: Dataset)
  {
    |preds| == |d.means| == |d.sds| == |d.targets| && |preds| > 0
  }

  function ForecastOne(trained: seq<real>, validated: seq<real>, predicted: seq<real>,
                       train: Dataset, valid: Dataset, test: Dataset): (f: Evaluation)
    requires Aligned(trained, train) && Aligned(validated, valid) && Aligned(predicted, test)
    ensures |f.predicted| == |f.actual| == |predicted|
    ensures f.predicted == ForecastModel(predicted, test.sds, test.means)
    ensures f.errors.0 >= 0.0 && f.errors.1 >= 0.0 && f.errors.2 >= 0.0
  {
    var trainedP := RescaleAll(trained, train.means, train.sds);
    var validatedP := RescaleAll(validated, valid.means, valid.sds);
    var predictedP := RescaleAll(predicted, test.means, test.sds);
    var trainY := RescaleAll(train.targets, train.means, train.sds);
    var validY := RescaleAll(valid.targets, valid.means, valid.sds);
    var testY := RescaleAll(test.targets, test.means, test.sds);
    Evaluation(predictedP, testY,
      (MeanAbsoluteError(trainY, trainedP), MeanAbsoluteError(validY, validatedP), MeanAbsoluteError(testY, predictedP)))
  }

  /** The ground truth `forecast_one` reports is the test series' own prices. */
  lemma ForecastActualIsTestPrices(xs: seq<real>, lookBack: nat, lookAhead: nat, std: StdFn,
                                   trained: seq<real>, validated: seq<real>, predicted: seq<real>,
                                   train: Dataset, valid: Dataset)
    requires WellPosed(xs, lookBack, lookAhead, std)
    requires Aligned(trained, train) && Aligned(validated, valid)
    requires Aligned(predicted, CreateDataset(xs, lookBack, lookAhead, std).value)
    ensures ForecastOne(trained, validated, predicted, train, valid, CreateDataset(xs, lookBack, lookAhead, std).value).actual
         == xs[lookBack + lookAhead - 1 .. |xs| - 1]
  {
    RescaledTargetsAreSeriesPrices(xs, lookBack, lookAhead, std);
  }

  /** A part's error is zero exactly when its normalised predictions equal its targets. */
  lemma ErrorZeroIffExactPrediction(trained: seq<real>, validated: seq<real>, predicted: seq<real>,
                                    train: Dataset, valid: Dataset, test: Dataset)
    requires Aligned(trained, train) && Aligned(validated, valid) && Aligned(predicted, test)
    requires forall k :: 0 <= k < |train.sds| ==> train.sds[k] != 0.0
    requires forall k :: 0 <= k < |valid.sds| ==> valid.sds[k] != 0.0
    requires forall k :: 0 <= k < |test.sds| ==> test.sds[k] != 0.0
    ensures var f := ForecastOne(trained, validated, predicted, train, valid, test);
      && (f.errors.0 == 0.0 <==> trained == train.targets)
      && (f.errors.1 == 0.0 <==> validated == valid.targets)
      && (f.errors.2 == 0.0 <==> predicted == test.targets)
  {
    RescaleAllInjective(train.targets, trained, train.means, train.sds);
    RescaleAllInjective(valid.targets, validated, valid.means, valid.sds);
    RescaleAllInjective(test.targets, predicted, test.means, test.sds);
  }

  /** Two predictions `[0.1, -0.2]` for targets `[0.0, 0.0]` with mean 100 and deviation 10
      are the prices `[101, 98]` against `[100, 100]`, an error of 1.5. */
  lemma RescaleScenario()
    ensures RescaleAll([0.1, -0.2], [100.0, 100.0], [10.0, 10.0]) == [101.0, 98.0]
    ensures RescaleAll([0.0, 0.0], [100.0, 100.0], [10.0, 10.0]) == [100.0, 100.0]
    ensures MeanAbsoluteError([100.0, 100.0], [101.0, 98.0]) == 1.5
  {
    var e := AbsoluteErrors([100.0, 100.0], [101.0, 98.0]);
    assert e == [1.0, 2.0];
    assert Sum(e) == 3.0 by {
      assert e[1..] == [2.0];
      assert e[1..][1..] == [];
    }
  }
}
