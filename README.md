# Single-stock LSTM data pipeline, modelled in Dafny

This project models the data preparation and evaluation logic of
`supervised_learning/lstm_single_stock.py`, the single-stock LSTM forecaster.
It does not model the network itself. Five modules make up the model:

- `PySeq` (`pyseq.dfy`): Python's slicing rules, including `s[:-0]` (empty) and
  `s[-0:]` (the whole sequence), and numpy's `sum`, `mean` and `var` over reals.
- `Windowing` (`windowing.dfy`): `create_timeseries_dataset`.
  - The builder is an imperative method. Its loop appends to the four lists
    `means`, `sd`, `dataX` and `dataY` in the source's order.
  - The method is proved against the specification function `CreateDataset`.
  - The lemmas around it state what the function guarantees:
    - sample counts;
    - statistics taken from the context alone, so no look-ahead leaks in;
    - input rows that are the normalised context;
    - targets that are the normalised last price of the window;
    - every input row has zero mean.
- `Splitting` (`splitting.dfy`): the train/validation/test split of `prepare_data`.
  - The split sizes use `int()` as truncation.
  - The parts are taken with Python slices, and each part is windowed independently.
  - It also covers `prepare_data_for_trading_model`.
- `Forecasting` (`forecasting.dfy`): the rescaling `v * sd + mean` of `forecast_one` and
  `forecast_model`.
  - Rescaling is proved to invert the row normalisation in both directions.
  - It is also proved to be one-to-one.
  - The rescaled targets are proved to be the series' own prices.
  - It includes the three mean absolute errors `forecast_one` reports.
- `Direction` (`direction.dfy`): the 0/1 direction labels for actual and predicted price
  series that feed the confusion-matrix report.

Prices are `real`. numpy's `std` is a function-valued parameter (`StdFn`) of the context
it is applied to. The model relies only on that: the deviation depends on the context
alone. The one exception is `Windowing.ConstantContextIsDegenerate`, which also assumes
`IsStd` (see "## Left out"). The network's predictions are inputs to the evaluation functions.

Where the source would produce non-finite values, `CreateDataset` reports an error
instead. Two cases lead there:

- an empty context, where numpy's mean is NaN;
- a zero deviation, where the division gives infinities or NaN.

The error, `DegenerateWindow(i)`, names the first window end `i` where that happens. When
the series yields no window at all, `np.stack` fails; the model reports `NoWindows`.

Two behaviours of the code, as written, are captured by lemmas:

- The loop runs over `range(look_back + look_ahead, n)`, so the window that would end at
  `n` is never built, and the final price of a series is never a target
  (`Forecasting.RescaledTargetsAreSeriesPrices`).
- The predicted direction compares the predicted next price with the *actual* current
  price, not with the previous prediction (`Direction.PredictedDirectionUsesActualBaseline`).
  That is a reasonable trading definition, so it is modelled as written.

## Model

| member | source | states |
|---|---|---|
| Windowing.CreateTimeseriesDataset | supervised_learning/lstm_single_stock.py:14-39 | The loop's result is exactly `CreateDataset`. It is `NoWindows` when no window exists, `DegenerateWindow(i)` at the first unusable window, and otherwise the four lists, one entry per window end in order. |
| Windowing.CreateDataset | supervised_learning/lstm_single_stock.py:21-36 | The build succeeds iff both lengths are positive, a window exists and no window is degenerate. It fails with `NoWindows` iff `n <= look_back + look_ahead`. A `DegenerateWindow(e)` error names the first degenerate window end. |
| Windowing.Degenerate | supervised_learning/lstm_single_stock.py:26-31 | The window ending before `i` is unusable iff `look_back` or `look_ahead` is 0 (an empty context, whose mean is NaN) or `std` of `X[i-lb-la .. i-la]` is 0 (the division gives non-finite values). |
| Windowing.WellPosed | supervised_learning/lstm_single_stock.py:21-36 | The builder can succeed iff both lengths are positive, `n > look_back + look_ahead` so at least one window exists, and `std(X[k .. k+lb])` is nonzero for every sample `k`. |
| Windowing.Normalize | supervised_learning/lstm_single_stock.py:31 | `(v - wm) / ws` is zero iff `v` is the mean, and for a positive deviation positive iff `v` is above the mean. |
| Windowing.WindowMean | supervised_learning/lstm_single_stock.py:26 | `window[:-look_ahead].mean()` is the mean of the prices `X[i-lb-la .. i-la]`. |
| Windowing.WindowStd | supervised_learning/lstm_single_stock.py:27 | `window[:-look_ahead].std()` is `std` of `X[i-lb-la .. i-la]`, and `std` of an empty context when `look_ahead` is 0. |
| Windowing.InputRow | supervised_learning/lstm_single_stock.py:31-33 | For a usable window, `dataX`'s entry has `look_back` values, the `j`-th being the normalised price `X[i-lb-la+j]`. |
| Windowing.Target | supervised_learning/lstm_single_stock.py:31-34 | For a usable window, `dataY`'s entry is the normalised last price `X[i-1]`. |
| Windowing.NormalizeAll | supervised_learning/lstm_single_stock.py:31 | `(window - wm) / ws` keeps the window's length. |
| Windowing.Window | supervised_learning/lstm_single_stock.py:23 | Every window has `look_back + look_ahead` prices. |
| Windowing.Context | supervised_learning/lstm_single_stock.py:26-27 | `window[:-look_ahead]` has `look_back` prices, and none at all when `look_ahead` is 0. |
| Windowing.ContextIsFirstLookBack | supervised_learning/lstm_single_stock.py:23-27 | The context is the prices `X[i-lb-la .. i-la]`, or empty when `look_ahead` is 0. |
| Windowing.SamplesBefore | supervised_learning/lstm_single_stock.py:21-34 | After the window ends before `i`, the four lists all have `i - look_back - look_ahead` entries. |
| Windowing.SamplesBeforeStep | supervised_learning/lstm_single_stock.py:28-34 | One iteration appends that window's mean, deviation, input row and target to the four lists, and nothing else. |
| Windowing.FirstDegenerate | supervised_learning/lstm_single_stock.py:21-31 | It returns the first window end at or after `from` whose statistics are unusable, or `None` when all are usable. |
| Windowing.CreateDatasetStopsAt | supervised_learning/lstm_single_stock.py:26-31 | A degenerate window preceded only by usable ones is the error the builder reports. |
| Windowing.SampleCount | supervised_learning/lstm_single_stock.py:21-33 | `means`, `sd`, `dataX` and `dataY` are aligned with `n - look_back - look_ahead` entries, and every input row has `look_back` entries. |
| Windowing.StatisticsOfContext | supervised_learning/lstm_single_stock.py:26-29 | `means[k]` is the mean and `sd[k]` the std of `X[k .. k+look_back]` alone, and `sd[k]` is nonzero. |
| Windowing.NoLeakage | supervised_learning/lstm_single_stock.py:26-27 | Two series that agree on sample `k`'s context get the same mean, deviation and input row at `k`, whatever follows the context. |
| Windowing.InputRowIsNormalisedContext | supervised_learning/lstm_single_stock.py:31-33 | `dataX[k]` is `(X[k .. k+look_back] - means[k]) / sd[k]`, of length `look_back`. |
| Windowing.TargetIsNormalisedLast | supervised_learning/lstm_single_stock.py:31-34 | `dataY[k]` is the window's last price `X[k+look_back+look_ahead-1]` normalised with the sample's statistics. The prices between the context and it are used in neither input nor target. |
| Windowing.SumOfNormalized | supervised_learning/lstm_single_stock.py:31 | Normalising shifts the sum by `n*m` and divides it by `s`. |
| Windowing.InputRowHasZeroMean | supervised_learning/lstm_single_stock.py:26-33 | Every normalised input row sums to zero. |
| PySeq.SliceBound | supervised_learning/lstm_single_stock.py:56-58 | A Python slice bound, after negative indexing and clamping, lies in `[0, n]`. |
| PySeq.Slice | supervised_learning/lstm_single_stock.py:56-58 | A Python slice is never longer than the sequence. |
| PySeq.SliceWithin | supervised_learning/lstm_single_stock.py:56-57 | With bounds inside the sequence, `s[lo:hi]` is the contiguous block `s[lo..hi]`. |
| PySeq.DropLastIsPythonSlice | supervised_learning/lstm_single_stock.py:26-27 | `DropLast(s, k)` is exactly Python's `s[:-k]`, including `k = 0`. |
| PySeq.TakeLast | supervised_learning/lstm_single_stock.py:58 | `s[-t:]` is the last `t` elements for `0 < t < n`, all of `s` for `t = 0` or `t >= n`, and a drop-prefix for negative `t`. |
| PySeq.Sum | supervised_learning/lstm_single_stock.py:26-27 | numpy's `sum` of reals, added from the front: 0 for the empty sequence, the first element plus the sum of the rest otherwise. |
| PySeq.SumFromBack | supervised_learning/lstm_single_stock.py:26-27 | Adding from the back gives the same sum: the sum is that of all but the last element, plus the last. |
| PySeq.Variance | supervised_learning/lstm_single_stock.py:27 | numpy's `var` with `ddof=0`, of which `std` is the square root: the mean of the squared deviations from the mean, and nonnegative. |
| PySeq.Mean | supervised_learning/lstm_single_stock.py:26 | numpy's `mean` of a nonempty sequence: the mean times the length is the sum. |
| PySeq.DropLast | supervised_learning/lstm_single_stock.py:26-27 | `s[:-k]` keeps the first `|s| - k` elements for `0 < k <= |s|`, and is empty for `k = 0` or `k > |s|`. |
| PySeq.SquaredDeviations | supervised_learning/lstm_single_stock.py:27 | The squared deviations keep the length and are nonnegative. |
| PySeq.SumOfNonNegatives | supervised_learning/lstm_single_stock.py:135-137 | A sum of nonnegative terms is nonnegative, and zero iff every term is zero. |
| PySeq.ConstantHasZeroVariance | supervised_learning/lstm_single_stock.py:26-27 | A constant context has its value as mean and zero variance. |
| Windowing.ConstantContextIsDegenerate | supervised_learning/lstm_single_stock.py:26-31 | For a `std` that is the nonnegative square root of the variance (`IsStd`), a window whose context is one repeated price is degenerate: its deviation is zero. |
| Splitting.SplitSizes | supervised_learning/lstm_single_stock.py:51-53 | The three sizes sum to `n`. For a nonnegative proportion, the train and validation sizes are the integer parts of their shares of `n`. |
| Splitting.TrainPart | supervised_learning/lstm_single_stock.py:56 | `df.values[:train_size]` is the first `train_size` prices, or the whole series when `train_size >= n`. |
| Splitting.ValidPart | supervised_learning/lstm_single_stock.py:57 | `df.values[train_size:train_size+valid_size]` is the block `df[train .. train+valid]` when it fits, and empty when `valid_size` is 0. |
| Splitting.TestPart | supervised_learning/lstm_single_stock.py:58 | `df.values[-test_size:]` is the last `test_size` prices for `0 < test_size < n`, and the whole series when `test_size` is 0. |
| Splitting.TruncatedShares | supervised_learning/lstm_single_stock.py:51-53 | The three sizes sum to `n`, and each of the train and validation sizes is the integer part of its nonnegative share. |
| Splitting.Trunc | supervised_learning/lstm_single_stock.py:51-52 | Python's `int()` of a float truncates toward zero, for either sign. |
| Splitting.ShareIsProduct | supervised_learning/lstm_single_stock.py:51-52 | The share used for the sizes is exactly `n * p`. |
| Splitting.SharesFit | supervised_learning/lstm_single_stock.py:51-52 | Two admissible proportions give nonnegative shares that sum to at most `n`. |
| Splitting.TruncatedSharesPartition | supervised_learning/lstm_single_stock.py:51-53 | The truncated shares and their remainder are nonnegative and sum to `n`, and each size is the integer part of its share. |
| Splitting.SizesPartitionLength | supervised_learning/lstm_single_stock.py:51-53 | With nonnegative proportions summing to at most one, the three sizes are nonnegative and sum to `n`. |
| Splitting.PartsPartitionSeries | supervised_learning/lstm_single_stock.py:56-58 | With a positive test size, the parts are `df[..train]`, `df[train..train+valid]` and `df[train+valid..]`. Together, in order, they make up the series. |
| Splitting.ZeroTestSizeSelectsWholeSeries | supervised_learning/lstm_single_stock.py:53-58 | `df[-test_size:]` is the tail after validation iff the test size is positive or the series is empty. With a zero test size it is the whole series. |
| Splitting.ZeroTestSizeOccurs | supervised_learning/lstm_single_stock.py:51-53 | Admissible proportions `(0.5, 0.5, 0.0)` on 10 prices give sizes 5, 5 and 0. |
| Splitting.PrepareData | supervised_learning/lstm_single_stock.py:44-66 | Preparation succeeds iff all three parts are well posed. A failure in the validation part means the training part was built. |
| Splitting.PrepareParts | supervised_learning/lstm_single_stock.py:56-58 | Success iff every part is well posed. On success, each part's dataset is the builder's result on that part's slice. |
| Splitting.SplitSizesPartition | supervised_learning/lstm_single_stock.py:51-53 | The split sizes cut the series into three consecutive parts iff the test size is positive. |
| Splitting.WindowsStayInsideParts | supervised_learning/lstm_single_stock.py:56-58 | Each part has one sample per window inside it. Sample `k` of each part, at offset `off` = 0, `train_size` or `train_size + valid_size`, takes its mean and deviation from `df[off+k .. off+k+lb]`, its input row is that context normalised, and its target is the normalised price `df[off+k+lb+la-1]`. |
| Splitting.PartWindow | supervised_learning/lstm_single_stock.py:56-58 | A part at offset `off` has `|part| - lb - la` samples. Sample `k`'s mean and deviation are those of `df[off+k .. off+k+lb]`, its input row is that context normalised, and its target is the normalised `df[off+k+lb+la-1]`. |
| Windowing.SamplesFromSeries | supervised_learning/lstm_single_stock.py:21-34 | Every sample of a well-posed series takes its statistics, input row and target from the series' own prices (`SampleFrom` at offset 0). |
| Windowing.SampleFromSlice | supervised_learning/lstm_single_stock.py:56-58 | A sample made of a slice's prices is made of the whole series' prices, shifted by the slice's start. |
| Splitting.PrepareDataForTradingModel | supervised_learning/lstm_single_stock.py:68-71 | The builder with `look_ahead = 1` succeeds iff the series is well posed. It has `n - look_back - 1` samples, and each target is the normalised price right after its context. |
| Forecasting.Rescale | supervised_learning/lstm_single_stock.py:126-132 | `v * sd + mean`, normalised again with a nonzero `sd`, gives back `v`. |
| Forecasting.RescaleInvertsNormalize | supervised_learning/lstm_single_stock.py:126-132 | For a nonzero deviation, `v * sd + mean` inverts `(v - mean) / sd` in both directions. |
| Forecasting.RescaleAll | supervised_learning/lstm_single_stock.py:126-132 | The vectorised rescaling keeps the length. |
| Forecasting.ForecastModel | supervised_learning/lstm_single_stock.py:182-186 | `predicted * test_sd + test_mean` keeps the length, and normalising it again gives back the predictions wherever `test_sd` is nonzero. |
| Forecasting.RescaleAllInjective | supervised_learning/lstm_single_stock.py:126-132 | With nonzero deviations, two rescaled sequences are equal iff the normalised ones are. |
| Forecasting.RescaledTargetsAreSeriesPrices | supervised_learning/lstm_single_stock.py:130-132 | Rescaling a part's targets gives back exactly `X[lb+la-1 .. n-1]`, the last price of every window. The final price is never a target. |
| Forecasting.RescaledInputsAreContextPrices | supervised_learning/lstm_single_stock.py:31-33 | Rescaling entry `j` of input row `k` gives back the price `X[k+j]`. |
| Forecasting.Abs | supervised_learning/lstm_single_stock.py:135-137 | The absolute value is `x` or `-x`, is nonnegative, and is zero iff `x` is. |
| Forecasting.AbsoluteErrors | supervised_learning/lstm_single_stock.py:135-137 | There is one absolute error per aligned pair. |
| Forecasting.MeanAbsoluteError | supervised_learning/lstm_single_stock.py:135-137 | The error is nonnegative, and zero iff the predictions equal the truth. |
| Forecasting.ForecastOne | supervised_learning/lstm_single_stock.py:113-141 | The rescaled test predictions are exactly `forecast_model`'s `predicted * test_sd + test_mean` (so they normalise back to the predictions), the predictions and truth are aligned, and all three errors are nonnegative. |
| Forecasting.ForecastActualIsTestPrices | supervised_learning/lstm_single_stock.py:130-141 | The ground truth `forecast_one` returns is the test series' own prices `X[lb+la-1 .. n-1]`. |
| Forecasting.ErrorZeroIffExactPrediction | supervised_learning/lstm_single_stock.py:126-137 | Each part's error is zero iff its normalised predictions equal its normalised targets. |
| Forecasting.RescaleScenario | supervised_learning/lstm_single_stock.py:126-137 | With mean 100 and deviation 10, predictions `[0.1, -0.2]` are the prices `[101, 98]`, against a truth of `[100, 100]` and an error of 1.5. |
| Direction.Label | supervised_learning/lstm_single_stock.py:235-236 | `np.where(d <= 0, 0, 1)` is 0 or 1, and 1 iff `d` is positive. |
| Direction.TrueDirections | supervised_learning/lstm_single_stock.py:235 | One label per step, each 0 or 1, and 1 iff the price rose. |
| Direction.PredictedDirections | supervised_learning/lstm_single_stock.py:236 | One label per step, each 0 or 1, and 1 iff the predicted next price exceeds the actual current price. |
| Direction.PerfectForecastHasTrueDirections | supervised_learning/lstm_single_stock.py:235-236 | A forecast equal to the truth after the first step gets every direction right. |
| Direction.PredictedDirectionUsesActualBaseline | supervised_learning/lstm_single_stock.py:235-236 | The predicted label uses the actual price as its baseline: a forecast falling from 5 to 2 above an actual 1 is labelled up. |

## Left out

- Network construction, training, checkpoint save and load, and graph reset
  (`make_network`, `train_network`, `load_model_tflearn`, `clean_up`): these are opaque
  tflearn and TensorFlow calls.
- `model.predict`: a foreign call. The predictions are parameters of `ForecastOne` and
  `ForecastModel`.
- `tf_metrics` and the confusion-matrix report: `tensormetrics_helper` is not part of this
  model. Only the labels fed to it are modelled.
- `mean_absolute_error` comes from sklearn. `MeanAbsoluteError` is the textbook definition.
  It requires nonempty, equally long inputs, where sklearn raises an error; that error path
  is not modelled.
- CSV and market-data loading, plotting, every `print`, and the `__main__` driver's
  configuration: these are I/O.
- Floating point: prices are exact reals. Rounding in `n * split[0]` is not modelled.
- NaN and Inf: where numpy would carry these through, `CreateDataset` reports
  `DegenerateWindow` instead. The cases are a `look_back` or `look_ahead` of 0 (an empty
  context) and a zero std. For `look_back = look_ahead = 0` the source raises an
  `IndexError` at `window[-1]`; that case becomes the same error.
- numpy's `std`: its value is a parameter, because the square root is not modelled. The
  predicate `Windowing.IsStd` says what a genuine standard deviation satisfies, and
  `Windowing.ConstantContextIsDegenerate` assumes it only as a requirement.
- The reshapes to `(samples, look_back, 1)` and `(samples, 1)`, the `flatten()` calls and
  numpy broadcasting: rows are kept as sequences, and the rescaling functions require
  equally long arguments.
- The `n_aug` and `scale` parameters of `prepare_data` and the third split proportion are
  never read by the source, so they carry no behaviour.
- Splitting.SizesPartitionLength: does not restate the truncation bounds of each size;
  `Splitting.Trunc` and `Splitting.TruncatedSharesPartition` carry them.
- Splitting.WindowsStayInsideParts: stated for any sizes that partition the series and for
  the builder's result on each part, rather than for `PrepareData`'s result directly. `Splitting.SplitSizesPartition` and
  `Splitting.PrepareParts` connect it to the split sizes and to the prepared datasets.
