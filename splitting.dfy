/**
 * Splitting a price series into contiguous train, validation and test parts by
 * proportion, and building a windowed dataset from each part independently.
 */
module Splitting {
  import opened Results
  import opened PySeq
  import opened Windowing

  /** Python's `int(x)` of a float: truncation toward zero. */
  function Trunc(x: real): (r: int)
    ensures 0.0 <= x ==> r as real <= x < r as real + 1.0
    ensures x < 0.0 ==> r as real - 1.0 < x <= r as real
  {
    if x >= 0.0 then x.Floor else -((-x).Floor)
  }

  /** The proportions `split`; only the first two are read, the test part takes the rest. */
  type Proportions = (real, real, real)

  datatype Sizes = Sizes(train: int, valid: int, test: int)

  /** `train_size = int(n * split[0])`, `valid_size = int(n * split[1])`, and the
      test part takes what is left. */
  function SplitSizes(n: nat, split: Proportions): (z: Sizes)
    ensures z.train + z.valid + z.test == n
    ensures 0.0 <= split.0 ==> 0 <= z.train && z.train as real <= Share(n, split.0) < z.train as real + 1.0
    ensures 0.0 <= split.1 ==> 0 <= z.valid && z.valid as real <= Share(n, split.1) < z.valid as real + 1.0
  {
    TruncatedShares(n, Share(n, split.0), Share(n, split.1))
  }

  /** The share `n * p` of a length, written as `n` additions of `p` so that
      reasoning about the sizes stays linear; `ShareIsProduct` shows it is the product. */
  function Share(n: nat, p: real): (r: real)
    ensures 0.0 <= p ==> 0.0 <= r
  {
    if n == 0 then 0.0 else Share(n - 1, p) + p
  }

  lemma {:induction false} ShareIsProduct(n: nat, p: real)
    ensures Share(n, p) == n as real * p
  {
    if n > 0 {
      ShareIsProduct(n - 1, p);
      assert (n - 1) as real * p + p == n as real * p;
    }
  }

  /** The sizes from two shares: each share truncated, and the remainder of `n`. */
  function TruncatedShares(n: nat, a: real, b: real): (z: Sizes)
    ensures z.train + z.valid + z.test == n
    ensures 0.0 <= a ==> z.train as real <= a < z.train as real + 1.0
    ensures 0.0 <= b ==> z.valid as real <= b < z.valid as real + 1.0
  {
    var train, valid := Trunc(a), Trunc(b);
    Sizes(train, valid, n - train - valid)
  }

  /** `df.values[:train_size]` */
  function TrainPart<T>(df: seq<T>, z: Sizes): (r: seq<T>)
    ensures 0 <= z.train <= |df| ==> r == df[..z.train]
    ensures z.train >= |df| ==> r == df
  {
    Slice(df, 0, z.train)
  }

  /** `df.values[train_size:(train_size + valid_size)]` */
  function ValidPart<T>(df: seq<T>, z: Sizes): (r: seq<T>)
    ensures 0 <= z.train && 0 <= z.valid && z.train + z.valid <= |df| ==> r == df[z.train .. z.train + z.valid]
    ensures z.valid == 0 ==> r == []
  {
    Slice(df, z.train, z.train + z.valid)
  }

  /** `df.values[-test_size:]` */
  function TestPart<T>(df: seq<T>, z: Sizes): (r: seq<T>)
    ensures 0 < z.test < |df| ==> r == df[|df| - z.test ..]
    ensures z.test == 0 || z.test >= |df| ==> r == df
  {
    TakeLast(df, z.test)
  }

  predicate ValidProportions(split: Proportions)
  {
    0.0 <= split.0 && 0.0 <= split.1 && split.0 + split.1 <= 1.0
  }

  /** With proportions that are nonnegative and sum to at most one, the three sizes
      are nonnegative and add up to the series length. */
  lemma SizesPartitionLength(n: nat, split: Proportions)
    requires ValidProportions(split)
    ensures var z := SplitSizes(n, split);
      && 0 <= z.train && 0 <= z.valid && 0 <= z.test
      && z.train + z.valid + z.test == n
  {
    SharesFitLength(n, split.0, split.1);
    TruncatedSharesPartition(n, Share(n, split.0), Share(n, split.1));
  }

  /** The shares of a length for two proportions that sum to at most one fit in it. */
  lemma SharesFitLength(n: nat, p: real, q: real)
    requires 0.0 <= p && 0.0 <= q && p + q <= 1.0
    ensures Share(n, p) + Share(n, q) <= n as real
  {
    ShareIsProduct(n, p);
    ShareIsProduct(n, q);
    SharesFit(n as real, p, q);
  }

  /** Two nonnegative shares of `t` whose proportions sum to at most one sum to at most `t`. */
  lemma SharesFit(t: real, p: real, q: real)
    requires 0.0 <= t && 0.0 <= p && 0.0 <= q && p + q <= 1.0
    ensures 0.0 <= t * p && 0.0 <= t * q && t * p + t * q <= t
  {
    assert t * p + t * q == t * (p + q);
    assert t * (p + q) <= t * 1.0;
  }

  lemma TruncatedSharesPartition(n: nat, a: real, b: real)
    requires 0.0 <= a && 0.0 <= b && a + b <= n as real
    ensures var z := TruncatedShares(n, a, b);
      && 0 <= z.train && 0 <= z.valid && 0 <= z.test
      && z.train + z.valid + z.test == n
      && z.train as real <= a < z.train as real + 1.0
      && z.valid as real <= b < z.valid as real + 1.0
  {
    assert (Trunc(a) + Trunc(b)) as real <= n as real;
  }

  /** When the test size is positive the three parts are consecutive, in order,
      disjoint and together exactly the series. */
  lemma PartsPartitionSeries<T>(df: seq<T>, split: Proportions)
    requires ValidProportions(split)
    requires SplitSizes(|df|, split).test > 0
    ensures var z := SplitSizes(|df|, split);
      && 0 <= z.train && 0 <= z.valid && z.train + z.valid < |df|
      && TrainPart(df, z) == df[..z.train]
      && ValidPart(df, z) == df[z.train .. z.train + z.valid]
      && TestPart(df, z) == df[z.train + z.valid ..]
      && TrainPart(df, z) + ValidPart(df, z) + TestPart(df, z) == df
  {
    var z := SplitSizes(|df|, split);
    SizesPartitionLength(|df|, split);
    SliceWithin(df, 0, z.train);
    SliceWithin(df, z.train, z.train + z.valid);
    assert df[..z.train] + df[z.train .. z.train + z.valid] + df[z.train + z.valid ..] == df;
  }

  /** Python's `[-0:]` selects the whole series: the test part is the tail after the
      validation part exactly when the test size is positive (or the series empty);
      with a zero test size it is the whole series and overlaps train and validation. */
  lemma ZeroTestSizeSelectsWholeSeries<T>(df: seq<T>, split: Proportions)
    requires ValidProportions(split)
    ensures var z := SplitSizes(|df|, split);
      && 0 <= z.train + z.valid <= |df|
      && (TestPart(df, z) == df[z.train + z.valid ..] <==> z.test > 0 || |df| == 0)
      && (z.test == 0 ==> TestPart(df, z) == df)
  {
    var z := SplitSizes(|df|, split);
    SizesPartitionLength(|df|, split);
    if z.test == 0 && |df| > 0 {
      assert |df[z.train + z.valid ..]| == 0 < |df|;
    }
  }

  /** A zero test size does occur with admissible proportions. */
  lemma ZeroTestSizeOccurs()
    ensures ValidProportions((0.5, 0.5, 0.0)) && SplitSizes(10, (0.5, 0.5, 0.0)) == Sizes(5, 5, 0)
  {
    ShareIsProduct(10, 0.5);
  }

  datatype Part = Train | Valid | Test

  datatype Prepared = Prepared(train: Dataset, valid: Dataset, test: Dataset)

  /** `prepare_data`: the three parts are windowed one after the other and the first
      failure aborts the whole preparation. */
  function PrepareData(df: seq<real>, lookBack: nat, lookAhead: nat, split: Proportions, std: StdFn)
    : (r: Result<Prepared, (Part, BuildError)>)
    ensures r.Ok? <==> var z := SplitSizes(|df|, split);
      && WellPosed(TrainPart(df, z), lookBack, lookAhead, std)
      && WellPosed(ValidPart(df, z), lookBack, lookAhead, std)
      && WellPosed(TestPart(df, z), lookBack, lookAhead, std)
    ensures r.Err? && r.error.0 == Valid ==> WellPosed(TrainPart(df, SplitSizes(|df|, split)), lookBack, lookAhead, std)
  {
    PrepareParts(df, lookBack, lookAhead, SplitSizes(|df|, split), std)
  }

  /** The preparation for given part sizes `z`. */
  function PrepareParts(df: seq<real>, lookBack: nat, lookAhead: nat, z: Sizes, std: StdFn)
    : (r: Result<Prepared, (Part, BuildError)>)
    ensures r.Ok? <==>
      && WellPosed(TrainPart(df, z), lookBack, lookAhead, std)
      && WellPosed(ValidPart(df, z), lookBack, lookAhead, std)
      && WellPosed(TestPart(df, z), lookBack, lookAhead, std)
    ensures r.Err? && r.error.0 == Valid ==> WellPosed(TrainPart(df, z), lookBack, lookAhead, std)
    ensures r.Ok? ==>
      && r.value.train == CreateDataset(TrainPart(df, z), lookBack, lookAhead, std).value
      && r.value.valid == CreateDataset(ValidPart(df, z), lookBack, lookAhead, std).value
      && r.value.test == CreateDataset(TestPart(df, z), lookBack, lookAhead, std).value
  {
    match CreateDataset(TrainPart(df, z), lookBack, lookAhead, std)
    case Err(e) => Err((Train, e))
    case Ok(train) =>
      match CreateDataset(ValidPart(df, z), lookBack, lookAhead, std)
      case Err(e) => Err((Valid, e))
      case Ok(valid) =>
        match CreateDataset(TestPart(df, z), lookBack, lookAhead, std)
        case Err(e) => Err((Test, e))
        case Ok(test) => Ok(Prepared(train, valid, test))
  }

  /** Sizes that cut a series of length `n` into three consecutive parts, the last
      one nonempty. */
  predicate Partition(z: Sizes, n: nat)
  {
    0 <= z.train && 0 <= z.valid && 0 < z.test && z.train + z.valid + z.test == n
  }

  /** The split sizes of admissible proportions form such a partition exactly when
      the test size is positive. */
  lemma SplitSizesPartition(n: nat, split: Proportions)
    requires ValidProportions(split)
    ensures Partition(SplitSizes(n, split), n) <==> SplitSizes(n, split).test > 0
  {
    SizesPartitionLength(n, split);
  }

  /** Windows never cross part boundaries: for sizes that partition the series, the
      dataset of each part (which `PrepareParts` returns when it succeeds) has one
      sample per window inside that part, and every sample of a part is made of the
      series' prices inside that part, which starts at offset 0, `train_size` or
      `train_size + valid_size` of the series. */
  lemma WindowsStayInsideParts(df: seq<real>, lookBack: nat, lookAhead: nat, z: Sizes, std: StdFn, k: nat)
    requires Partition(z, |df|)
    requires WellPosed(TrainPart(df, z), lookBack, lookAhead, std)
    requires WellPosed(ValidPart(df, z), lookBack, lookAhead, std)
    requires WellPosed(TestPart(df, z), lookBack, lookAhead, std)
    ensures var train, valid, test :=
        CreateDataset(TrainPart(df, z), lookBack, lookAhead, std).value,
        CreateDataset(ValidPart(df, z), lookBack, lookAhead, std).value,
        CreateDataset(TestPart(df, z), lookBack, lookAhead, std).value;
      && |train.means| == z.train - lookBack - lookAhead
      && |valid.means| == z.valid - lookBack - lookAhead
      && |test.means| == z.test - lookBack - lookAhead
      && (k < |train.means| ==> SampleFrom(train, k, df, 0, lookBack, lookAhead, std))
      && (k < |valid.means| ==> SampleFrom(valid, k, df, z.train, lookBack, lookAhead, std))
      && (k < |test.means| ==> SampleFrom(test, k, df, z.train + z.valid, lookBack, lookAhead, std))
  {
    PartWindow(df, 0, TrainPart(df, z), lookBack, lookAhead, std, k);
    PartWindow(df, z.train, ValidPart(df, z), lookBack, lookAhead, std, k);
    PartWindow(df, z.train + z.valid, TestPart(df, z), lookBack, lookAhead, std, k);
  }

  /** Sample `k` of a part that starts at offset `off` of the series is made of the
      series' prices from `off` on. */
  lemma PartWindow(df: seq<real>, off: nat, part: seq<real>, lookBack: nat, lookAhead: nat, std: StdFn, k: nat)
    requires off + |part| <= |df| && part == df[off .. off + |part|]
    requires WellPosed(part, lookBack, lookAhead, std)
    ensures var d := CreateDataset(part, lookBack, lookAhead, std).value;
      && |d.means| == |part| - lookBack - lookAhead
      && (k < |d.means| ==> SampleFrom(d, k, df, off, lookBack, lookAhead, std))
  {
    var d := CreateDataset(part, lookBack, lookAhead, std).value;
    SampleCount(part, lookBack, lookAhead, std);
    if k < |d.means| {
      SamplesFromSeries(part, lookBack, lookAhead, std, k);
      SampleFromSlice(d, k, df, off, part, lookBack, lookAhead, std);
    }
  }

  /** `prepare_data_for_trading_model`: the builder with a look-ahead of one, so each
      target is the price right after its context. */
  function PrepareDataForTradingModel(data: seq<real>, lookBack: nat, std: StdFn): (r: Result<Dataset, BuildError>)
    ensures r.Ok? <==> WellPosed(data, lookBack, 1, std)
    ensures r.Ok? ==> |r.value.means| == |r.value.sds| == |r.value.targets| == |data| - lookBack - 1
    ensures r.Ok? ==> forall k :: 0 <= k < |r.value.targets| ==>
      r.value.sds[k] != 0.0 && r.value.targets[k] == Normalize(data[k + lookBack], r.value.means[k], r.value.sds[k])
  {
    var r := CreateDataset(data, lookBack, 1, std);
    if r.Ok? then
      SampleCount(data, lookBack, 1, std);
      assert forall k :: 0 <= k < |r.value.targets| ==>
        r.value.sds[k] != 0.0 && r.value.targets[k] == Normalize(data[k + lookBack], r.value.means[k], r.value.sds[k]) by {
        forall k | 0 <= k < |r.value.targets|
          ensures r.value.sds[k] != 0.0 && r.value.targets[k] == Normalize(data[k + lookBack], r.value.means[k], r.value.sds[k])
        {
          TargetIsNormalisedLast(data, lookBack, 1, std, k);
        }
      }
      r
    else r
  }
}
