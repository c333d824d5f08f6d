/**
 * Python's slicing rules and the numpy reductions (`sum`, `mean`, `var`)
 * that the data pipeline applies to one-dimensional series of reals.
 */
module PySeq {

  /** How Python normalises one slice bound `k` against a length `n`:
      a negative bound counts from the end, and out-of-range bounds are clamped. */
  function SliceBound(k: int, n: nat): (r: nat)
    ensures r <= n
  {
    if k < 0 then (if n + k < 0 then 0 else n + k)
    else if k > n then n else k
  }

  /** Python's `s[lo:hi]`. */
  function Slice<T>(s: seq<T>, lo: int, hi: int): (r: seq<T>)
    ensures |r| <= |s|
  {
    var i, j := SliceBound(lo, |s|), SliceBound(hi, |s|);
    if i < j then s[i..j] else []
  }

  /** Python's `s[lo:hi]` with both bounds inside the sequence is Dafny's `s[lo..hi]`. */
  lemma SliceWithin<T>(s: seq<T>, lo: int, hi: int)
    requires 0 <= lo <= hi <= |s|
    ensures Slice(s, lo, hi) == s[lo..hi]
  {
  }

  /** `s[:-k]`: everything but the last `k` elements, and nothing at all when `k` is 0
      (Python's `s[:-0]` is `s[:0]`) or when `k` is at least `|s|`. */
  function DropLast<T>(s: seq<T>, k: nat): (r: seq<T>)
    ensures |r| == if 0 < k <= |s| then |s| - k else 0
    ensures forall j :: 0 <= j < |r| ==> r[j] == s[j]
  {
    if 0 < k <= |s| then s[..|s| - k] else []
  }

  /** DropLast is exactly Python's slice `s[:-k]`. */
  lemma DropLastIsPythonSlice<T>(s: seq<T>, k: nat)
    ensures DropLast(s, k) == Slice(s, 0, -(k as int))
  {
  }

  /** Python's `s[-t:]`: the last `t` elements, except that `s[-0:]` is ALL of `s`
      and a `t` of at least `|s|` also selects all of `s`. */
  function TakeLast<T>(s: seq<T>, t: int): (r: seq<T>)
    ensures 0 < t < |s| ==> r == s[|s| - t..]
    ensures t == 0 || t >= |s| ==> r == s
    ensures t < 0 ==> r == s[if -t < |s| then -t else |s|..]
  {
    Slice(s, -t, |s|)
  }

  /** numpy's `sum`, added from the front. */
  function Sum(s: seq<real>): real
  {
    if |s| == 0 then 0.0 else s[0] + Sum(s[1..])
  }

  /** Adding from the back gives the same sum, so the order of the additions is immaterial. */
  lemma {:induction false} SumFromBack(s: seq<real>)
    requires |s| > 0
    ensures Sum(s) == Sum(s[..|s| - 1]) + s[|s| - 1]
  {
    if |s| > 1 {
      SumFromBack(s[1..]);
      assert s[1..][..|s| - 2] == s[..|s| - 1][1..];
    }
  }

  /** numpy's `mean`: the value whose `|s|` copies add up to the sum. */
  function Mean(s: seq<real>): (m: real)
    requires |s| > 0
    ensures m * (|s| as real) == Sum(s)
  {
    Sum(s) / (|s| as real)
  }

  function SquaredDeviations(s: seq<real>, m: real): (r: seq<real>)
    ensures |r| == |s|
    ensures forall j :: 0 <= j < |s| ==> r[j] >= 0.0
  {
    seq(|s|, j requires 0 <= j < |s| => Square(s[j] - m))
  }

  function Square(x: real): (r: real)
    ensures r >= 0.0
  {
    if x >= 0.0 then x * x else (-x) * (-x)
  }

  /** numpy's `var` with its default `ddof=0`; numpy's `std` is its square root. */
  function Variance(s: seq<real>): (v: real)
    requires |s| > 0
    ensures v >= 0.0
    ensures v == Mean(SquaredDeviations(s, Mean(s)))
  {
    SumOfNonNegatives(SquaredDeviations(s, Mean(s)));
    Sum(SquaredDeviations(s, Mean(s))) / (|s| as real)
  }

  lemma {:induction false} SumOfConstant(s: seq<real>, c: real)
    requires forall j :: 0 <= j < |s| ==> s[j] == c
    ensures Sum(s) == (|s| as real) * c
  {
    if |s| > 0 {
      SumOfConstant(s[1..], c);
    }
  }

  /** A sum of nonnegative terms is nonnegative, and it is zero exactly when every term is. */
  lemma {:induction false} SumOfNonNegatives(s: seq<real>)
    requires forall j :: 0 <= j < |s| ==> s[j] >= 0.0
    ensures Sum(s) >= 0.0
    ensures Sum(s) == 0.0 <==> forall j :: 0 <= j < |s| ==> s[j] == 0.0
  {
    if |s| > 0 {
      SumOfNonNegatives(s[1..]);
      if Sum(s) == 0.0 {
        forall j | 0 <= j < |s| ensures s[j] == 0.0 {
          if j > 0 { assert s[j] == s[1..][j - 1]; }
        }
      }
    }
  }

  /** A context whose elements are all equal has mean equal to that element and
      variance zero, so its numpy `std` is zero. */
  lemma ConstantHasZeroVariance(s: seq<real>)
    requires |s| > 0
    requires forall j :: 0 <= j < |s| ==> s[j] == s[0]
    ensures Mean(s) == s[0]
    ensures Variance(s) == 0.0
  {
    SumOfConstant(s, s[0]);
    var d := SquaredDeviations(s, Mean(s));
    SumOfConstant(d, 0.0);
  }
}
