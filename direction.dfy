/**
 * Direction labels for the confusion-matrix metrics: each step of a price series
 * becomes 1 when the price went up and 0 otherwise.
 */
module Direction {

  /** `np.where(d <= 0, 0, 1)` for one difference. */
  function Label(d: real): (r: int)
    ensures r == 0 || r == 1
    ensures r == 1 <==> d > 0.0
  {
    if d <= 0.0 then 0 else 1
  }

  /** `np.where((y[1:] - y[:-1]) <= 0, 0, 1)`: the actual direction of every step. */
  function TrueDirections(y: seq<real>): (r: seq<int>)
    ensures |r| == if |y| == 0 then 0 else |y| - 1
    ensures forall k :: 0 <= k < |r| ==> (r[k] == 0 || r[k] == 1)
    ensures forall k :: 0 <= k < |r| ==> (r[k] == 1 <==> y[k + 1] > y[k])
  {
    if |y| == 0 then [] else seq(|y| - 1, k requires 0 <= k < |y| - 1 => Label(y[k + 1] - y[k]))
  }

  /** `np.where((p[1:] - y[:-1]) <= 0, 0, 1)`: the predicted direction of every step,
      measured from the ACTUAL price `y[k]` to the predicted next price `p[k + 1]`. */
  function PredictedDirections(p: seq<real>, y: seq<real>): (r: seq<int>)
    requires |p| == |y|
    ensures |r| == if |y| == 0 then 0 else |y| - 1
    ensures forall k :: 0 <= k < |r| ==> (r[k] == 0 || r[k] == 1)
    ensures forall k :: 0 <= k < |r| ==> (r[k] == 1 <==> p[k + 1] > y[k])
  {
    if |y| == 0 then [] else seq(|y| - 1, k requires 0 <= k < |y| - 1 => Label(p[k + 1] - y[k]))
  }

  /** A forecast that hits every price gets every direction right. */
  lemma PerfectForecastHasTrueDirections(p: seq<real>, y: seq<real>)
    requires |p| == |y|
    requires forall k :: 1 <= k < |p| ==> p[k] == y[k]
    ensures PredictedDirections(p, y) == TrueDirections(y)
  {
  }

  /** The predicted label is not the direction of the forecast series itself: a forecast
      that falls from 5 to 2 above an actual price of 1 is labelled "up". */
  lemma PredictedDirectionUsesActualBaseline()
    ensures PredictedDirections([5.0, 2.0], [1.0, 3.0]) == [1]
    ensures TrueDirections([5.0, 2.0]) == [0]
  {
  }
}
