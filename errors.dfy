/**
 * The error measurement of Net::backProp: the root-mean-square error of the output layer
 * against the targets, and the recent average that smooths it over successive calls.
 */
module NetErrors {
  import opened Neurons

  /** Σ over the first k non-bias output neurons of (target - output)². */
  function SquaredError(targetVals: seq<real>, outputLayer: seq<Neuron>, k: nat): real
    requires k <= |targetVals| && k <= |outputLayer|
  {
    if k == 0 then 0.0
    else
      SquaredError(targetVals, outputLayer, k - 1) +
        (targetVals[k - 1] - outputLayer[k - 1].outputVal) * (targetVals[k - 1] - outputLayer[k - 1].outputVal)
  }

  lemma SquareOfNegative(x: real)
    requires x < 0.0
    ensures x * x > 0.0
  {
  }

  lemma SquareOfPositive(x: real)
    requires x > 0.0
    ensures x * x > 0.0
  {
  }

  lemma SquareOfNonZero(x: real)
    requires x != 0.0
    ensures x * x > 0.0
  {
    if x < 0.0 {
      SquareOfNegative(x);
    } else {
      SquareOfPositive(x);
    }
  }

  lemma {:induction false} SquaredErrorNonNegative(targetVals: seq<real>, outputLayer: seq<Neuron>, k: nat)
    requires k <= |targetVals| && k <= |outputLayer|
    ensures SquaredError(targetVals, outputLayer, k) >= 0.0
  {
    if k > 0 {
      SquaredErrorNonNegative(targetVals, outputLayer, k - 1);
      var delta := targetVals[k - 1] - outputLayer[k - 1].outputVal;
      if delta != 0.0 {
        SquareOfNonZero(delta);
      }
    }
  }

  lemma {:induction false} SquaredErrorOfMatch(targetVals: seq<real>, outputLayer: seq<Neuron>, k: nat)
    requires k <= |targetVals| && k <= |outputLayer|
    requires forall n :: 0 <= n < k ==> outputLayer[n].outputVal == targetVals[n]
    ensures SquaredError(targetVals, outputLayer, k) == 0.0
  {
    if k > 0 {
      SquaredErrorOfMatch(targetVals, outputLayer, k - 1);
    }
  }

  lemma {:induction false} SquaredErrorOfMismatch(targetVals: seq<real>, outputLayer: seq<Neuron>, k: nat, i: nat)
    requires k <= |targetVals| && k <= |outputLayer|
    requires i < k && outputLayer[i].outputVal != targetVals[i]
    ensures SquaredError(targetVals, outputLayer, k) > 0.0
  {
    SquaredErrorNonNegative(targetVals, outputLayer, k - 1);
    var delta := targetVals[k - 1] - outputLayer[k - 1].outputVal;
    if i == k - 1 {
      SquareOfNonZero(delta);
      calc {
        SquaredError(targetVals, outputLayer, k);
      ==
        SquaredError(targetVals, outputLayer, k - 1) + delta * delta;
      >
        SquaredError(targetVals, outputLayer, k - 1);
      >=
        0.0;
      }
    } else {
      SquaredErrorOfMismatch(targetVals, outputLayer, k - 1, i);
      if delta != 0.0 {
        SquareOfNonZero(delta);
      }
    }
  }

  /** The squared error is never negative, and it is zero exactly when each output meets its target. */
  lemma SquaredErrorZero(targetVals: seq<real>, outputLayer: seq<Neuron>, k: nat)
    requires k <= |targetVals| && k <= |outputLayer|
    ensures SquaredError(targetVals, outputLayer, k) >= 0.0
    ensures SquaredError(targetVals, outputLayer, k) == 0.0 <==>
      forall n :: 0 <= n < k ==> outputLayer[n].outputVal == targetVals[n]
  {
    SquaredErrorNonNegative(targetVals, outputLayer, k);
    if forall n :: 0 <= n < k ==> outputLayer[n].outputVal == targetVals[n] {
      SquaredErrorOfMatch(targetVals, outputLayer, k);
    } else {
      var i :| 0 <= i < k && outputLayer[i].outputVal != targetVals[i];
      SquaredErrorOfMismatch(targetVals, outputLayer, k, i);
    }
  }

  /**
   * The mean of (target - output)² over the non-bias output neurons: the quantity whose square
   * root backProp records as the net error.
   */
  function MeanSquaredError(targetVals: seq<real>, outputLayer: seq<Neuron>): real
    requires 2 <= |outputLayer| && |outputLayer| - 1 <= |targetVals|
  {
    SquaredError(targetVals, outputLayer, |outputLayer| - 1) / ((|outputLayer| - 1) as real)
  }

  /** The mean squared error is never negative, and it is zero exactly when the outputs meet their targets. */
  lemma MeanSquaredErrorZero(targetVals: seq<real>, outputLayer: seq<Neuron>)
    requires 2 <= |outputLayer| && |outputLayer| - 1 <= |targetVals|
    ensures MeanSquaredError(targetVals, outputLayer) >= 0.0
    ensures MeanSquaredError(targetVals, outputLayer) == 0.0 <==>
      forall n :: 0 <= n < |outputLayer| - 1 ==> outputLayer[n].outputVal == targetVals[n]
  {
    SquaredErrorZero(targetVals, outputLayer, |outputLayer| - 1);
  }

  /** The smoothed error: the previous average weighted by the smoothing factor, plus the new error. */
  function RecentAverage(previous: real, smoothingFactor: real, error: real): (r: real)
    requires smoothingFactor + 1.0 != 0.0
    ensures r * (smoothingFactor + 1.0) == previous * smoothingFactor + error
    ensures smoothingFactor == 0.0 ==> r == error
  {
    (previous * smoothingFactor + error) / (smoothingFactor + 1.0)
  }

  /**
   * The average stays put exactly when the new error equals it, and for a non-negative
   * smoothing factor it moves towards the new error without passing it.
   */
  lemma RecentAverageBetween(previous: real, smoothingFactor: real, error: real)
    requires smoothingFactor + 1.0 != 0.0
    ensures RecentAverage(previous, smoothingFactor, error) == previous <==> error == previous
    ensures smoothingFactor >= 0.0 && previous <= error ==>
      previous <= RecentAverage(previous, smoothingFactor, error) <= error
    ensures smoothingFactor >= 0.0 && error <= previous ==>
      error <= RecentAverage(previous, smoothingFactor, error) <= previous
  {
    var k := smoothingFactor;
    var d := k + 1.0;
    var r := RecentAverage(previous, k, error);
    assert r * d == previous * k + error;
    assert (r - previous) * d == error - previous;
    assert (error - r) * d == (error - previous) * k;
    if error == previous {
      ZeroFactor(r - previous, d);
    }
    if k >= 0.0 {
      if previous <= error {
        assert (error - previous) * k >= 0.0;
        NonNegativeFactor(r - previous, d);
        NonNegativeFactor(error - r, d);
      } else {
        assert (previous - error) * k >= 0.0;
        NonNegativeFactor(previous - r, d);
        NonNegativeFactor(r - error, d);
      }
    }
  }

  lemma ZeroFactor(x: real, d: real)
    requires d != 0.0 && x * d == 0.0
    ensures x == 0.0
  {
  }

  lemma NonNegativeFactor(x: real, d: real)
    requires d > 0.0 && x * d >= 0.0
    ensures x >= 0.0
  {
  }

  /**
   * backProp's error measurement: the sum of the squared differences between target and
   * output over the non-bias output neurons, divided by their number, then its square root.
   */
  method RmsError(targetVals: seq<real>, outputLayer: seq<Neuron>, sqrt: real -> real) returns (error: real)
    requires 2 <= |outputLayer| && |outputLayer| - 1 <= |targetVals|
    ensures error == sqrt(MeanSquaredError(targetVals, outputLayer))
  {
    error := 0.0;
    var n := 0;
    while n < |outputLayer| - 1
      invariant 0 <= n <= |outputLayer| - 1
      invariant error == SquaredError(targetVals, outputLayer, n)
    {
      error := error + (targetVals[n] - outputLayer[n].outputVal) * (targetVals[n] - outputLayer[n].outputVal);
      n := n + 1;
    }
    error := error / ((|outputLayer| - 1) as real);
    error := sqrt(error);
  }
}
