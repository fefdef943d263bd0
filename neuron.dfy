/**
 * Model of Neuron.h: a neuron of the network, its outgoing connections, and the
 * per-neuron steps of forward propagation, gradient computation and weight update.
 *
 * The network stores its neurons by value, inline in a nested vector, and each neuron
 * addresses its weight in an upstream neuron's connection list by its own index.
 * So a neuron is a value here, and every member function that assigns to the neuron's
 * fields is a method that takes the neuron and returns it updated; the network writes
 * the result back into its layer. `updateInputWeights` writes into the previous layer,
 * so its model takes that layer and returns it updated.
 *
 * `tanh` (the transfer function) is a parameter: its floating-point definition is not modelled.
 */
module Neurons {

  /** Overall net learning rate. */
  const Eta: real := 0.15

  /** Momentum: multiplier of the last weight change. */
  const Alpha: real := 0.5

  /** A directed edge to one neuron of the next layer: its weight and the last change applied to it. */
  datatype Connection = Connection(weight: real, deltaWeight: real)

  /**
   * A neuron: its output value, one connection per non-bias neuron of the next layer
   * (addressed by that neuron's index), its own index in its layer, and its gradient.
   */
  datatype Neuron = Neuron(outputVal: real, outputWeights: seq<Connection>, myIndex: nat, gradient: real)

  /** Derivative of tanh, estimated from the value x that tanh produced: 1 - x². */
  function TransferFunctionDerivative(x: real): (r: real)
    ensures r == (1.0 - x) * (1.0 + x)
    ensures r <= 1.0
  {
    1.0 - x * x
  }

  lemma TransferFunctionDerivativeValues(x: real)
    ensures TransferFunctionDerivative(1.0) == 0.0 && TransferFunctionDerivative(-1.0) == 0.0
    ensures TransferFunctionDerivative(0.0) == 1.0
    ensures TransferFunctionDerivative(x) <= 1.0
    ensures TransferFunctionDerivative(x) > 0.0 <==> -1.0 < x < 1.0
  {
    if -1.0 < x < 1.0 {
      if x >= 0.0 {
        assert x * x <= x * 1.0;
      } else {
        assert x * x < (-x) * 1.0;
      }
    } else if x >= 1.0 {
      assert x * x >= x * 1.0;
    } else {
      assert x * x >= (-x) * 1.0;
    }
  }

  // ---------------------------------------------------------------------------
  // Specification functions
  // ---------------------------------------------------------------------------

  /** Every neuron of `layer` holds a connection at column j. */
  predicate HasColumn(layer: seq<Neuron>, j: nat)
  {
    forall m :: 0 <= m < |layer| ==> j < |layer[m].outputWeights|
  }

  /**
   * The weighted input of the neuron with index j of the next layer: the sum, over every
   * neuron of `prevLayer` (the bias neuron included), of its output times its weight at column j.
   */
  function WeightedInput(prevLayer: seq<Neuron>, j: nat): real
    requires HasColumn(prevLayer, j)
    decreases |prevLayer|
  {
    if prevLayer == [] then 0.0
    else
      var last := prevLayer[|prevLayer| - 1];
      WeightedInput(prevLayer[..|prevLayer| - 1], j) + last.outputVal * last.outputWeights[j].weight
  }

  /** The weighted input reads only the outputs and the weights at column j of the previous layer. */
  lemma {:induction false} WeightedInputReadsOnlyColumn(a: seq<Neuron>, b: seq<Neuron>, j: nat)
    requires HasColumn(a, j) && HasColumn(b, j) && |a| == |b|
    requires forall m :: 0 <= m < |a| ==>
      a[m].outputVal == b[m].outputVal && a[m].outputWeights[j].weight == b[m].outputWeights[j].weight
    ensures WeightedInput(a, j) == WeightedInput(b, j)
  {
    if a != [] {
      WeightedInputReadsOnlyColumn(a[..|a| - 1], b[..|b| - 1], j);
    }
  }

  /**
   * The sum of the derivatives of the weights over the first k neurons of the next layer:
   * Σ_{n < k} weights[n].weight * nextLayer[n].gradient.
   */
  function DownstreamSum(weights: seq<Connection>, nextLayer: seq<Neuron>, k: nat): real
    requires k <= |weights| && k <= |nextLayer|
  {
    if k == 0 then 0.0
    else DownstreamSum(weights, nextLayer, k - 1) + weights[k - 1].weight * nextLayer[k - 1].gradient
  }

  /** The downstream sum reads only the first k weights and the gradients of the first k next neurons. */
  lemma {:induction false} DownstreamSumReadsOnlyPrefix(w1: seq<Connection>, n1: seq<Neuron>, w2: seq<Connection>, n2: seq<Neuron>, k: nat)
    requires k <= |w1| && k <= |n1| && k <= |w2| && k <= |n2|
    requires forall n :: 0 <= n < k ==> w1[n].weight == w2[n].weight && n1[n].gradient == n2[n].gradient
    ensures DownstreamSum(w1, n1, k) == DownstreamSum(w2, n2, k)
  {
    if k > 0 {
      DownstreamSumReadsOnlyPrefix(w1, n1, w2, n2, k - 1);
    }
  }

  /** The gradient an output neuron with value `outputVal` receives for target `targetVal`. */
  function OutputGradient(targetVal: real, outputVal: real): real
  {
    (targetVal - outputVal) * TransferFunctionDerivative(outputVal)
  }

  /**
   * For an output inside tanh's open range the gradient points towards the target:
   * it is positive, zero or negative exactly when the target lies above, at or below the output.
   */
  lemma OutputGradientPointsToTarget(targetVal: real, outputVal: real)
    requires -1.0 < outputVal < 1.0
    ensures OutputGradient(targetVal, outputVal) > 0.0 <==> targetVal > outputVal
    ensures OutputGradient(targetVal, outputVal) == 0.0 <==> targetVal == outputVal
    ensures OutputGradient(targetVal, outputVal) < 0.0 <==> targetVal < outputVal
  {
    TransferFunctionDerivativeValues(outputVal);
    var d := TransferFunctionDerivative(outputVal);
    var delta := targetVal - outputVal;
    assert d > 0.0;
    if delta > 0.0 {
      assert delta * d > 0.0;
    } else if delta < 0.0 {
      assert (-delta) * d > 0.0;
    }
  }

  /**
   * The gradient of a hidden neuron: the downstream sum over the next layer without its
   * bias neuron, times the transfer derivative at the neuron's own output.
   */
  function HiddenGradient(neuron: Neuron, nextLayer: seq<Neuron>): real
    requires 1 <= |nextLayer| && |nextLayer| - 1 <= |neuron.outputWeights|
  {
    DownstreamSum(neuron.outputWeights, nextLayer, |nextLayer| - 1) * TransferFunctionDerivative(neuron.outputVal)
  }

  /** A neuron whose output is 1.0, as a bias neuron's is, gets a zero hidden gradient. */
  lemma HiddenGradientOfBias(neuron: Neuron, nextLayer: seq<Neuron>)
    requires 1 <= |nextLayer| && |nextLayer| - 1 <= |neuron.outputWeights|
    requires neuron.outputVal == 1.0
    ensures HiddenGradient(neuron, nextLayer) == 0.0
  {
    TransferFunctionDerivativeValues(1.0);
  }

  /**
   * The momentum update of one connection, fed by a neuron with output `outputVal` into a
   * neuron with gradient `gradient`: the new change is eta * output * gradient plus alpha times
   * the previous change, and it is added to the weight.
   */
  function UpdatedConnection(c: Connection, outputVal: real, gradient: real): (u: Connection)
    ensures u.weight - u.deltaWeight == c.weight
  {
    var newDeltaWeight := Eta * outputVal * gradient + Alpha * c.deltaWeight;
    Connection(c.weight + newDeltaWeight, newDeltaWeight)
  }

  /**
   * When the feeding output or the gradient is zero, only momentum moves the weight: the new
   * change is half the previous one, and a connection at rest stays at rest.
   */
  lemma UpdateWithoutSignalIsMomentum(c: Connection, outputVal: real, gradient: real)
    requires outputVal == 0.0 || gradient == 0.0
    ensures UpdatedConnection(c, outputVal, gradient).deltaWeight == c.deltaWeight / 2.0
    ensures c.deltaWeight == 0.0 ==> UpdatedConnection(c, outputVal, gradient) == c
  {
  }

  /** Neuron `p` with its connection at column j given the momentum update for gradient `gradient`. */
  function UpdatedColumn(p: Neuron, j: nat, gradient: real): (q: Neuron)
    requires j < |p.outputWeights|
    ensures q.outputVal == p.outputVal && q.myIndex == p.myIndex && q.gradient == p.gradient
    ensures |q.outputWeights| == |p.outputWeights|
    ensures q.outputWeights[j] == UpdatedConnection(p.outputWeights[j], p.outputVal, gradient)
    ensures forall c :: 0 <= c < |p.outputWeights| && c != j ==> q.outputWeights[c] == p.outputWeights[c]
  {
    p.(outputWeights := p.outputWeights[j := UpdatedConnection(p.outputWeights[j], p.outputVal, gradient)])
  }

  // ---------------------------------------------------------------------------
  // The member functions of Neuron
  // ---------------------------------------------------------------------------

  /**
   * Neuron(numOutputs, myIndex): `numOutputs` connections, the c-th with the c-th draw of
   * rand()/RAND_MAX as its weight and no previous change, and the neuron's index in its layer.
   * The output value and the gradient, which the constructor leaves uninitialised, are 0.0 here.
   */
  method NewNeuron(numOutputs: nat, myIndex: nat, randomWeight: nat -> real) returns (neuron: Neuron)
    requires forall c :: 0 <= c < numOutputs ==> 0.0 <= randomWeight(c) <= 1.0
    ensures |neuron.outputWeights| == numOutputs && neuron.myIndex == myIndex
    ensures forall c :: 0 <= c < numOutputs ==> neuron.outputWeights[c] == Connection(randomWeight(c), 0.0)
    ensures forall c :: 0 <= c < numOutputs ==> 0.0 <= neuron.outputWeights[c].weight <= 1.0
    ensures neuron.outputVal == 0.0 && neuron.gradient == 0.0
  {
    var outputWeights: seq<Connection> := [];
    var c := 0;
    while c < numOutputs
      invariant 0 <= c <= numOutputs && |outputWeights| == c
      invariant forall k :: 0 <= k < c ==> outputWeights[k] == Connection(randomWeight(k), 0.0)
    {
      // A fresh Connection carries no previous change; its weight is the next random draw.
      outputWeights := outputWeights + [Connection(0.0, 0.0)];
      outputWeights := outputWeights[c := outputWeights[c].(weight := randomWeight(c))];
      c := c + 1;
    }
    neuron := Neuron(0.0, outputWeights, myIndex, 0.0);
  }

  /**
   * feedForward(prevLayer): the output becomes tanh of the weighted input read from column
   * myIndex of the previous layer, bias neuron included; nothing else changes.
   */
  method FeedForward(neuron: Neuron, prevLayer: seq<Neuron>, tanh: real -> real) returns (r: Neuron)
    requires HasColumn(prevLayer, neuron.myIndex)
    ensures r == neuron.(outputVal := tanh(WeightedInput(prevLayer, neuron.myIndex)))
  {
    var sum := 0.0;
    var n := 0;
    while n < |prevLayer|
      invariant 0 <= n <= |prevLayer|
      invariant HasColumn(prevLayer[..n], neuron.myIndex)
      invariant sum == WeightedInput(prevLayer[..n], neuron.myIndex)
    {
      assert prevLayer[..n + 1][..n] == prevLayer[..n];
      sum := sum + prevLayer[n].outputVal * prevLayer[n].outputWeights[neuron.myIndex].weight;
      n := n + 1;
    }
    assert prevLayer[..n] == prevLayer;
    r := neuron.(outputVal := tanh(sum));
  }

  /** calcOutputGradients(targetVal): only the gradient changes, to the output gradient for the target. */
  method CalcOutputGradients(neuron: Neuron, targetVal: real) returns (r: Neuron)
    ensures r == neuron.(gradient := OutputGradient(targetVal, neuron.outputVal))
  {
    var delta := targetVal - neuron.outputVal;
    r := neuron.(gradient := delta * TransferFunctionDerivative(neuron.outputVal));
  }

  /**
   * sumDOW(nextLayer): the downstream sum over the next layer without its bias neuron.
   * The accumulator starts at 0.0 (see SumDOWAsWritten for the code as written).
   */
  method SumDOW(neuron: Neuron, nextLayer: seq<Neuron>) returns (sum: real)
    requires 1 <= |nextLayer| && |nextLayer| - 1 <= |neuron.outputWeights|
    ensures sum == DownstreamSum(neuron.outputWeights, nextLayer, |nextLayer| - 1)
  {
    sum := 0.0;
    var n := 0;
    while n < |nextLayer| - 1
      invariant 0 <= n <= |nextLayer| - 1
      invariant sum == DownstreamSum(neuron.outputWeights, nextLayer, n)
    {
      sum := sum + neuron.outputWeights[n].weight * nextLayer[n].gradient;
      n := n + 1;
    }
  }

  /**
   * sumDOW as written: the accumulator is never initialised, so the result is off by
   * whatever value it happened to hold (`indeterminate`); it is right only when that is 0.0.
   */
  method SumDOWAsWritten(neuron: Neuron, nextLayer: seq<Neuron>, indeterminate: real) returns (sum: real)
    requires 1 <= |nextLayer| && |nextLayer| - 1 <= |neuron.outputWeights|
    ensures sum == indeterminate + DownstreamSum(neuron.outputWeights, nextLayer, |nextLayer| - 1)
    ensures sum == DownstreamSum(neuron.outputWeights, nextLayer, |nextLayer| - 1) <==> indeterminate == 0.0
  {
    sum := indeterminate;
    var n := 0;
    while n < |nextLayer| - 1
      invariant 0 <= n <= |nextLayer| - 1
      invariant sum == indeterminate + DownstreamSum(neuron.outputWeights, nextLayer, n)
    {
      sum := sum + neuron.outputWeights[n].weight * nextLayer[n].gradient;
      n := n + 1;
    }
  }

  /**
   * A hidden neuron with one connection of weight 0.5 into a neuron with gradient 2.0: the
   * downstream sum is 1.0, while SumDOWAsWritten with an accumulator left holding 1.0
   * returns 1.0 + that sum, which is 2.0.
   */
  lemma SumDOWAsWrittenCounterexample()
    ensures var hidden := Neuron(0.0, [Connection(0.5, 0.0)], 0, 0.0);
            var next := [Neuron(0.0, [], 0, 2.0), Neuron(1.0, [], 1, 0.0)];
            DownstreamSum(hidden.outputWeights, next, 1) == 1.0 &&
            1.0 + DownstreamSum(hidden.outputWeights, next, 1) == 2.0
  {
    var hidden := Neuron(0.0, [Connection(0.5, 0.0)], 0, 0.0);
    var next := [Neuron(0.0, [], 0, 2.0), Neuron(1.0, [], 1, 0.0)];
    assert DownstreamSum(hidden.outputWeights, next, 0) == 0.0;
  }

  /** calcHiddenGradients(nextLayer): only the gradient changes, to the hidden gradient. */
  method CalcHiddenGradients(neuron: Neuron, nextLayer: seq<Neuron>) returns (r: Neuron)
    requires 1 <= |nextLayer| && |nextLayer| - 1 <= |neuron.outputWeights|
    ensures r == neuron.(gradient := HiddenGradient(neuron, nextLayer))
  {
    var dow := SumDOW(neuron, nextLayer);
    r := neuron.(gradient := dow * TransferFunctionDerivative(neuron.outputVal));
  }

  /**
   * updateInputWeights(prevLayer): every neuron of the previous layer, bias included, gets the
   * momentum update on its connection at column myIndex; every other column, every output,
   * index and gradient, and the order and number of the neurons stay as they were.
   */
  method UpdateInputWeights(neuron: Neuron, prevLayer: seq<Neuron>) returns (updated: seq<Neuron>)
    requires HasColumn(prevLayer, neuron.myIndex)
    ensures |updated| == |prevLayer|
    ensures forall m :: 0 <= m < |prevLayer| ==> updated[m] == UpdatedColumn(prevLayer[m], neuron.myIndex, neuron.gradient)
  {
    updated := prevLayer;
    var n := 0;
    while n < |updated|
      invariant 0 <= n <= |updated| == |prevLayer|
      invariant forall m :: 0 <= m < n ==> updated[m] == UpdatedColumn(prevLayer[m], neuron.myIndex, neuron.gradient)
      invariant forall m :: n <= m < |prevLayer| ==> updated[m] == prevLayer[m]
    {
      var p := updated[n];
      assert p == prevLayer[n];
      var oldDeltaWeight := p.outputWeights[neuron.myIndex].deltaWeight;
      var newDeltaWeight := Eta * p.outputVal * neuron.gradient + Alpha * oldDeltaWeight;
      var c := p.outputWeights[neuron.myIndex];
      c := c.(deltaWeight := newDeltaWeight);
      c := c.(weight := c.weight + newDeltaWeight);
      assert c == UpdatedConnection(prevLayer[n].outputWeights[neuron.myIndex], prevLayer[n].outputVal, neuron.gradient);
      p := p.(outputWeights := p.outputWeights[neuron.myIndex := c]);
      updated := updated[n := p];
      n := n + 1;
    }
  }
}
