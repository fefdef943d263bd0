/**
 * Model of Net.h: the network, a table of layers of neurons addressed by layer and
 * neuron number, built once from a topology and then driven by feed-forward,
 * back-propagation and reading back of the results.
 *
 * `tanh` and `sqrt` are parameters, and the initial weights, which the source draws from
 * rand()/RAND_MAX, are supplied by a function bounded to [0, 1].
 */
module Network {
  import opened Neurons
  import opened NetErrors

  // ---------------------------------------------------------------------------
  // The shape of a net
  // ---------------------------------------------------------------------------

  /** The number of connections of every neuron of layer L: none in the last layer. */
  function NumOutputs(topology: seq<nat>, L: nat): nat
    requires L < |topology|
  {
    if L == |topology| - 1 then 0 else topology[L + 1]
  }

  /**
   * A layer of `size` neurons plus a bias neuron: every neuron's index is its position,
   * every neuron has `numOutputs` connections, and the bias neuron's output is 1.0.
   */
  predicate WellFormedLayer(layer: seq<Neuron>, size: nat, numOutputs: nat)
  {
    |layer| == size + 1 &&
    (forall n :: 0 <= n < |layer| ==> layer[n].myIndex == n && |layer[n].outputWeights| == numOutputs) &&
    layer[size].outputVal == 1.0
  }

  /**
   * The construction invariant of a net built from `topology`: one layer per entry, layer L
   * well formed with topology[L] neurons and NumOutputs(topology, L) connections per neuron.
   */
  predicate WellFormed(layers: seq<seq<Neuron>>, topology: seq<nat>)
  {
    |layers| == |topology| &&
    forall L :: 0 <= L < |layers| ==> WellFormedLayer(layers[L], topology[L], NumOutputs(topology, L))
  }

  /**
   * Under the construction invariant, a neuron of the last layer has no connections, and a
   * neuron of any other layer has one per non-bias neuron of the next layer.
   */
  lemma ConnectionsMatchNextLayer(layers: seq<seq<Neuron>>, topology: seq<nat>, L: nat, n: nat)
    requires WellFormed(layers, topology) && L < |layers| && n < |layers[L]|
    ensures L + 1 < |layers| ==> |layers[L][n].outputWeights| == |layers[L + 1]| - 1
    ensures L + 1 == |layers| ==> |layers[L][n].outputWeights| == 0
  {
    assert WellFormedLayer(layers[L], topology[L], NumOutputs(topology, L));
    if L + 1 < |layers| {
      assert WellFormedLayer(layers[L + 1], topology[L + 1], NumOutputs(topology, L + 1));
    }
  }

  /**
   * The construction invariant keeps every index the network uses in bounds: layer L has a
   * column for each non-bias neuron n of layer L + 1 (feedForward, updateInputWeights), and
   * each of its neurons has a connection to every non-bias neuron of layer L + 1 (sumDOW).
   */
  lemma WellFormedColumns(layers: seq<seq<Neuron>>, topology: seq<nat>, L: nat)
    requires WellFormed(layers, topology) && L + 1 < |layers|
    ensures forall n :: 0 <= n < |layers[L + 1]| - 1 ==> HasColumn(layers[L], n)
    ensures WellFormedLayer(layers[L + 1], topology[L + 1], NumOutputs(topology, L + 1))
    ensures 1 <= |layers[L + 1]|
    ensures forall n :: 0 <= n < |layers[L]| ==> |layers[L + 1]| - 1 <= |layers[L][n].outputWeights|
  {
    assert WellFormedLayer(layers[L], topology[L], NumOutputs(topology, L));
    assert WellFormedLayer(layers[L + 1], topology[L + 1], NumOutputs(topology, L + 1));
  }

  // ---------------------------------------------------------------------------
  // Frames: which fields of the neurons an operation may change
  // ---------------------------------------------------------------------------

  /** `y` is `x` with at most the outputs of its neurons changed. */
  predicate LayerOutputsOnly(x: seq<Neuron>, y: seq<Neuron>)
  {
    |y| == |x| && forall n :: 0 <= n < |x| ==> y[n] == x[n].(outputVal := y[n].outputVal)
  }

  /** `y` is `x` with at most the gradients of its neurons changed. */
  predicate LayerGradientsOnly(x: seq<Neuron>, y: seq<Neuron>)
  {
    |y| == |x| && forall n :: 0 <= n < |x| ==> y[n] == x[n].(gradient := y[n].gradient)
  }

  /** `y` is `x` with at most the connections' weights changed, not their number. */
  predicate LayerWeightsOnly(x: seq<Neuron>, y: seq<Neuron>)
  {
    |y| == |x| &&
    forall n :: 0 <= n < |x| ==>
      |y[n].outputWeights| == |x[n].outputWeights| && y[n] == x[n].(outputWeights := y[n].outputWeights)
  }

  /** `y` is `x` with at most gradients and connection weights changed: what learning changes. */
  predicate LayerLearningOnly(x: seq<Neuron>, y: seq<Neuron>)
  {
    |y| == |x| &&
    forall n :: 0 <= n < |x| ==>
      |y[n].outputWeights| == |x[n].outputWeights| &&
      y[n] == x[n].(gradient := y[n].gradient, outputWeights := y[n].outputWeights)
  }

  predicate OutputsOnly(a: seq<seq<Neuron>>, b: seq<seq<Neuron>>)
  {
    |b| == |a| && forall L :: 0 <= L < |a| ==> LayerOutputsOnly(a[L], b[L])
  }

  predicate GradientsOnly(a: seq<seq<Neuron>>, b: seq<seq<Neuron>>)
  {
    |b| == |a| && forall L :: 0 <= L < |a| ==> LayerGradientsOnly(a[L], b[L])
  }

  predicate WeightsOnly(a: seq<seq<Neuron>>, b: seq<seq<Neuron>>)
  {
    |b| == |a| && forall L :: 0 <= L < |a| ==> LayerWeightsOnly(a[L], b[L])
  }

  predicate LearningOnly(a: seq<seq<Neuron>>, b: seq<seq<Neuron>>)
  {
    |b| == |a| && forall L :: 0 <= L < |a| ==> LayerLearningOnly(a[L], b[L])
  }

  /** Layer by layer, the last neuron (the bias neuron) is the same in `a` and `b`. */
  predicate BiasKept(a: seq<seq<Neuron>>, b: seq<seq<Neuron>>)
  {
    |b| == |a| &&
    forall L :: 0 <= L < |a| ==> |b[L]| == |a[L]| && (0 < |a[L]| ==> b[L][|a[L]| - 1] == a[L][|a[L]| - 1])
  }

  predicate SameLayerOutputs(x: seq<Neuron>, y: seq<Neuron>)
  {
    |x| == |y| && forall n :: 0 <= n < |x| ==> x[n].outputVal == y[n].outputVal
  }

  predicate SameLayerGradients(x: seq<Neuron>, y: seq<Neuron>)
  {
    |x| == |y| && forall n :: 0 <= n < |x| ==> x[n].gradient == y[n].gradient
  }

  predicate SameLayerWeights(x: seq<Neuron>, y: seq<Neuron>)
  {
    |x| == |y| && forall n :: 0 <= n < |x| ==> x[n].outputWeights == y[n].outputWeights
  }

  /** Changing only the outputs, and no bias neuron, keeps the construction invariant. */
  lemma OutputsOnlyWellFormed(a: seq<seq<Neuron>>, b: seq<seq<Neuron>>, topology: seq<nat>)
    requires WellFormed(a, topology) && OutputsOnly(a, b) && BiasKept(a, b)
    ensures WellFormed(b, topology)
  {
    forall L | 0 <= L < |b|
      ensures WellFormedLayer(b[L], topology[L], NumOutputs(topology, L))
    {
      assert WellFormedLayer(a[L], topology[L], NumOutputs(topology, L));
      assert LayerOutputsOnly(a[L], b[L]);
    }
  }

  /** Learning keeps the construction invariant. */
  lemma LearningOnlyWellFormed(a: seq<seq<Neuron>>, b: seq<seq<Neuron>>, topology: seq<nat>)
    requires WellFormed(a, topology) && LearningOnly(a, b)
    ensures WellFormed(b, topology)
  {
    forall L | 0 <= L < |b|
      ensures WellFormedLayer(b[L], topology[L], NumOutputs(topology, L))
    {
      assert WellFormedLayer(a[L], topology[L], NumOutputs(topology, L));
      assert LayerLearningOnly(a[L], b[L]);
    }
  }

  lemma OutputsOnlyTransitive(a: seq<seq<Neuron>>, b: seq<seq<Neuron>>, c: seq<seq<Neuron>>)
    requires OutputsOnly(a, b) && OutputsOnly(b, c)
    ensures OutputsOnly(a, c)
  {
    forall L | 0 <= L < |a|
      ensures LayerOutputsOnly(a[L], c[L])
    {
      assert LayerOutputsOnly(a[L], b[L]) && LayerOutputsOnly(b[L], c[L]);
    }
  }

  lemma BiasKeptTransitive(a: seq<seq<Neuron>>, b: seq<seq<Neuron>>, c: seq<seq<Neuron>>)
    requires BiasKept(a, b) && BiasKept(b, c)
    ensures BiasKept(a, c)
  {
  }

  /** Changing gradients and then weights is learning. */
  lemma GradientsThenWeights(a: seq<seq<Neuron>>, b: seq<seq<Neuron>>, c: seq<seq<Neuron>>)
    requires GradientsOnly(a, b) && WeightsOnly(b, c)
    ensures LearningOnly(a, c)
  {
    forall L | 0 <= L < |a|
      ensures LayerLearningOnly(a[L], c[L])
    {
      assert LayerGradientsOnly(a[L], b[L]) && LayerWeightsOnly(b[L], c[L]);
    }
  }

  lemma GradientsOnlyTransitive(a: seq<seq<Neuron>>, b: seq<seq<Neuron>>, c: seq<seq<Neuron>>)
    requires GradientsOnly(a, b) && GradientsOnly(b, c)
    ensures GradientsOnly(a, c)
  {
    forall L | 0 <= L < |a|
      ensures LayerGradientsOnly(a[L], c[L])
    {
      assert LayerGradientsOnly(a[L], b[L]) && LayerGradientsOnly(b[L], c[L]);
    }
  }

  /** Changing only gradients keeps the construction invariant. */
  lemma GradientsOnlyWellFormed(a: seq<seq<Neuron>>, b: seq<seq<Neuron>>, topology: seq<nat>)
    requires WellFormed(a, topology) && GradientsOnly(a, b)
    ensures WellFormed(b, topology)
  {
    forall L | 0 <= L < |b|
      ensures WellFormedLayer(b[L], topology[L], NumOutputs(topology, L))
    {
      assert WellFormedLayer(a[L], topology[L], NumOutputs(topology, L));
      assert LayerGradientsOnly(a[L], b[L]);
    }
  }

  // ---------------------------------------------------------------------------
  // What each pass leaves in a layer
  // ---------------------------------------------------------------------------

  /** Every non-bias neuron of `layer` holds tanh of its weighted input from `prevLayer`. */
  predicate FedForward(layer: seq<Neuron>, prevLayer: seq<Neuron>, tanh: real -> real)
  {
    forall n :: 0 <= n < |layer| - 1 ==>
      HasColumn(prevLayer, n) && layer[n].outputVal == tanh(WeightedInput(prevLayer, n))
  }

  /**
   * A net of one input and one output, every weight 1.0: the output neuron's value after the
   * forward pass is tanh of the input plus the bias neuron's contribution 1.0.
   */
  lemma FedForwardOneInput(x: real, inputLayer: seq<Neuron>, outputLayer: seq<Neuron>, tanh: real -> real)
    requires |inputLayer| == 2 && inputLayer[0].outputVal == x && inputLayer[1].outputVal == 1.0
    requires forall m :: 0 <= m < 2 ==> |inputLayer[m].outputWeights| == 1 && inputLayer[m].outputWeights[0].weight == 1.0
    requires |outputLayer| == 2 && FedForward(outputLayer, inputLayer, tanh)
    ensures outputLayer[0].outputVal == tanh(x + 1.0)
  {
    var first := inputLayer[..1];
    assert first[..0] == [] && first[0] == inputLayer[0];
    assert WeightedInput(first, 0) == x;
    assert inputLayer[..|inputLayer| - 1] == first;
    assert WeightedInput(inputLayer, 0) == x + 1.0;
  }

  /** Every non-bias neuron of `outputLayer` holds the gradient towards its target. */
  predicate OutputGradientsSet(outputLayer: seq<Neuron>, targetVals: seq<real>)
  {
    |outputLayer| - 1 <= |targetVals| &&
    forall n :: 0 <= n < |outputLayer| - 1 ==>
      outputLayer[n].gradient == OutputGradient(targetVals[n], outputLayer[n].outputVal)
  }

  /**
   * Every neuron of `after`, bias included, holds the hidden gradient of the same neuron of
   * `before` against `nextLayer`.
   */
  predicate HiddenGradientsSet(before: seq<Neuron>, after: seq<Neuron>, nextLayer: seq<Neuron>)
  {
    1 <= |nextLayer| && |after| == |before| &&
    forall n :: 0 <= n < |before| ==>
      |nextLayer| - 1 <= |before[n].outputWeights| && after[n].gradient == HiddenGradient(before[n], nextLayer)
  }

  /**
   * Column c < k of every neuron of `after` holds the momentum update of the same column of
   * `before`, driven by the gradient of neuron c of `next`; every other column is as in `before`.
   */
  predicate ColumnsUpdated(before: seq<Neuron>, after: seq<Neuron>, next: seq<Neuron>, k: int)
  {
    |after| == |before| &&
    (forall m :: 0 <= m < |before| ==> |after[m].outputWeights| == |before[m].outputWeights|) &&
    (forall m, c :: 0 <= m < |before| && 0 <= c < |before[m].outputWeights| ==>
      after[m].outputWeights[c] ==
        if c < k && c < |next| then UpdatedConnection(before[m].outputWeights[c], before[m].outputVal, next[c].gradient)
        else before[m].outputWeights[c])
  }

  lemma ColumnsUpdatedAt(before: seq<Neuron>, after: seq<Neuron>, next: seq<Neuron>, k: int, m: nat, c: nat)
    requires ColumnsUpdated(before, after, next, k) && m < |before| && c < |before[m].outputWeights|
    ensures after[m].outputWeights[c] ==
      if c < k && c < |next| then UpdatedConnection(before[m].outputWeights[c], before[m].outputVal, next[c].gradient)
      else before[m].outputWeights[c]
  {
  }

  /** Updating column k with next[k]'s gradient extends the updated columns from k to k + 1. */
  lemma ColumnsUpdatedStep(before: seq<Neuron>, current: seq<Neuron>, updated: seq<Neuron>, next: seq<Neuron>, k: nat)
    requires k < |next| && HasColumn(current, k)
    requires ColumnsUpdated(before, current, next, k)
    requires forall m :: 0 <= m < |before| ==> current[m].outputVal == before[m].outputVal
    requires |updated| == |current|
    requires forall m :: 0 <= m < |current| ==> updated[m] == UpdatedColumn(current[m], k, next[k].gradient)
    ensures ColumnsUpdated(before, updated, next, k + 1)
  {
    forall m, c | 0 <= m < |before| && 0 <= c < |before[m].outputWeights|
      ensures updated[m].outputWeights[c] ==
        if c < k + 1 && c < |next| then UpdatedConnection(before[m].outputWeights[c], before[m].outputVal, next[c].gradient)
        else before[m].outputWeights[c]
    {
      assert updated[m] == UpdatedColumn(current[m], k, next[k].gradient);
      assert |current[m].outputWeights| == |before[m].outputWeights|;
      ColumnsUpdatedAt(before, current, next, k, m, c);
      if c == k {
        assert current[m].outputWeights[c] == before[m].outputWeights[c];
      } else {
        assert updated[m].outputWeights[c] == current[m].outputWeights[c];
      }
    }
  }

  /**
   * Which columns are updated reads only the outputs and weights of the layer before the
   * update and the gradients of the next layer.
   */
  lemma ColumnsUpdatedReadsOnly(before1: seq<Neuron>, before2: seq<Neuron>, after: seq<Neuron>,
                                next1: seq<Neuron>, next2: seq<Neuron>, k: int)
    requires SameLayerOutputs(before1, before2) && SameLayerWeights(before1, before2)
    requires SameLayerGradients(next1, next2)
    requires ColumnsUpdated(before1, after, next1, k)
    ensures ColumnsUpdated(before2, after, next2, k)
  {
    forall m, c | 0 <= m < |before2| && 0 <= c < |before2[m].outputWeights|
      ensures after[m].outputWeights[c] ==
        if c < k && c < |next2| then UpdatedConnection(before2[m].outputWeights[c], before2[m].outputVal, next2[c].gradient)
        else before2[m].outputWeights[c]
    {
      ColumnsUpdatedAt(before1, after, next1, k, m, c);
    }
  }

  /**
   * The hidden gradients read only the layer's outputs and weights and the next layer's
   * gradients, and they are all the gradients of `after` that matter.
   */
  lemma HiddenGradientsSetReadsOnly(before1: seq<Neuron>, before2: seq<Neuron>, after1: seq<Neuron>, after2: seq<Neuron>,
                                    next1: seq<Neuron>, next2: seq<Neuron>)
    requires SameLayerOutputs(before1, before2) && SameLayerWeights(before1, before2)
    requires SameLayerGradients(after1, after2) && SameLayerGradients(next1, next2)
    requires HiddenGradientsSet(before1, after1, next1)
    ensures HiddenGradientsSet(before2, after2, next2)
  {
    forall n | 0 <= n < |before2|
      ensures after2[n].gradient == HiddenGradient(before2[n], next2)
    {
      assert after1[n].gradient == HiddenGradient(before1[n], next1);
      DownstreamSumReadsOnlyPrefix(before1[n].outputWeights, next1, before2[n].outputWeights, next2, |next1| - 1);
    }
  }

  // ---------------------------------------------------------------------------
  // The inner loops of the network's methods, one layer at a time. Each takes the layer
  // (and the neighbour it reads) and returns the layer as the loop leaves it; the network
  // stores the result back into its table.
  // ---------------------------------------------------------------------------

  /** feedForward, inner loop: every non-bias neuron of `layer` takes its output from `prevLayer`. */
  method FeedForwardLayer(layer: seq<Neuron>, prevLayer: seq<Neuron>, tanh: real -> real) returns (r: seq<Neuron>)
    requires 1 <= |layer| && forall n :: 0 <= n < |layer| - 1 ==> HasColumn(prevLayer, layer[n].myIndex)
    ensures |r| == |layer| && r[|layer| - 1] == layer[|layer| - 1]
    ensures forall n :: 0 <= n < |layer| - 1 ==>
      r[n] == layer[n].(outputVal := tanh(WeightedInput(prevLayer, layer[n].myIndex)))
  {
    r := layer;
    var n := 0;
    while n < |layer| - 1
      invariant 0 <= n <= |layer| - 1 && |r| == |layer|
      invariant forall m :: n <= m < |layer| ==> r[m] == layer[m]
      invariant forall m :: 0 <= m < n ==> r[m] == layer[m].(outputVal := tanh(WeightedInput(prevLayer, layer[m].myIndex)))
    {
      var neuron := Neurons.FeedForward(r[n], prevLayer, tanh);
      r := r[n := neuron];
      n := n + 1;
    }
  }

  /** backProp, output layer: every non-bias neuron gets the gradient towards its target. */
  method CalcOutputLayerGradients(outputLayer: seq<Neuron>, targetVals: seq<real>) returns (r: seq<Neuron>)
    requires 1 <= |outputLayer| && |outputLayer| - 1 <= |targetVals|
    ensures |r| == |outputLayer| && r[|outputLayer| - 1] == outputLayer[|outputLayer| - 1]
    ensures forall n :: 0 <= n < |outputLayer| - 1 ==>
      r[n] == outputLayer[n].(gradient := OutputGradient(targetVals[n], outputLayer[n].outputVal))
  {
    r := outputLayer;
    var n := 0;
    while n < |outputLayer| - 1
      invariant 0 <= n <= |outputLayer| - 1 && |r| == |outputLayer|
      invariant forall m :: n <= m < |outputLayer| ==> r[m] == outputLayer[m]
      invariant forall m :: 0 <= m < n ==>
        r[m] == outputLayer[m].(gradient := OutputGradient(targetVals[m], outputLayer[m].outputVal))
    {
      var neuron := CalcOutputGradients(r[n], targetVals[n]);
      r := r[n := neuron];
      n := n + 1;
    }
  }

  /** backProp, one hidden layer: every neuron, bias included, gets its gradient from `nextLayer`. */
  method CalcHiddenLayerGradients(hiddenLayer: seq<Neuron>, nextLayer: seq<Neuron>) returns (r: seq<Neuron>)
    requires 1 <= |nextLayer|
    requires forall n :: 0 <= n < |hiddenLayer| ==> |nextLayer| - 1 <= |hiddenLayer[n].outputWeights|
    ensures |r| == |hiddenLayer|
    ensures forall n :: 0 <= n < |hiddenLayer| ==>
      r[n] == hiddenLayer[n].(gradient := HiddenGradient(hiddenLayer[n], nextLayer))
  {
    r := hiddenLayer;
    var n := 0;
    while n < |hiddenLayer|
      invariant 0 <= n <= |hiddenLayer| && |r| == |hiddenLayer|
      invariant forall m :: n <= m < |hiddenLayer| ==> r[m] == hiddenLayer[m]
      invariant forall m :: 0 <= m < n ==>
        r[m] == hiddenLayer[m].(gradient := HiddenGradient(hiddenLayer[m], nextLayer))
    {
      var neuron := CalcHiddenGradients(r[n], nextLayer);
      r := r[n := neuron];
      n := n + 1;
    }
  }

  /**
   * backProp, one layer's weight update: each non-bias neuron n of `layer` updates column n of
   * every neuron of `prevLayer`. The result is `prevLayer` with exactly those columns updated,
   * each from the gradient of the neuron it feeds; nothing but connections changes.
   */
  method UpdateLayerInputWeights(layer: seq<Neuron>, prevLayer: seq<Neuron>) returns (newPrev: seq<Neuron>)
    requires 1 <= |layer|
    requires forall n :: 0 <= n < |layer| - 1 ==> layer[n].myIndex == n && HasColumn(prevLayer, n)
    ensures ColumnsUpdated(prevLayer, newPrev, layer, |layer| - 1)
    ensures forall m :: 0 <= m < |prevLayer| ==> newPrev[m] == prevLayer[m].(outputWeights := newPrev[m].outputWeights)
  {
    newPrev := prevLayer;
    var n := 0;
    while n < |layer| - 1
      invariant 0 <= n <= |layer| - 1
      invariant ColumnsUpdated(prevLayer, newPrev, layer, n)
      invariant forall m :: 0 <= m < |prevLayer| ==> newPrev[m] == prevLayer[m].(outputWeights := newPrev[m].outputWeights)
    {
      var updated := UpdateInputWeights(layer[n], newPrev);
      ColumnsUpdatedStep(prevLayer, newPrev, updated, layer, n);
      newPrev := updated;
      n := n + 1;
    }
  }

  // ---------------------------------------------------------------------------
  // The passes of feedForward and backProp over the whole table. Each loop keeps one
  // invariant, and a lemma shows that one step of the loop preserves it.
  // ---------------------------------------------------------------------------

  /**
   * The forward pass over `start` (inputs latched) has computed layers 1 up to layerNum - 1,
   * giving `r`: only outputs of non-bias neurons have changed, the layers not yet reached are
   * untouched, and each computed layer holds tanh of its weighted input from the layer before.
   */
  ghost predicate ForwardPassInvariant(start: seq<seq<Neuron>>, r: seq<seq<Neuron>>, tanh: real -> real, layerNum: nat)
  {
    1 <= layerNum <= |start| && OutputsOnly(start, r) && BiasKept(start, r) &&
    (forall L :: 0 <= L < |start| && (L == 0 || layerNum <= L) ==> r[L] == start[L]) &&
    (forall L :: 1 <= L < layerNum ==> FedForward(r[L], r[L - 1], tanh))
  }

  /** The bounds FeedForwardLayer needs for layer layerNum, from the construction invariant. */
  lemma ForwardPassBounds(start: seq<seq<Neuron>>, r: seq<seq<Neuron>>, topology: seq<nat>, tanh: real -> real,
                          layerNum: nat)
    requires WellFormed(start, topology) && ForwardPassInvariant(start, r, tanh, layerNum) && layerNum < |start|
    ensures 1 <= |r[layerNum]|
    ensures forall n :: 0 <= n < |r[layerNum]| - 1 ==>
      r[layerNum][n].myIndex == n && HasColumn(r[layerNum - 1], r[layerNum][n].myIndex)
  {
    WellFormedColumns(start, topology, layerNum - 1);
    assert r[layerNum] == start[layerNum];
    assert LayerOutputsOnly(start[layerNum - 1], r[layerNum - 1]);
  }

  /** Computing layer layerNum from the layer before keeps the invariant, one layer further on. */
  lemma ForwardPassStep(start: seq<seq<Neuron>>, r: seq<seq<Neuron>>, tanh: real -> real, layerNum: nat,
                        newLayer: seq<Neuron>)
    requires ForwardPassInvariant(start, r, tanh, layerNum) && layerNum < |start|
    requires 1 <= |r[layerNum]| && |newLayer| == |r[layerNum]|
    requires newLayer[|r[layerNum]| - 1] == r[layerNum][|r[layerNum]| - 1]
    requires forall n :: 0 <= n < |r[layerNum]| - 1 ==>
      r[layerNum][n].myIndex == n && HasColumn(r[layerNum - 1], r[layerNum][n].myIndex)
    requires forall n :: 0 <= n < |r[layerNum]| - 1 ==>
      newLayer[n] == r[layerNum][n].(outputVal := tanh(WeightedInput(r[layerNum - 1], r[layerNum][n].myIndex)))
    ensures ForwardPassInvariant(start, r[layerNum := newLayer], tanh, layerNum + 1)
  {
    var next := r[layerNum := newLayer];
    assert r[layerNum] == start[layerNum];
    forall n | 0 <= n < |newLayer| - 1
      ensures HasColumn(r[layerNum - 1], n) && newLayer[n].outputVal == tanh(WeightedInput(r[layerNum - 1], n))
    {
      assert r[layerNum][n].myIndex == n;
    }
    assert FedForward(newLayer, r[layerNum - 1], tanh);
    assert next[layerNum] == newLayer && next[layerNum - 1] == r[layerNum - 1];
    forall L | 0 <= L < |start|
      ensures LayerOutputsOnly(start[L], next[L])
    {
      if L != layerNum {
        assert next[L] == r[L];
      } else {
        forall n | 0 <= n < |newLayer|
          ensures newLayer[n] == start[L][n].(outputVal := newLayer[n].outputVal)
        {
        }
      }
    }
    forall L | 1 <= L < layerNum + 1
      ensures FedForward(next[L], next[L - 1], tanh)
    {
      if L < layerNum {
        assert next[L] == r[L] && next[L - 1] == r[L - 1];
      }
    }
  }

  /**
   * The hidden-gradient pass over `layers` has handled layers layerNum + 1 up to the last
   * hidden layer, giving `r`: only gradients have changed, the layers not yet handled are
   * untouched, and each handled layer holds its hidden gradients against the next layer as it
   * now stands.
   */
  ghost predicate HiddenPassInvariant(layers: seq<seq<Neuron>>, r: seq<seq<Neuron>>, layerNum: nat)
  {
    layerNum + 2 <= |layers| && GradientsOnly(layers, r) &&
    (forall L :: 0 <= L < |layers| && (L <= layerNum || L == |layers| - 1) ==> r[L] == layers[L]) &&
    (forall L :: layerNum < L < |layers| - 1 ==> HiddenGradientsSet(layers[L], r[L], r[L + 1]))
  }

  /** The bounds CalcHiddenLayerGradients needs for layer layerNum, from the construction invariant. */
  lemma HiddenPassBounds(layers: seq<seq<Neuron>>, r: seq<seq<Neuron>>, topology: seq<nat>, layerNum: nat)
    requires WellFormed(layers, topology) && HiddenPassInvariant(layers, r, layerNum) && 0 < layerNum
    ensures 1 <= |r[layerNum + 1]|
    ensures forall n :: 0 <= n < |r[layerNum]| ==> |r[layerNum + 1]| - 1 <= |r[layerNum][n].outputWeights|
  {
    WellFormedColumns(layers, topology, layerNum);
    assert r[layerNum] == layers[layerNum];
    assert LayerGradientsOnly(layers[layerNum + 1], r[layerNum + 1]);
  }

  /** Handling layer layerNum keeps the invariant, one layer further down. */
  lemma HiddenPassStep(layers: seq<seq<Neuron>>, r: seq<seq<Neuron>>, layerNum: nat, hiddenLayer: seq<Neuron>)
    requires HiddenPassInvariant(layers, r, layerNum) && 0 < layerNum
    requires 1 <= |r[layerNum + 1]| && |hiddenLayer| == |r[layerNum]|
    requires forall n :: 0 <= n < |hiddenLayer| ==>
      |r[layerNum + 1]| - 1 <= |r[layerNum][n].outputWeights| &&
      hiddenLayer[n] == r[layerNum][n].(gradient := HiddenGradient(r[layerNum][n], r[layerNum + 1]))
    ensures HiddenPassInvariant(layers, r[layerNum := hiddenLayer], layerNum - 1)
  {
    var next := r[layerNum := hiddenLayer];
    assert r[layerNum] == layers[layerNum];
    assert HiddenGradientsSet(layers[layerNum], hiddenLayer, r[layerNum + 1]);
    forall L | 0 <= L < |layers|
      ensures LayerGradientsOnly(layers[L], next[L])
    {
      if L != layerNum {
        assert next[L] == r[L];
      }
    }
    forall L | layerNum < L < |layers| - 1
      ensures HiddenGradientsSet(layers[L], next[L], next[L + 1])
    {
      assert next[L] == r[L] && next[L + 1] == r[L + 1];
    }
  }

  /**
   * backProp, hidden layers: from the last hidden layer down to layer 1, every neuron of the
   * layer, bias included, gets its hidden gradient from the next layer, whose gradients are
   * by then final. Layer 0 and the output layer are left as they are.
   */
  method BackPropHiddenGradients(layers: seq<seq<Neuron>>, ghost topology: seq<nat>) returns (r: seq<seq<Neuron>>)
    requires WellFormed(layers, topology) && 2 <= |layers|
    ensures GradientsOnly(layers, r)
    ensures r[0] == layers[0] && r[|layers| - 1] == layers[|layers| - 1]
    ensures forall L :: 0 < L < |layers| - 1 ==> HiddenGradientsSet(layers[L], r[L], r[L + 1])
  {
    r := layers;
    var layerNum: nat := |layers| - 2;
    while layerNum > 0
      invariant HiddenPassInvariant(layers, r, layerNum)
    {
      HiddenPassBounds(layers, r, topology, layerNum);
      var hiddenLayer := CalcHiddenLayerGradients(r[layerNum], r[layerNum + 1]);
      HiddenPassStep(layers, r, layerNum, hiddenLayer);
      r := r[layerNum := hiddenLayer];
      layerNum := layerNum - 1;
    }
  }

  /**
   * The weight pass over `layers` has handled the inputs of layers layerNum up to the output
   * layer, giving `r`: only connection weights have changed, the layers not yet handled are
   * untouched, and each handled layer's columns are updated from the gradients of the layer
   * it feeds.
   */
  ghost predicate UpdatePassInvariant(layers: seq<seq<Neuron>>, r: seq<seq<Neuron>>, layerNum: nat)
  {
    layerNum + 1 <= |layers| && WeightsOnly(layers, r) &&
    (forall L :: 0 <= L < |layers| && (L < layerNum || L == |layers| - 1) ==> r[L] == layers[L]) &&
    (forall L :: layerNum <= L < |layers| - 1 ==> ColumnsUpdated(layers[L], r[L], layers[L + 1], |layers[L + 1]| - 1))
  }

  /** The bounds UpdateLayerInputWeights needs for layer layerNum, from the construction invariant. */
  lemma UpdatePassBounds(layers: seq<seq<Neuron>>, r: seq<seq<Neuron>>, topology: seq<nat>, layerNum: nat)
    requires WellFormed(layers, topology) && UpdatePassInvariant(layers, r, layerNum) && 0 < layerNum
    ensures 1 <= |r[layerNum]|
    ensures forall n :: 0 <= n < |r[layerNum]| - 1 ==> r[layerNum][n].myIndex == n && HasColumn(r[layerNum - 1], n)
  {
    WellFormedColumns(layers, topology, layerNum - 1);
    assert r[layerNum - 1] == layers[layerNum - 1];
    assert LayerWeightsOnly(layers[layerNum], r[layerNum]);
  }

  /** Updating the inputs of layer layerNum keeps the invariant, one layer further down. */
  lemma UpdatePassStep(layers: seq<seq<Neuron>>, r: seq<seq<Neuron>>, layerNum: nat, newPrev: seq<Neuron>)
    requires UpdatePassInvariant(layers, r, layerNum) && 0 < layerNum
    requires ColumnsUpdated(r[layerNum - 1], newPrev, r[layerNum], |r[layerNum]| - 1)
    requires forall m :: 0 <= m < |r[layerNum - 1]| ==>
      newPrev[m] == r[layerNum - 1][m].(outputWeights := newPrev[m].outputWeights)
    ensures UpdatePassInvariant(layers, r[layerNum - 1 := newPrev], layerNum - 1)
  {
    var next := r[layerNum - 1 := newPrev];
    var prev := layers[layerNum - 1];
    assert r[layerNum - 1] == prev;
    assert LayerWeightsOnly(layers[layerNum], r[layerNum]);
    assert SameLayerGradients(r[layerNum], layers[layerNum]);
    assert SameLayerOutputs(prev, prev) && SameLayerWeights(prev, prev);
    ColumnsUpdatedReadsOnly(prev, prev, newPrev, r[layerNum], layers[layerNum], |layers[layerNum]| - 1);
    forall L | 0 <= L < |layers|
      ensures LayerWeightsOnly(layers[L], next[L])
    {
      if L != layerNum - 1 {
        assert next[L] == r[L];
      }
    }
    forall L | layerNum <= L < |layers| - 1
      ensures ColumnsUpdated(layers[L], next[L], layers[L + 1], |layers[L + 1]| - 1)
    {
      assert next[L] == r[L];
    }
  }

  /**
   * backProp, weights: for all layers from the outputs down to the first hidden layer, each
   * non-bias neuron updates its input column of the previous layer. Every connection of layer
   * L to a non-bias neuron of layer L + 1 gets one update, driven by that neuron's gradient;
   * nothing but weights changes, and the output layer not at all.
   */
  method BackPropUpdateWeights(layers: seq<seq<Neuron>>, ghost topology: seq<nat>) returns (r: seq<seq<Neuron>>)
    requires WellFormed(layers, topology) && 1 <= |layers|
    ensures WeightsOnly(layers, r) && r[|layers| - 1] == layers[|layers| - 1]
    ensures forall L :: 0 <= L < |layers| - 1 ==> ColumnsUpdated(layers[L], r[L], layers[L + 1], |layers[L + 1]| - 1)
  {
    r := layers;
    var layerNum: nat := |layers| - 1;
    while layerNum > 0
      invariant UpdatePassInvariant(layers, r, layerNum)
    {
      UpdatePassBounds(layers, r, topology, layerNum);
      var prevLayer := UpdateLayerInputWeights(r[layerNum], r[layerNum - 1]);
      UpdatePassStep(layers, r, layerNum, prevLayer);
      r := r[layerNum - 1 := prevLayer];
      layerNum := layerNum - 1;
    }
  }

  /**
   * What the two gradient passes of backProp leave in `after`, against the table `before`
   * they started from: only gradients have changed; every non-bias output neuron holds the
   * gradient towards its target and the output bias neuron keeps its gradient; every neuron of
   * a hidden layer holds its hidden gradient against the next layer's final gradients; the
   * input layer is as it was.
   */
  predicate GradientsComputed(before: seq<seq<Neuron>>, after: seq<seq<Neuron>>, targetVals: seq<real>)
  {
    2 <= |before| && 1 <= |before[|before| - 1]| && GradientsOnly(before, after) &&
    OutputGradientsSet(after[|before| - 1], targetVals) &&
    after[|before| - 1][|before[|before| - 1]| - 1] == before[|before| - 1][|before[|before| - 1]| - 1] &&
    after[0] == before[0] &&
    (forall L :: 0 < L < |before| - 1 ==> HiddenGradientsSet(before[L], after[L], after[L + 1]))
  }

  /**
   * What the gradient and weight passes of backProp leave in `after`, against the table
   * `before` they started from: only gradients and weights have changed; every non-bias
   * output neuron holds the gradient towards its target and the output bias neuron keeps its
   * gradient; every neuron of a hidden layer holds its hidden gradient against the next
   * layer's final gradients; the input layer keeps its gradients; and every connection of
   * layer L to a non-bias neuron of layer L + 1 has had one momentum update driven by that
   * neuron's final gradient.
   */
  predicate BackPropagated(before: seq<seq<Neuron>>, after: seq<seq<Neuron>>, targetVals: seq<real>)
  {
    2 <= |before| && 1 <= |before[|before| - 1]| && LearningOnly(before, after) &&
    OutputGradientsSet(after[|before| - 1], targetVals) &&
    after[|before| - 1][|before[|before| - 1]| - 1].gradient == before[|before| - 1][|before[|before| - 1]| - 1].gradient &&
    SameLayerGradients(before[0], after[0]) &&
    (forall L :: 0 < L < |before| - 1 ==> HiddenGradientsSet(before[L], after[L], after[L + 1])) &&
    (forall L :: 0 <= L < |before| - 1 ==> ColumnsUpdated(before[L], after[L], after[L + 1], |after[L + 1]| - 1))
  }

  /** The output gradients followed by the hidden pass compute all gradients. */
  lemma GradientsSummary(start: seq<seq<Neuron>>, withOutput: seq<seq<Neuron>>, withGradients: seq<seq<Neuron>>,
                         targetVals: seq<real>)
    requires 2 <= |start| && GradientsOnly(start, withOutput) && 1 <= |start[|start| - 1]|
    requires forall L :: 0 <= L < |start| - 1 ==> withOutput[L] == start[L]
    requires OutputGradientsSet(withOutput[|start| - 1], targetVals)
    requires withOutput[|start| - 1][|start[|start| - 1]| - 1] == start[|start| - 1][|start[|start| - 1]| - 1]
    requires GradientsOnly(withOutput, withGradients)
    requires withGradients[0] == withOutput[0] && withGradients[|start| - 1] == withOutput[|start| - 1]
    requires forall L :: 0 < L < |start| - 1 ==> HiddenGradientsSet(withOutput[L], withGradients[L], withGradients[L + 1])
    ensures GradientsComputed(start, withGradients, targetVals)
  {
    GradientsOnlyTransitive(start, withOutput, withGradients);
    forall L | 0 < L < |start| - 1
      ensures HiddenGradientsSet(start[L], withGradients[L], withGradients[L + 1])
    {
      assert withOutput[L] == start[L];
    }
  }

  /** The weight pass after the gradient passes completes backProp. */
  lemma BackPropSummary(start: seq<seq<Neuron>>, withGradients: seq<seq<Neuron>>, final: seq<seq<Neuron>>,
                        targetVals: seq<real>)
    requires GradientsComputed(start, withGradients, targetVals)
    requires WeightsOnly(withGradients, final) && final[|start| - 1] == withGradients[|start| - 1]
    requires forall L :: 0 <= L < |start| - 1 ==>
      ColumnsUpdated(withGradients[L], final[L], withGradients[L + 1], |withGradients[L + 1]| - 1)
    ensures BackPropagated(start, final, targetVals)
  {
    GradientsThenWeights(start, withGradients, final);
    assert SameLayerGradients(withGradients[0], final[0]) by {
      assert LayerWeightsOnly(withGradients[0], final[0]);
    }
    forall L | 0 < L < |start| - 1
      ensures HiddenGradientsSet(start[L], final[L], final[L + 1])
    {
      assert LayerWeightsOnly(withGradients[L], final[L]) && LayerWeightsOnly(withGradients[L + 1], final[L + 1]);
      assert SameLayerGradients(withGradients[L], final[L]) && SameLayerGradients(withGradients[L + 1], final[L + 1]);
      assert SameLayerOutputs(start[L], start[L]) && SameLayerWeights(start[L], start[L]);
      HiddenGradientsSetReadsOnly(start[L], start[L], withGradients[L], final[L], withGradients[L + 1], final[L + 1]);
    }
    forall L | 0 <= L < |start| - 1
      ensures ColumnsUpdated(start[L], final[L], final[L + 1], |final[L + 1]| - 1)
    {
      assert LayerGradientsOnly(start[L], withGradients[L]);
      assert SameLayerOutputs(withGradients[L], start[L]) && SameLayerWeights(withGradients[L], start[L]);
      assert LayerWeightsOnly(withGradients[L + 1], final[L + 1]);
      assert SameLayerGradients(withGradients[L + 1], final[L + 1]);
      ColumnsUpdatedReadsOnly(withGradients[L], start[L], final[L], withGradients[L + 1], final[L + 1],
                              |withGradients[L + 1]| - 1);
    }
  }

  /** The output layer's gradients: what the first pass of backProp leaves in the table. */
  lemma OutputPassFrame(layers: seq<seq<Neuron>>, topology: seq<nat>, outputLayer: seq<Neuron>, targetVals: seq<real>)
    requires WellFormed(layers, topology) && 1 <= |layers| && 1 <= |layers[|layers| - 1]|
    requires |outputLayer| == |layers[|layers| - 1]| && |outputLayer| - 1 <= |targetVals|
    requires outputLayer[|outputLayer| - 1] == layers[|layers| - 1][|outputLayer| - 1]
    requires forall n :: 0 <= n < |outputLayer| - 1 ==>
      outputLayer[n] == layers[|layers| - 1][n].(gradient := OutputGradient(targetVals[n], layers[|layers| - 1][n].outputVal))
    ensures GradientsOnly(layers, layers[|layers| - 1 := outputLayer])
    ensures WellFormed(layers[|layers| - 1 := outputLayer], topology)
    ensures OutputGradientsSet(outputLayer, targetVals)
  {
    var withOutput := layers[|layers| - 1 := outputLayer];
    forall L | 0 <= L < |layers|
      ensures LayerGradientsOnly(layers[L], withOutput[L])
    {
    }
    GradientsOnlyWellFormed(layers, withOutput, topology);
  }

  /**
   * backProp, gradients: the output gradients, then the hidden gradients from the last hidden
   * layer down.
   */
  method BackPropGradients(layers: seq<seq<Neuron>>, targetVals: seq<real>, ghost topology: seq<nat>)
    returns (r: seq<seq<Neuron>>)
    requires WellFormed(layers, topology) && 2 <= |layers|
    requires 2 <= |layers[|layers| - 1]| && |layers[|layers| - 1]| - 1 <= |targetVals|
    ensures WellFormed(r, topology) && GradientsComputed(layers, r, targetVals)
  {
    var last := |layers| - 1;
    var outputLayer := CalcOutputLayerGradients(layers[last], targetVals);
    var withOutput := layers[last := outputLayer];
    OutputPassFrame(layers, topology, outputLayer, targetVals);
    r := BackPropHiddenGradients(withOutput, topology);
    GradientsOnlyWellFormed(withOutput, r, topology);
    GradientsSummary(layers, withOutput, r, targetVals);
  }

  /**
   * backProp after the error measurement: the gradient passes, then the weight update.
   */
  method BackPropLayers(layers: seq<seq<Neuron>>, targetVals: seq<real>, ghost topology: seq<nat>)
    returns (r: seq<seq<Neuron>>)
    requires WellFormed(layers, topology) && 2 <= |layers|
    requires 2 <= |layers[|layers| - 1]| && |layers[|layers| - 1]| - 1 <= |targetVals|
    ensures WellFormed(r, topology) && BackPropagated(layers, r, targetVals)
  {
    var withGradients := BackPropGradients(layers, targetVals, topology);
    r := BackPropUpdateWeights(withGradients, topology);
    BackPropSummary(layers, withGradients, r, targetVals);
    LearningOnlyWellFormed(layers, r, topology);
  }

  /** Latching the inputs into layer 0 changes only outputs of its non-bias neurons. */
  lemma LatchFrame(layers: seq<seq<Neuron>>, inputLayer: seq<Neuron>, inputVals: seq<real>)
    requires 1 <= |layers| && |inputVals| == |layers[0]| - 1 && |inputLayer| == |layers[0]|
    requires forall k :: 0 <= k < |inputVals| ==> inputLayer[k] == layers[0][k].(outputVal := inputVals[k])
    requires inputLayer[|inputLayer| - 1] == layers[0][|inputLayer| - 1]
    ensures OutputsOnly(layers, layers[0 := inputLayer]) && BiasKept(layers, layers[0 := inputLayer])
  {
    var latched := layers[0 := inputLayer];
    assert LayerOutputsOnly(layers[0], inputLayer) by {
      forall n | 0 <= n < |inputLayer|
        ensures inputLayer[n] == layers[0][n].(outputVal := inputLayer[n].outputVal)
      {
      }
    }
    forall L | 0 <= L < |layers|
      ensures LayerOutputsOnly(layers[L], latched[L])
    {
    }
  }

  // ---------------------------------------------------------------------------
  // Construction
  // ---------------------------------------------------------------------------

  /** What Neuron(numOutputs, n) yields for neuron n of layer L. */
  predicate BuiltNeuron(neuron: Neuron, L: nat, n: nat, numOutputs: nat, randomWeight: (nat, nat, nat) -> real)
  {
    neuron.myIndex == n && neuron.gradient == 0.0 &&
    |neuron.outputWeights| == numOutputs &&
    forall c :: 0 <= c < numOutputs ==> neuron.outputWeights[c] == Connection(randomWeight(L, n, c), 0.0)
  }

  /** Layer L as the constructor leaves it: fresh neurons, every output 0.0 but the bias neuron's 1.0. */
  predicate BuiltLayer(layer: seq<Neuron>, L: nat, topology: seq<nat>, randomWeight: (nat, nat, nat) -> real)
    requires L < |topology|
  {
    |layer| == topology[L] + 1 &&
    (forall n :: 0 <= n < |layer| ==> BuiltNeuron(layer[n], L, n, NumOutputs(topology, L), randomWeight)) &&
    (forall n :: 0 <= n < |layer| - 1 ==> layer[n].outputVal == 0.0) &&
    layer[|layer| - 1].outputVal == 1.0
  }

  /** A net built from `topology` satisfies the construction invariant. */
  lemma BuiltIsWellFormed(layers: seq<seq<Neuron>>, topology: seq<nat>, randomWeight: (nat, nat, nat) -> real)
    requires |layers| == |topology|
    requires forall L :: 0 <= L < |layers| ==> BuiltLayer(layers[L], L, topology, randomWeight)
    ensures WellFormed(layers, topology)
  {
    forall L | 0 <= L < |layers|
      ensures WellFormedLayer(layers[L], topology[L], NumOutputs(topology, L))
    {
      assert BuiltLayer(layers[L], L, topology, randomWeight);
    }
  }

  class Net {
    /** m_layers[layerNum][neuronNum] */
    var layers: seq<seq<Neuron>>
    /** RMS error of the outputs against the targets of the last backProp. */
    var error: real
    var recentAverageError: real
    const recentAverageSmoothingFactor: real
    /** The topology the net was built from; the source does not keep it. */
    ghost const topology: seq<nat>

    ghost predicate Valid()
      reads this
    {
      WellFormed(layers, topology) && recentAverageSmoothingFactor + 1.0 != 0.0
    }

    /**
     * Net(topology): one layer per topology entry, layer L with topology[L] neurons and a bias
     * neuron; each neuron with index n of layer L gets NumOutputs(topology, L) connections,
     * the c-th with weight randomWeight(L, n, c); the bias neuron's output is set to 1.0.
     * The smoothing factor and the starting average, which the source leaves uninitialised,
     * are parameters; `error` is left unassigned, as in the source.
     */
    constructor (topology: seq<nat>, recentAverageSmoothingFactor: real, recentAverageError: real,
                 randomWeight: (nat, nat, nat) -> real)
      requires recentAverageSmoothingFactor + 1.0 != 0.0
      requires forall L, n, c :: 0.0 <= randomWeight(L, n, c) <= 1.0
      ensures Valid() && this.topology == topology
      ensures this.recentAverageSmoothingFactor == recentAverageSmoothingFactor
      ensures this.recentAverageError == recentAverageError
      ensures forall L :: 0 <= L < |layers| ==> BuiltLayer(layers[L], L, topology, randomWeight)
      ensures forall L, n, c :: 0 <= L < |layers| && 0 <= n < |layers[L]| && 0 <= c < |layers[L][n].outputWeights| ==>
        0.0 <= layers[L][n].outputWeights[c].weight <= 1.0
    {
      this.topology := topology;
      this.recentAverageSmoothingFactor := recentAverageSmoothingFactor;
      this.recentAverageError := recentAverageError;
      layers := [];
      new;
      var numLayers := |topology|;
      var layerNum: nat := 0;
      while layerNum < numLayers
        invariant 0 <= layerNum <= numLayers && |layers| == layerNum
        invariant this.recentAverageError == recentAverageError
        invariant forall L :: 0 <= L < layerNum ==> BuiltLayer(layers[L], L, topology, randomWeight)
      {
        // The new layer, m_layers.back(), filled with its neurons and the bias neuron.
        ghost var built := layers;
        var layer: seq<Neuron> := [];
        var numOutputs := if layerNum == |topology| - 1 then 0 else topology[layerNum + 1];
        var neuronNum: nat := 0;
        while neuronNum <= topology[layerNum]
          invariant layers == built && this.recentAverageError == recentAverageError
          invariant 0 <= neuronNum <= topology[layerNum] + 1 && |layer| == neuronNum
          invariant forall n :: 0 <= n < neuronNum ==>
            BuiltNeuron(layer[n], layerNum, n, numOutputs, randomWeight) && layer[n].outputVal == 0.0
        {
          var neuron := NewNeuron(numOutputs, neuronNum, (c: nat) => randomWeight(layerNum, neuronNum, c));
          layer := layer + [neuron];
          neuronNum := neuronNum + 1;
        }
        // Force the bias neuron's output to 1.0: it is the last neuron made above.
        layer := layer[|layer| - 1 := layer[|layer| - 1].(outputVal := 1.0)];
        layers := layers + [layer];
        layerNum := layerNum + 1;
      }
      BuiltIsWellFormed(layers, topology, randomWeight);
    }

    /**
     * getResults(resultVals): the outputs of the non-bias neurons of the output layer, in index
     * order. The net does not change.
     */
    method GetResults() returns (resultVals: seq<real>)
      requires Valid() && 1 <= |layers|
      ensures |resultVals| == |layers[|layers| - 1]| - 1 == topology[|topology| - 1]
      ensures forall n :: 0 <= n < |resultVals| ==> resultVals[n] == layers[|layers| - 1][n].outputVal
    {
      assert WellFormedLayer(layers[|layers| - 1], topology[|layers| - 1], NumOutputs(topology, |layers| - 1));
      resultVals := [];
      var back := layers[|layers| - 1];
      var n := 0;
      while n < |back| - 1
        invariant 0 <= n <= |back| - 1 && |resultVals| == n
        invariant forall k :: 0 <= k < n ==> resultVals[k] == back[k].outputVal
      {
        resultVals := resultVals + [back[n].outputVal];
        n := n + 1;
      }
    }

    /**
     * feedForward(inputVals): the inputs are latched into the non-bias neurons of layer 0, then
     * each later layer's non-bias neurons take tanh of their weighted input from the layer before,
     * layer by layer. Only outputs of non-bias neurons change.
     */
    method FeedForward(inputVals: seq<real>, tanh: real -> real)
      requires Valid() && 1 <= |layers| && |inputVals| == |layers[0]| - 1
      modifies this`layers
      ensures Valid()
      ensures OutputsOnly(old(layers), layers) && BiasKept(old(layers), layers)
      ensures forall i :: 0 <= i < |inputVals| ==> layers[0][i].outputVal == inputVals[i]
      ensures forall L :: 1 <= L < |layers| ==> FedForward(layers[L], layers[L - 1], tanh)
    {
      // Latch the input values into the input neurons.
      var inputLayer := layers[0];
      var i := 0;
      while i < |inputVals|
        invariant layers == old(layers)
        invariant 0 <= i <= |inputVals| && |inputLayer| == |layers[0]|
        invariant forall k :: 0 <= k < i ==> inputLayer[k] == layers[0][k].(outputVal := inputVals[k])
        invariant forall k :: i <= k < |inputLayer| ==> inputLayer[k] == layers[0][k]
      {
        inputLayer := inputLayer[i := inputLayer[i].(outputVal := inputVals[i])];
        i := i + 1;
      }
      LatchFrame(layers, inputLayer, inputVals);
      layers := layers[0 := inputLayer];
      ghost var latched := layers;
      OutputsOnlyWellFormed(old(layers), latched, topology);

      // Forward propagate, starting with layer 1.
      var layerNum: nat := 1;
      while layerNum < |layers|
        invariant ForwardPassInvariant(latched, layers, tanh, layerNum)
      {
        ForwardPassBounds(latched, layers, topology, tanh, layerNum);
        var newLayer := FeedForwardLayer(layers[layerNum], layers[layerNum - 1], tanh);
        ForwardPassStep(latched, layers, tanh, layerNum, newLayer);
        layers := layers[layerNum := newLayer];
        layerNum := layerNum + 1;
      }
      OutputsOnlyTransitive(old(layers), latched, layers);
      BiasKeptTransitive(old(layers), latched, layers);
      OutputsOnlyWellFormed(old(layers), layers, topology);
    }

    /**
     * backProp(targetVals): records the RMS error of the outputs and the smoothed average,
     * computes the output gradients, then the hidden gradients from the last hidden layer
     * down, and only then applies the momentum update to every connection. Only gradients and
     * connection weights change.
     */
    method BackProp(targetVals: seq<real>, sqrt: real -> real)
      requires Valid() && 2 <= |layers|
      requires 2 <= |layers[|layers| - 1]| && |layers[|layers| - 1]| - 1 <= |targetVals|
      modifies this`layers, this`error, this`recentAverageError
      ensures Valid() && BackPropagated(old(layers), layers, targetVals)
      ensures error == sqrt(MeanSquaredError(targetVals, old(layers)[|layers| - 1]))
      ensures recentAverageError == RecentAverage(old(recentAverageError), recentAverageSmoothingFactor, error)
    {
      // Overall net error: RMS of the output neurons' errors.
      error := RmsError(targetVals, layers[|layers| - 1], sqrt);

      // Recent average measurement.
      recentAverageError := RecentAverage(recentAverageError, recentAverageSmoothingFactor, error);

      // Gradients of the output and hidden layers, then the connection weights.
      layers := BackPropLayers(layers, targetVals, topology);
    }
  }
}
