# NeuralNetTutorial in Dafny

This project models the engine of a small fully connected neural network trained by
back-propagation with momentum. It covers the classes `Net` (Net.h) and `Neuron` (Neuron.h).

- **The net** is a table of layers of neurons. It is built once from a topology: one neuron
  count per layer, plus one bias neuron per layer fixed at output 1.0.
- **Connections.** Each neuron holds one connection (weight and last weight change) per
  non-bias neuron of the next layer. The neuron it feeds addresses that connection by its own
  index.
- **`feedForward`** latches the inputs into layer 0. Then each later layer's non-bias neurons
  take tanh of the weighted sum of the previous layer's outputs.
- **`backProp`** does the following, in this order:
  1. It records the RMS error of the outputs against the targets, and a smoothed recent
     average of that error.
  2. It computes the output gradients.
  3. It computes the hidden gradients, from the last hidden layer down.
  4. Only then does it apply the momentum update to every connection.
- **`getResults`** reads back the non-bias outputs of the last layer.

The model has three modules:

- **`Neurons`** (neuron.dfy): the neuron as a value, and each member function of `Neuron`.
  - A member function that assigns to the neuron is a method taking the neuron and returning
    it updated.
  - `updateInputWeights` writes into the previous layer, so it takes that layer and returns it
    updated.
  - Pure specification functions define the arithmetic: the weighted input, the downstream
    sum, the two gradients and the momentum update.
- **`NetErrors`** (errors.dfy): the error measurement of `backProp`.
  - The squared error, the mean squared error and the recent average are functions.
  - The RMS computation is a method with its loop.
- **`Network`** (net.dfy):
  - The construction invariant `WellFormed`, with the helper `NumOutputs` for the number of
    connections each neuron of a layer gets (Net.h:108).
  - Frame relations saying which fields of which neurons an operation may change:
    `OutputsOnly`, `GradientsOnly`, `WeightsOnly`, `LearningOnly` and `BiasKept`.
  - What each pass leaves in a layer: `FedForward`, `OutputGradientsSet`,
    `HiddenGradientsSet` and `ColumnsUpdated`.
  - The inner loops of the passes, one layer at a time.
  - The outer loops over the table, each with one loop invariant and a lemma for one step.
  - The class `Net`. Its fields are `layers`, `error` and `recentAverageError`, plus the
    constant smoothing factor. Its methods are the constructor, `FeedForward`, `BackProp` and
    `GetResults`.

The main results are these:

- **Construction.** The constructor builds exactly the table the topology asks for, and
  establishes the construction invariant. That invariant is enough to keep every index
  `feedForward` and `backProp` use in the layer table in bounds:
  `prevLayer[n].m_outputWeights[m_myIndex]` and `m_outputWeights[n]` are checked. The index
  `targetVals[n]` is not covered by that invariant. It is covered by `Net.BackProp`'s
  precondition that `targetVals` has at least one entry for each non-bias output neuron.
- **`FeedForward`**
  - It changes only outputs, and never a bias neuron.
  - It leaves the inputs latched.
  - Every later non-bias neuron ends up holding tanh of its weighted input, read from the
    previous layer as that layer finally stands.
- **`BackProp`**
  - It sets `error` to the square root of the mean squared error over the non-bias outputs.
  - It sets the recent average to `(old * K + error) / (K + 1)`.
  - It changes only gradients and connection weights (`BackPropagated`).
  - Each non-bias output neuron gets the gradient towards its target.
  - Each hidden neuron, bias included, gets its gradient from the next layer's final
    gradients.
  - Every connection into a non-bias neuron gets exactly one momentum update, driven by that
    neuron's final gradient. No other connection changes.

## Model

| member | source | states |
|---|---|---|
| Neurons.TransferFunctionDerivative | Neuron.h:89-93 | the derivative of tanh estimated from the value y that tanh produced, 1 - y², which factors as (1 - y)(1 + y) and is never above 1 |
| Neurons.TransferFunctionDerivativeValues | Neuron.h:89-93 | the derivative estimate is 0 at ±1, 1 at 0, never above 1, and positive exactly inside (-1, 1) |
| Neurons.WeightedInputReadsOnlyColumn | Neuron.h:95-108 | a neuron's weighted input depends only on the previous layer's outputs and its weights at the neuron's own column |
| Neurons.DownstreamSumReadsOnlyPrefix | Neuron.h:61-69 | the downstream sum of the first k connections reads only those weights and the gradients of the first k next neurons |
| Neurons.OutputGradientPointsToTarget | Neuron.h:77-81 | for an output inside (-1, 1) the output gradient is positive, zero or negative exactly when the target is above, at or below the output |
| Neurons.HiddenGradientOfBias | Neuron.h:71-75 | a neuron with output 1.0, as a bias neuron has, gets hidden gradient 0 |
| Neurons.UpdatedConnection | Neuron.h:45-57 | the new weight minus the new change is the old weight: the change is added to the weight |
| Neurons.UpdateWithoutSignalIsMomentum | Neuron.h:47-54 | with zero input or zero gradient the new change is alpha (0.5) times the old one, and a connection at rest stays at rest |
| Neurons.UpdatedColumn | Neuron.h:43-58 | one neuron of the previous layer after an update: column j gets the momentum update; other columns, output, index and gradient are unchanged |
| Neurons.NewNeuron | Neuron.h:110-120 | numOutputs connections, the c-th with weight randomWeight(c) in [0, 1] and change 0, and the given index |
| Neurons.FeedForward | Neuron.h:95-108 | only the output changes; it becomes tanh of the sum over the whole previous layer, bias included, of output times weight at column myIndex |
| Neurons.CalcOutputGradients | Neuron.h:77-81 | only the gradient changes, to (target - output) · (1 - output²) |
| Neurons.SumDOW | Neuron.h:61-69 | the sum of weight · gradient over the next layer without its bias neuron, with the accumulator starting at 0 |
| Neurons.SumDOWAsWritten | Neuron.h:61-69 | with the accumulator left holding `indeterminate`, the result is off by exactly that value, and right exactly when it is 0 |
| Neurons.SumDOWAsWrittenCounterexample | Neuron.h:63-66 | a concrete neuron whose downstream sum is 1.0 but is reported as 2.0 from an accumulator holding 1.0 |
| Neurons.CalcHiddenGradients | Neuron.h:71-75 | only the gradient changes, to sumDOW · (1 - output²) |
| Neurons.UpdateInputWeights | Neuron.h:38-59 | every neuron of the previous layer, bias included, gets the momentum update at column myIndex and nothing else changes |
| NetErrors.SquaredErrorNonNegative | Net.h:37-42 | the accumulated squared error is never negative |
| NetErrors.SquaredErrorOfMatch | Net.h:37-42 | if every output meets its target, the squared error is 0 |
| NetErrors.SquaredErrorOfMismatch | Net.h:37-42 | if some output misses its target, the squared error is positive |
| NetErrors.SquaredErrorZero | Net.h:37-42 | the squared error is at least 0, and it is 0 exactly when every non-bias output meets its target |
| NetErrors.MeanSquaredErrorZero | Net.h:37-43 | the mean squared error is at least 0, and it is 0 exactly when every non-bias output meets its target |
| NetErrors.RecentAverage | Net.h:46-49 | the new average times (K + 1) equals the old average times K plus the new error, so for K ≥ 0 it is a weighted mean of the two; with K = 0 it is the new error |
| NetErrors.RecentAverageBetween | Net.h:46-49 | the average is unchanged exactly when the new error equals it; for K ≥ 0 it moves towards the new error without passing it |
| NetErrors.RmsError | Net.h:35-44 | the error is sqrt of the sum of (target - output)² over the non-bias outputs, divided by their number |
| Network.ConnectionsMatchNextLayer | Net.h:106-119 | under the construction invariant, a neuron of the last layer has no connections, and a neuron of any other layer has exactly one per non-bias neuron of the next layer |
| Network.WellFormedColumns | Net.h:106-119 | under the construction invariant, layer L has a column for every non-bias neuron of layer L + 1, and every neuron has a connection to each of them |
| Network.OutputsOnlyWellFormed | Net.h:86-100 | changing only outputs, and no bias neuron, keeps the construction invariant |
| Network.GradientsOnlyWellFormed | Net.h:51-66 | changing only gradients keeps the construction invariant |
| Network.LearningOnlyWellFormed | Net.h:51-77 | changing only gradients and weights keeps the construction invariant |
| Network.FedForwardOneInput | Net.h:91-100 | one input and one output, all weights 1.0: the output is tanh(input + 1.0), the bias contributing 1.0 |
| Network.ColumnsUpdatedStep | Net.h:73-76 | updating column k from neuron k's gradient extends the updated columns from k to k + 1 |
| Network.ColumnsUpdatedReadsOnly | Net.h:67-77 | which updates the columns receive depends only on the previous layer's outputs and weights and on the gradients of the layer it feeds |
| Network.HiddenGradientsSetReadsOnly | Net.h:57-66 | the hidden gradients depend only on the layer's outputs and weights and on the next layer's gradients |
| Network.FeedForwardLayer | Net.h:95-99 | every non-bias neuron of a layer takes tanh of its weighted input from the previous layer; the bias neuron is unchanged |
| Network.CalcOutputLayerGradients | Net.h:51-55 | every non-bias output neuron gets the gradient towards its target; the bias neuron is unchanged |
| Network.CalcHiddenLayerGradients | Net.h:60-65 | every neuron of the hidden layer, bias included, gets its hidden gradient against the next layer |
| Network.UpdateLayerInputWeights | Net.h:70-76 | column n of every neuron of the previous layer gets the update driven by neuron n's gradient, for each non-bias n; only weights change |
| Network.ForwardPassBounds | Net.h:92-99 | while the forward pass runs, layer layerNum's non-bias neurons have their own positions as index, and the previous layer has those columns |
| Network.ForwardPassStep | Net.h:92-100 | computing one more layer keeps the forward pass invariant: only outputs change, and the layers computed so far hold their weighted inputs |
| Network.HiddenPassBounds | Net.h:58-65 | while the hidden pass runs, every neuron of layer layerNum has a connection to each non-bias neuron of the next layer |
| Network.HiddenPassStep | Net.h:58-66 | handling one more hidden layer keeps the hidden pass invariant: only gradients change, and the handled layers hold their hidden gradients |
| Network.BackPropHiddenGradients | Net.h:57-66 | only gradients change; layer 0 and the output layer are untouched; each hidden layer holds its hidden gradients against the next layer's final gradients |
| Network.UpdatePassBounds | Net.h:69-76 | while the weight pass runs, layer layerNum's non-bias neurons have their positions as index, and the previous layer has those columns |
| Network.UpdatePassStep | Net.h:69-77 | handling the inputs of one more layer keeps the weight pass invariant |
| Network.BackPropUpdateWeights | Net.h:67-77 | only weights change; the output layer is untouched; each layer's connections into every non-bias neuron of the next layer get one update, driven by that neuron's gradient |
| Network.GradientsSummary | Net.h:51-66 | the output gradients followed by the hidden pass give `GradientsComputed`, stated against the table before both |
| Network.BackPropSummary | Net.h:51-77 | the gradient passes followed by the weight pass give `BackPropagated`, stated against the table before them |
| Network.OutputPassFrame | Net.h:51-55 | storing the output layer's new gradients changes only gradients, keeps the construction invariant, and sets the output gradients |
| Network.BackPropGradients | Net.h:51-66 | backProp's gradient passes: only gradients change, the output and hidden gradients are set, and the output bias and layer 0 are untouched |
| Network.BackPropLayers | Net.h:51-77 | backProp after the error measurement establishes `BackPropagated` and keeps the construction invariant |
| Network.LatchFrame | Net.h:86-89 | latching the inputs changes only outputs of layer 0's non-bias neurons |
| Network.BuiltIsWellFormed | Net.h:105-119 | a table built layer by layer as the constructor builds it satisfies the construction invariant |
| Network.Net.constructor | Net.h:103-122 | one layer per topology entry, each of topology[L] + 1 neurons with index = position, NumOutputs connections of weight in [0, 1] and change 0; every output 0.0 except the bias neuron's 1.0; the construction invariant holds |
| Network.Net.GetResults | Net.h:24-31 | the outputs of the non-bias neurons of the last layer, in index order; there are topology.back() of them, and the net is unchanged |
| Network.Net.FeedForward | Net.h:80-101 | inputs latched into layer 0; only outputs change and no bias neuron changes; every later layer's non-bias neurons hold tanh of their weighted inputs; the invariant is kept |
| Network.Net.BackProp | Net.h:33-78 | `error` is sqrt of the mean squared error over the non-bias outputs; the average is (old · K + error) / (K + 1); `BackPropagated` holds against the table before the call; the invariant is kept |

## Left out

- **Console output.** The "Made a Neuron!" output (Net.h:115) is console I/O and is not
  modelled.
- **The driver.** neural-net-tutorial.cpp is not part of this model. It only pushes numbers
  into vectors and calls the net.
- **Connection.h** is not part of this model. `Connection` is a record of `weight` and
  `deltaWeight`. A new connection is assumed to start with `deltaWeight` 0, since its
  definition is not visible.
- **Numerics.**
  - `double` is modelled as `real`, so there is no rounding, overflow, infinity or NaN.
  - tanh and sqrt are function parameters with no properties.
  - No numeric or convergence claim is made, such as "the error decreases with training".
- **Random weights.** rand()/RAND_MAX is a parameter `randomWeight(L, n, c)` bounded to
  [0, 1], the bound Neuron.h:27 gives. That bound includes 1, where a closed-open [0, 1)
  range is sometimes stated. The sequence of draws and the generator's seeding are not
  modelled.
- **Uninitialised fields.**
  - A fresh neuron's `m_outputVal` and `m_gradient` are left uninitialised by Neuron.h:110-120.
    They are 0.0 here.
  - `m_recentAverageSmoothingFactor` and the starting `m_recentAverageError` are never
    initialised (Net.h:19-21, Net.h:103-122). They are constructor parameters here.
  - The constructor requires K + 1 ≠ 0, because the model's real division needs a non-zero
    divisor. In C++ the division by a zero double would give an infinity or NaN.
  - `m_error` holds an arbitrary value until the first `BackProp`, as in the source.
- **Unsigned arithmetic.** Indices and counts are unbounded naturals. Most places where the
  source's unsigned arithmetic would wrap around are excluded by preconditions instead:
  - `Network.Net.BackProp` requires at least 2 layers, since `m_layers.size() - 2` underflows
    at Net.h:58.
  - `Network.Net.BackProp` requires at least one non-bias output neuron. Otherwise Net.h:43
    divides by zero, which gives NaN in floating point and is undefined on reals.
  - `Network.Net.GetResults` and `Network.Net.FeedForward` require at least one layer, since
    `m_layers.back()` and `m_layers[0]` need one.
  - `Network.Net.constructor` does not model a topology entry of 4294967295 (UINT_MAX).
    There the test `neuronNum <= topology[layerNum]` at Net.h:112 always holds, because
    `++neuronNum` wraps to 0. So the source keeps adding neurons until allocation fails and
    never returns a net. Such a layer would also be too large for the `unsigned n` loops at
    Net.h:28, 38, 52, 62, 73 and 96. The model counts over naturals instead: it builds that
    layer with topology[L] + 1 neurons and returns a valid net.
- **Size checks.**
  - `Network.Net.FeedForward` requires the input count that the assert at Net.h:84 checks.
    Aborting the process is not modelled.
  - `Network.Net.BackProp` requires at least as many targets as non-bias output neurons. The
    source does not check this, and it reads exactly those entries. Extra targets are
    ignored, as in the source.
- **No error reporting.** An empty topology and a topology with zero entries are accepted,
  as in the source. A zero entry gives a layer with only its bias neuron. Neither is
  reported as an error.
- **Bias neurons in the hidden pass.** The bias neuron of each hidden layer gets a hidden
  gradient too, because the loop at Net.h:62 covers the whole layer. The model follows the
  code. By `Neurons.HiddenGradientOfBias` that gradient is 0, since the bias output is 1.0.
- **References become values.** C++ updates neurons through references into `m_layers`.
  The model updates them differently:
  - Each per-neuron and per-layer step takes values and returns the updated value.
  - `Net` stores the result back into `layers`, a `seq<seq<Neuron>>` field.
  - Within each call, nothing is written through one reference and read through another.
    `updateInputWeights` writes only into `prevLayer`, a layer other than its own neuron's.
    `calcHiddenGradients` reads `nextLayer`, a layer other than the one it writes.
  - Across the steps of `backProp`, the same layer is reached through different references.
    The output layer is `outputLayer` (Net.h:36), then `nextLayer` for the last hidden
    layer (Net.h:61), then `layer` in the weight pass (Net.h:70). The model passes the
    updated table from step to step in the source's order, so each step sees what the
    previous ones wrote.
- **Constants.** `eta` and `alpha` are static but never reassigned, so they are the constants
  0.15 and 0.5.
- **Accessors.** `setOutputVal` and `getOutputVal` (Neuron.h:15-16) are the record update
  `.(outputVal := v)` and the field `outputVal`.
- **Transfer function.** `transferFunction` (Neuron.h:83-87) is the tanh parameter.

## Findings

| source | as written | input that shows it | evidently intended | confidence | as-written member | corrected member |
|---|---|---|---|---|---|---|
| Neuron.h:63-68 | `sumDOW` declares `double sum;` without an initialiser and adds to it, so it reads an indeterminate value | a neuron with one connection of weight 0.5 into a neuron with gradient 2.0: the sum is 1.0, but an accumulator left holding 1.0 reports 2.0 | start the sum at 0.0 | not executed; reading an uninitialised local is undefined behaviour in C++ | Neurons.SumDOWAsWritten, Neurons.SumDOWAsWrittenCounterexample | Neurons.SumDOW |
