# Two neural-network training engines, modelled in Dafny

The repository holds two single-threaded training engines that work on
vectors in place. Both are modelled here.

**Binary synaptic weights (`Bsw`)** — `bsw_distance.dfy`, `bsw_network.dfy`.
Samples are 0/1 input vectors with 0/1 expected outputs. For every output
`j`, training picks a key sample (the earliest sample closest to the
majority "average" of the samples active for `j`, among those whose input
`j` is non-zero). It then builds a separating plane around that key, and
afterwards around every sample whose copy in the working vector `done` still
holds 1 in column `j`. A plane is chosen from a histogram of Hamming
distances to the key and a bounded radius search. Covered samples get `-1`
in `done`. The plane's weights are the key bits scaled to ±1, and its
threshold is `sum(key) - (2*Dist+1)/2`. That threshold is a half-integer, so
the model stores it doubled (`twiceThreshold = 2*sum(key) - 2*Dist - 1`) and
tests `2*sum > twiceThreshold`. `test` fires output `h` when some plane of
`nodes[h]` fires. The model proves the following:
- The radius search terminates in range.
- When the active samples are separated from the inactive ones (every
  active sample is nearer the key than every inactive one), only the key
  sample is marked. Otherwise exactly the samples within the radius are
  marked. In both cases only column `j` changes.
- Each plane adds exactly one node.
- After an output is trained, no sample of `done` still holds 1 in its
  column.
- On 0/1 data every active sample is recognised by the planes of its output.
- On 0/1 vectors a plane fires exactly when the input lies within Hamming
  distance `Dist` of its key.

**Back-propagation (`BackPropagation`)** — `bp_neuron.dfy`, `bp_layer.dfy`,
`bp_network.dfy`. `Neuron`, `Layer` and `Network` are classes whose methods
update their fields in place. Each method is proved against a function on
value snapshots (`NeuronState`, `LayerState`, `seq<LayerState>`). Doubles
are modelled as reals, with no rounding. The activation function is a pair
of arbitrary total functions `compute` and `derivative`. The model states
and proves:
- The shapes of weights, momentums, caches and the error buffer.
- The update algebra of `adjust`: the new momentum is `input*error`, the
  weight adds the new and the old momentum, and the error buffer uses the
  updated weight.
- The order of the forward pass and of the backward cascade, layer by
  layer: the output layer back-propagates target minus output, and every
  other layer the buffer handed back by the layer above it. The input
  layer is never adjusted.
- `iterate` reports the mean over the dataset, in dataset order, of each
  sample's error measured after all updates.
- `save`/`restore` are whole-value copies, and a round trip through them
  gives back the saved layers.
- The `train` state machine. Thresholds move only on a commit. A rolled-back
  epoch's error is still the one reported.

## Model

| member | source | states |
|---|---|---|
| BswDistance.Hamming | Bsw/src/Network.cpp:25-27 | the distance counts differing positions of x against the start of y: it is at most \|x\| and 0 exactly when x equals that prefix of y |
| BswDistance.HammingSymmetric | Bsw/src/Network.cpp:25-27 | for vectors of one length the distance is symmetric |
| BswDistance.PlaneWeights | Bsw/src/Network.cpp:108-112 | one weight per key bit; on a 0/1 key, weight 1 exactly for bit 1 and -1 exactly for bit 0 |
| BswDistance.InnerProductWithPlaneWeights | Bsw/src/Network.cpp:104-111 | on 0/1 vectors, input·weights equals sum(key) minus the Hamming distance to the key |
| BswDistance.PlaneFiresWithinRadius | Bsw/src/Network.cpp:104-111 | on 0/1 vectors, `sum > Threshold` (doubled) holds exactly when Hamming(input, key) <= Dist |
| Bsw.Mark | Bsw/src/Network.cpp:81 | marking sets output j to -1 and keeps the inputs and every other output |
| Bsw.MaxActiveSpec | Bsw/src/Network.cpp:57-73 | `maxActiveDist` is INT_MIN iff no sample is active, else the distance of the farthest active sample |
| Bsw.MinInactiveSpec | Bsw/src/Network.cpp:57-73 | `minInactiveDist` is INT_MAX iff every sample is active, else the distance of the nearest inactive sample |
| Bsw.CountAtZero | Bsw/src/Network.cpp:57-73 | a histogram cell is 0 iff no sample of that kind lies at that distance |
| Bsw.FirstStop | Bsw/src/Network.cpp:83-88 | the search from D stops in [D, maxActiveDist + 1], passing only rows without inactive samples, at a row with one or past maxActiveDist |
| Bsw.FirstStopUnique | Bsw/src/Network.cpp:83-88 | any stop reached past only empty rows is the one the search finds |
| Bsw.Radius | Bsw/src/Network.cpp:76-98 | the final `Dist` lies in [0, \|key\|] |
| Bsw.RadiusSpec | Bsw/src/Network.cpp:82-98 | when not separated, rows 1..Dist hold no inactive sample, Dist <= maxActiveDist, and row Dist+1 holds one or lies past maxActiveDist |
| Bsw.RadiusExcludesInactive | Bsw/src/Network.cpp:86-98 | an inactive sample within the radius has distance 0 from the key |
| Bsw.CoverPlaneMarks | Bsw/src/Network.cpp:79-98 | the key sample is always marked, every other change is a mark on a sample within the radius, and only column j changes |
| Bsw.CoverageAfterPlane | Bsw/src/Network.cpp:90-115 | every sample the new plane marks is recognised by the planes including the new one |
| Bsw.Average | Bsw/src/Network.cpp:124-140 | `Ave` has one 0/1 entry per input |
| Bsw.SumsAreCounts | Bsw/src/Network.cpp:129-137 | on 0/1 samples `r` counts active samples and `suma` counts active samples with bit q set |
| Bsw.AverageIsMajority | Bsw/src/Network.cpp:124-140 | on 0/1 samples `Ave[q] == 1` iff more than half of the samples active for j have bit q set |
| Bsw.CoverStateStep | Bsw/src/Network.cpp:41-45 | a sample still holding 1 is active, and a plane keyed on it keeps the loop invariant one sample further |
| Bsw.CoverStateRecall | Bsw/src/Network.cpp:41-45 | after the loop every active sample is recognised (on 0/1 data) |
| Bsw.DistanceHistogram | Bsw/src/Network.cpp:52-73 | `HamDist` has 2 to the power \|key\| rows and counts inactive/active samples per distance; the max and min distances match their specifications |
| Bsw.SearchRadius | Bsw/src/Network.cpp:83-88 | the while-loop ends with 1 <= Dist <= maxActiveDist + 1 at the first row holding an inactive sample or past maxActiveDist |
| Bsw.MarkCloserThan | Bsw/src/Network.cpp:90-96 | exactly the samples at distance < Dist get -1 in column j; all other entries of `done` are unchanged |
| Bsw.CoverAround | Bsw/src/Network.cpp:76-98 | the resulting `Dist` is the radius and `done` is the covered copy |
| Bsw.BuildPlane | Bsw/src/Network.cpp:101-115 | the node has weights `2*key[i]-1` and the doubled threshold `2*sum(key) - 2*Dist - 1` |
| Bsw.ComputeAverage | Bsw/src/Network.cpp:124-140 | the loops compute the majority vector `Ave` |
| Bsw.SumColumnProducts | Bsw/src/Network.cpp:133-137 | `suma` is the sum of `inputs[q]*outputs[j]` |
| Bsw.ClosestCandidate | Bsw/src/Network.cpp:142-156 | INT_MAX iff no sample has `inputs[j] != 0`, else the earliest such sample at minimal distance to `Ave` |
| Bsw.Network.constructor | Bsw/src/Network.cpp:18-20 | constructing trains the network: one plane list per output, every active sample recognised |
| Bsw.Network.CreateNewPlane | Bsw/src/Network.cpp:50-117 | exactly one plane is appended to `nodes[j]` and no other `nodes[h]` changes; `done` becomes the covered copy |
| Bsw.Network.ComputeAverageAndKey | Bsw/src/Network.cpp:119-157 | INT_MAX iff no candidate, else the earliest candidate closest to the average |
| Bsw.Network.Train | Bsw/src/Network.cpp:29-48 | fails iff data is empty or some output has no key; otherwise 1 <= \|nodes[j]\| <= 1 + active count and every active sample is recognised by `nodes[j]` |
| Bsw.Network.TrainOutputs | Bsw/src/Network.cpp:37-46 | the outer loop trains every output, or stops at the first without a key |
| Bsw.Network.TrainOutput | Bsw/src/Network.cpp:38-45 | one output is trained; only `nodes[j]` and column j of `done` change |
| Bsw.Network.StartCover | Bsw/src/Network.cpp:38-39 | the first plane is keyed on the chosen key and starts the coverage invariant |
| Bsw.Network.CoverRemaining | Bsw/src/Network.cpp:41-45 | after the loop no entry of column j holds 1, and at most one plane per active sample was added |
| Bsw.Network.CoverSample | Bsw/src/Network.cpp:42-44 | a plane is added exactly for a sample still holding 1, which is active |
| Bsw.Network.Test | Bsw/src/Network.cpp:159-176 | one 0/1 entry per output, 1 iff some plane of `nodes[h]` fires on the input |
| BpNeuron.Computed | BackPropagation/src/Neuron.cpp:45-61 | compute changes only the stored output, which is `act(Σ w[i]*x[i])` |
| BpNeuron.Adjusted | BackPropagation/src/Neuron.cpp:63-93 | adjust keeps the shapes and the output, and sets the error to `derivative(output) * error` |
| BpNeuron.ContributeCommutes | BackPropagation/src/Neuron.cpp:88 | two neurons' contributions to the error buffer commute |
| BpNeuron.ZeroErrorSpendsMomentum | BackPropagation/src/Neuron.cpp:78-85 | with a zero error term the weights still move by the old momentum, and the momentum becomes 0 |
| BpNeuron.AdjustedDot | BackPropagation/src/Neuron.cpp:78-85 | the weighted sum after adjust is the old one plus the new and the old momentum terms |
| BpNeuron.Neuron.constructor | BackPropagation/src/Neuron.cpp:23-39 | weights are the given draws in [-0.5, 0.5); momentums, output and error are 0; both vectors have nbrOfInputs entries |
| BpNeuron.Neuron.Copy | BackPropagation/src/Network.cpp:155-158 | the copy holds the given state |
| BpNeuron.Neuron.Compute | BackPropagation/src/Neuron.cpp:45-61 | returns and stores `act(Σ w[i]*x[i])`; weights and momentums unchanged |
| BpNeuron.Neuron.Adjust | BackPropagation/src/Neuron.cpp:63-93 | momentum'[i] = x[i]*e, weight'[i] = weight[i] + momentum'[i] + momentum[i], buffer'[i] = buffer[i] + weight'[i]*e |
| BpLayer.Propagated | BackPropagation/src/Layer.cpp:34-43 | output i is neuron i's compute on the inputs; errors and shapes unchanged |
| BpLayer.PropagatedOverwrites | BackPropagation/src/Layer.cpp:34-43 | a propagation leaves no trace on later ones and changes no parameter |
| BpLayer.BackUpTo | BackPropagation/src/Layer.cpp:86-103 | after n neurons, neurons < n are adjusted with their own error and the rest are untouched |
| BpLayer.BackUpToErrors | BackPropagation/src/Layer.cpp:93-99 | after n neurons, buffer slot k is Σ_{i<n} w_i'[k]*e_i |
| BpLayer.BackPropagatedSpec | BackPropagation/src/Layer.cpp:86-103 | every neuron is adjusted with its own error; slot k of the returned buffer is Σ_i w_i'[k]*e_i; the output is kept |
| BpLayer.Differences | BackPropagation/src/Layer.cpp:55-69 | output[i] + r[i] == targets[i] for every i, and r is all zeros iff targets equal outputs |
| BpLayer.AbsSumZero | BackPropagation/src/Layer.cpp:71-84 | the summed absolute difference is non-negative and 0 iff the vectors agree |
| BpLayer.MeanErrorZero | BackPropagation/src/Layer.cpp:71-84 | the mean error is non-negative and 0 iff expected equals output |
| BpLayer.Initial | BackPropagation/src/Layer.cpp:17-27 | a new layer has nbrOfNeurons outputs, nbrOfInputs error slots, and neurons of input width nbrOfInputs |
| BpLayer.Layer.constructor | BackPropagation/src/Layer.cpp:17-27 | the new layer is `Initial` over fresh, distinct neurons |
| BpLayer.Layer.Copy | BackPropagation/src/Network.cpp:155-158 | a fresh layer holding the given state |
| BpLayer.Layer.SetOutput | BackPropagation/src/Layer.cpp:45-48 | only the outputs are replaced |
| BpLayer.Layer.Propagate | BackPropagation/src/Layer.cpp:34-43 | the layer becomes `Propagated` of its old state |
| BpLayer.Layer.ComputeErrors | BackPropagation/src/Layer.cpp:55-69 | returns targets minus outputs and changes nothing |
| BpLayer.Layer.GetMeanError | BackPropagation/src/Layer.cpp:71-84 | returns Σ\|expected[i]-output[i]\| / size(), non-negative, and 0 iff the outputs are the expected ones |
| BpLayer.Layer.ClearErrors | BackPropagation/src/Layer.cpp:93 | the error buffer is zeroed |
| BpLayer.Layer.AdjustNext | BackPropagation/src/Layer.cpp:96-99 | neuron n adjusts with error n |
| BpLayer.Layer.AdjustAll | BackPropagation/src/Layer.cpp:96-99 | the neurons adjust in order |
| BpLayer.Layer.AdjustedAll | BackPropagation/src/Layer.cpp:86-103 | once all neurons are adjusted, the layer is `BackPropagated` of the start state |
| BpLayer.Layer.BackPropagate | BackPropagation/src/Layer.cpp:86-103 | the layer becomes `BackPropagated` of its old state, and the result is its error buffer |
| BpNetwork.PropagateUpTo | BackPropagation/src/Network.cpp:83-99 | layer 0 shows the inputs, later layers are replaced one at a time in increasing order, and the chain shape is kept |
| BpNetwork.PropagateAt | BackPropagation/src/Network.cpp:83-99 | after propagate, layer i is layer i propagated on the final output of layer i-1 |
| BpNetwork.PropagateOverwrites | BackPropagation/src/Network.cpp:101-107 | propagating b after a equals propagating b alone, so `test` is idempotent |
| BpNetwork.BackwardUpTo | BackPropagation/src/Network.cpp:60-66 | the backward loop from the last layer down keeps the chain shape and never touches layer 0 |
| BpNetwork.TrainSample | BackPropagation/src/Network.cpp:50-66 | training on a sample keeps the shape and leaves the input layer's neurons alone |
| BpNetwork.BackwardOutputAt | BackPropagation/src/Network.cpp:60-66 | after the backward loop the output layer has back-propagated the incoming error buffer on the outputs of the layer below |
| BpNetwork.BackwardInnerAt | BackPropagation/src/Network.cpp:60-66 | after the backward loop every inner layer has back-propagated, on the outputs of the layer below, exactly the buffer the layer above handed back |
| BpNetwork.TrainSampleAt | BackPropagation/src/Network.cpp:52-66 | layer by layer after one sample: the input layer is as propagated; the output layer back-propagated target minus output; every other layer back-propagated the buffer of the layer above; each on the propagated outputs of the layer below |
| BpNetwork.TrainPass | BackPropagation/src/Network.cpp:48-67 | training on the samples in `order` keeps the shape and leaves the input layer alone |
| BpNetwork.EvaluatedLayers | BackPropagation/src/Network.cpp:72-76 | after the evaluation loop the network is as propagated on the last sample alone |
| BpNetwork.EvaluatedIndependent | BackPropagation/src/Network.cpp:69-80 | the summed error is the sum of each sample's error on the trained network, in dataset order |
| BpNetwork.ErrorTotalZero | BackPropagation/src/Network.cpp:69-80 | the total error is non-negative and 0 iff every sample's output is reproduced |
| BpNetwork.IterateSpec | BackPropagation/src/Network.cpp:41-81 | an epoch keeps the shape, never changes the input layer, and reports a non-negative error |
| BpNetwork.IterateSpecError | BackPropagation/src/Network.cpp:69-80 | the reported error is 0 iff the trained network reproduces every sample |
| BpNetwork.Iota | BackPropagation/src/Network.cpp:111-112 | the first order is 0..n-1 |
| BpNetwork.Start | BackPropagation/src/Network.cpp:117-124 | after the first epoch and a save, the saved error is that epoch's error |
| BpNetwork.Decide | BackPropagation/src/Network.cpp:133-142 | the epoch's error is reported; layers are the epoch's or the checkpoint; checkpoint is the epoch's or the old one |
| BpNetwork.DecideOutcomes | BackPropagation/src/Network.cpp:133-142 | commit when below the store threshold; otherwise rollback, with both thresholds unchanged, when above the restore threshold; otherwise keep |
| BpNetwork.RolledBackErrorReported | BackPropagation/src/Network.cpp:133-147 | a rolled-back epoch's error is still reported and exceeds the saved error |
| BpNetwork.DecideCommitted | BackPropagation/src/Network.cpp:133-138 | the saved error stays non-negative and, with a store factor <= 1, never grows |
| BpNetwork.Epoch | BackPropagation/src/Network.cpp:127-143 | one loop pass keeps network and checkpoint trained versions of the start, and the saved error never grows |
| BpNetwork.Epochs | BackPropagation/src/Network.cpp:127-143 | the same over n passes |
| BpNetwork.TrainSpec | BackPropagation/src/Network.cpp:109-148 | after training, with a store factor <= 1, the saved error is at most the first epoch's; the input layer is never adjusted |
| BpNetwork.Built | BackPropagation/src/Network.cpp:21-35 | layer i has sizes[i] neurons of input width sizes[i-1] (0 for layer 0) |
| BpNetwork.Network.constructor | BackPropagation/src/Network.cpp:21-35 | the layers are `Built` and the checkpoint equals them |
| BpNetwork.Network.SetInputs | BackPropagation/src/Network.cpp:88-89 | the input layer shows the inputs |
| BpNetwork.Network.PropagateNext | BackPropagation/src/Network.cpp:92-98 | layer i propagates the output of layer i-1 |
| BpNetwork.Network.Propagate | BackPropagation/src/Network.cpp:83-99 | the layers become `NetPropagated` of the old ones |
| BpNetwork.Network.Test | BackPropagation/src/Network.cpp:101-107 | returns the output layer's cache after propagate; only caches change |
| BpNetwork.Network.BackStep | BackPropagation/src/Network.cpp:62-65 | layer index back-propagates on layer index-1's output; the other layers keep their state |
| BpNetwork.Network.BackwardStep | BackPropagation/src/Network.cpp:60-66 | step k of the backward loop takes the network from `BackwardUpTo` k to `BackwardUpTo` k + 1 |
| BpNetwork.Network.BackwardPass | BackPropagation/src/Network.cpp:60-66 | the layers become `BackwardUpTo` over all layers but the input one |
| BpNetwork.Network.Forward | BackPropagation/src/Network.cpp:52-56 | propagate, then errors = targets - output |
| BpNetwork.Network.TrainOn | BackPropagation/src/Network.cpp:50-66 | the layers become `TrainSample` of the old ones |
| BpNetwork.Network.TrainAll | BackPropagation/src/Network.cpp:48-67 | the layers become `TrainPass` over `order` |
| BpNetwork.Network.EvaluateOn | BackPropagation/src/Network.cpp:73-75 | propagate, then the output layer's mean error |
| BpNetwork.Network.EvaluateAll | BackPropagation/src/Network.cpp:69-76 | the evaluation loop's sum matches `Evaluated` |
| BpNetwork.Network.Iterate | BackPropagation/src/Network.cpp:41-81 | layers and error are those of `IterateSpec` |
| BpNetwork.Network.Save | BackPropagation/src/Network.cpp:150-153 | the checkpoint equals the layers, which are unchanged |
| BpNetwork.Network.Copies | BackPropagation/src/Network.cpp:155-158 | fresh, disjoint layer objects holding the given states |
| BpNetwork.Network.NewLayers | BackPropagation/src/Network.cpp:27-31 | fresh, disjoint layers, each `Initial` for its size and input width |
| BpNetwork.Network.Restore | BackPropagation/src/Network.cpp:155-158 | the layers equal the checkpoint, which is kept |
| BpNetwork.Network.CheckpointRoundTrip | BackPropagation/src/Network.cpp:150-158 | save, an epoch, then restore gives back the saved layers |
| BpNetwork.Network.Settle | BackPropagation/src/Network.cpp:133-142 | the commit/rollback/keep choice with its thresholds, as `Decide` |
| BpNetwork.Network.Begin | BackPropagation/src/Network.cpp:111-125 | first epoch in identity order, save, thresholds from the error |
| BpNetwork.Network.Pass | BackPropagation/src/Network.cpp:129-142 | one loop pass is `Epoch` |
| BpNetwork.Network.Advance | BackPropagation/src/Network.cpp:127-143 | pass n of the loop takes the trainer from `Epochs` n to `Epochs` n + 1, thresholds included |
| BpNetwork.Network.Loop | BackPropagation/src/Network.cpp:127-143 | the loop runs max(0, max_iterations - 1) passes and ends in the state `Epochs` gives |
| BpNetwork.Network.Train | BackPropagation/src/Network.cpp:109-148 | layers, checkpoint and returned error are those of `TrainSpec`; the returned error is the last epoch's |

## Left out

- Floating point: doubles are reals. Rounding, NaN and infinities are not modelled, and neither is the logistic sigmoid with its `exp`. The activation function is any pair of total functions `compute`/`derivative`, passed by value rather than by `shared_ptr`.
- Randomness: the `mt19937` weight draws are an `initialWeights` parameter, constrained to [-0.5, 0.5). The per-epoch `std::shuffle` is an `orders` parameter of `Train`. The model allows any sequence of valid sample indices, so a permutation is a special case.
- Printing (`operator<<` of `Network`, `Layer` and `Neuron`) and both `main.cpp` programs, which only time, print and hold literal datasets.
- Members that are declared but never defined: the `Settings` constructor, `Network(vector<uint32_t>, func)`, `Layer::save`/`Layer::restore` and `Bsw::Network::CalculateAverage`.
- Input validation, an early exit on `target_error`, and a final commit or rollback after the training loop. The code has none of these, only TODO comments, so the model has none. As a consequence, `train`'s returned error can exceed both the first epoch's error and the checkpoint's (`BpNetwork.RolledBackErrorReported`).
- BpNetwork.Network.Iterate: requires non-empty data. In the source an empty dataset divides 0 by 0 and yields NaN, which reals cannot express.
- BpNetwork.Network.Test: requires the input width to match the input layer. The source does not check it. With a mismatch in a network of two or more layers, `Neuron::compute` in the first hidden layer fails its `assert` (`BackPropagation/src/Neuron.cpp:51`). Without assertions, a longer input reads the weights out of range and a shorter one sums only its own entries. A one-layer network only calls `set_output` (`BackPropagation/src/Network.cpp:88-89`), so `test` returns the input unchanged whatever its width; the model does not cover that case.
- BpLayer.Layer.BackPropagate: returns the value of the error buffer rather than a reference to it. The caller in `iterate` copies it immediately, so no aliasing is lost.
- BpLayer.Layer.BackPropagate: requires the incoming error buffer to hold at least one entry per neuron. With a shorter buffer, `ouputErrors.at(offset++)` (`BackPropagation/src/Layer.cpp:98`) throws `std::out_of_range` after the earlier neurons have already been adjusted; the model does not represent that partial update. `iterate` always passes a buffer of the right size: the output differences have one entry per output, and each layer hands back one entry per neuron of the layer below.
- Bsw.Network.Train: requires 2 to 30 inputs, no more outputs than inputs, fewer than INT_MAX samples, and every sample shaped like `data[0]` (as many inputs and as many outputs; `Trainable` in `bsw_network.dfy`).
  - With more inputs, `1 << m_inputs_count` overflows.
  - With fewer than 2 inputs, the radius search may read row `maxActiveDist + 1` past the end of `HamDist`.
  - With more outputs than inputs, the key filter reads `inputs[j]` out of range.
  - Empty data (`data.at(0)`) and an output without a key candidate (`at(INT_MAX)`) make the source throw. The model returns `false` instead.
- Bsw.Network.Train: states `1 <= |nodes[j]| <= 1 + (number of active samples)` rather than the exact count of visited samples still holding 1. The exact per-sample step is in `Bsw.Network.CoverSample`.
- Bsw.Network.constructor: requires what makes `train` succeed, because a constructor cannot report the failure that the source raises as an exception.
- Bsw.Network.Test: requires the input to be no longer than the plane weights, because `inner_product` would read past them.
- Integer widths: `int` counters, `size_t` offsets and `uint32_t` order indices are unbounded, apart from the bounds stated above.
