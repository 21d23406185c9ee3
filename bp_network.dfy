/**
 * The back-propagation network: a chain of layers, trained sample by sample
 * and epoch by epoch, with a checkpoint it commits to when the error
 * improves enough and rolls back to when the error grows too much.
 */
module BpNetwork {
  import opened BpNeuron
  import opened BpLayer

  /** `Training_data`: one input vector and the output expected for it. */
  datatype Sample = Sample(inputs: seq<real>, outputs: seq<real>)

  /** `Network::Settings`. `targetError` is carried but never read. */
  datatype Settings = Settings(maxIterations: nat, targetError: real, storeThreshold: real, restoreThreshold: real)

  /** The number of inputs of layer i: none for the input layer, the size
      of the layer before it otherwise. */
  function InWidth(ls: seq<LayerState>, i: nat): nat
    requires i < |ls|
  {
    if i == 0 then 0 else |ls[i - 1].neurons|
  }

  /** A network of at least one layer in which every layer is fed by the
      layer before it. (The trigger keeps layer i from calling up layer
      i - 1 without end.) */
  predicate Chain(ls: seq<LayerState>) {
    |ls| > 0 && forall i {:trigger InWidth(ls, i)} :: 0 <= i < |ls| ==> LayerShaped(ls[i], InWidth(ls, i))
  }

  /** Two networks with the same number of layers and of neurons per layer. */
  predicate SameShape(a: seq<LayerState>, b: seq<LayerState>) {
    |a| == |b| && forall i :: 0 <= i < |a| ==> |a[i].neurons| == |b[i].neurons|
  }

  /** Layer i is fed by the outputs of layer i - 1. */
  lemma ChainLink(ls: seq<LayerState>, i: nat)
    requires Chain(ls) && 0 < i < |ls|
    ensures LayerShaped(ls[i], |ls[i - 1].output|) && LayerShaped(ls[i - 1], InWidth(ls, i - 1))
  {
    assert LayerShaped(ls[i], InWidth(ls, i)) && LayerShaped(ls[i - 1], InWidth(ls, i - 1));
  }

  /** Layer i is shaped for its inputs. */
  lemma ChainAt(ls: seq<LayerState>, i: nat)
    requires Chain(ls) && i < |ls|
    ensures LayerShaped(ls[i], InWidth(ls, i))
  {
  }

  /** Replacing a layer by one of the same size and inputs keeps the chain. */
  lemma ChainUpdate(ls: seq<LayerState>, i: nat, l: LayerState)
    requires Chain(ls) && i < |ls| && LayerShaped(l, InWidth(ls, i)) && |l.neurons| == |ls[i].neurons|
    ensures Chain(ls[i := l]) && SameShape(ls[i := l], ls)
  {
    var u := ls[i := l];
    forall k | 0 <= k < |u|
      ensures LayerShaped(u[k], InWidth(u, k))
    {
      assert InWidth(u, k) == InWidth(ls, k);
    }
  }

  function Last(ls: seq<LayerState>): LayerState
    requires |ls| > 0
  {
    ls[|ls| - 1]
  }

  /** The outputs of the network: those of its last layer. */
  function Output(ls: seq<LayerState>): seq<real>
    requires |ls| > 0
  {
    Last(ls).output
  }

  /** The network after the first n layers of `propagate(inputs)`: the input
      layer shows the inputs and each later layer has propagated the outputs
      of the layer before it. */
  function PropagateUpTo(ls: seq<LayerState>, inputs: seq<real>, n: nat): (r: seq<LayerState>)
    requires Chain(ls) && |inputs| == |ls[0].neurons| && 1 <= n <= |ls|
    ensures Chain(r) && SameShape(r, ls) && r[0] == ls[0].(output := inputs)
    ensures forall i :: n <= i < |ls| ==> r[i] == ls[i]
  {
    if n == 1 then
      ChainUpdate(ls, 0, ls[0].(output := inputs));
      ls[0 := ls[0].(output := inputs)]
    else
      var p := PropagateUpTo(ls, inputs, n - 1);
      ChainLink(p, n - 1);
      var l := Propagated(p[n - 1], p[n - 2].output);
      ChainUpdate(p, n - 1, l);
      p[n - 1 := l]
  }

  /** The network after `propagate(inputs)`. */
  function NetPropagated(ls: seq<LayerState>, inputs: seq<real>): (r: seq<LayerState>)
    requires Chain(ls) && |inputs| == |ls[0].neurons|
    ensures Chain(r) && SameShape(r, ls)
  {
    PropagateUpTo(ls, inputs, |ls|)
  }

  /** Layers below n are final once n layers have propagated. */
  lemma {:induction false} PropagateSettles(ls: seq<LayerState>, inputs: seq<real>, n: nat, m: nat)
    requires Chain(ls) && |inputs| == |ls[0].neurons| && 1 <= n <= m <= |ls|
    ensures forall i :: 0 <= i < n ==> PropagateUpTo(ls, inputs, m)[i] == PropagateUpTo(ls, inputs, n)[i]
  {
    if m > n {
      PropagateSettles(ls, inputs, n, m - 1);
      var p := PropagateUpTo(ls, inputs, m - 1);
      ChainLink(p, m - 1);
      assert PropagateUpTo(ls, inputs, m) == p[m - 1 := Propagated(p[m - 1], p[m - 2].output)];
    }
  }

  /** After propagation each layer past the input layer has propagated
      the outputs of the layer before it. */
  lemma PropagateAt(ls: seq<LayerState>, inputs: seq<real>, i: nat)
    requires Chain(ls) && |inputs| == |ls[0].neurons| && 0 < i < |ls|
    ensures LayerShaped(ls[i], |NetPropagated(ls, inputs)[i - 1].output|)
    ensures NetPropagated(ls, inputs)[i] == Propagated(ls[i], NetPropagated(ls, inputs)[i - 1].output)
  {
    PropagateSettles(ls, inputs, i + 1, |ls|);
    var p := PropagateUpTo(ls, inputs, i);
    ChainLink(p, i);
    assert p[i] == ls[i];
    assert PropagateUpTo(ls, inputs, i + 1) == p[i := Propagated(p[i], p[i - 1].output)];
  }

  /** Layer i after propagating b does not depend on an earlier propagation
      of a. */
  lemma {:induction false} PropagateOverwritesAt(ls: seq<LayerState>, a: seq<real>, b: seq<real>, i: nat)
    requires Chain(ls) && |a| == |b| == |ls[0].neurons| && i < |ls|
    ensures NetPropagated(NetPropagated(ls, a), b)[i] == NetPropagated(ls, b)[i]
  {
    var q := NetPropagated(ls, a);
    if i > 0 {
      PropagateOverwritesAt(ls, a, b, i - 1);
      PropagateAt(ls, a, i);
      PropagateAt(ls, b, i);
      PropagateAt(q, b, i);
      var x, y := NetPropagated(ls, a)[i - 1].output, NetPropagated(ls, b)[i - 1].output;
      PropagatedOverwrites(ls[i], x, y);
    }
  }

  /** `propagate` leaves no trace but its outputs: propagating b after a is
      propagating b alone. */
  lemma PropagateOverwrites(ls: seq<LayerState>, a: seq<real>, b: seq<real>)
    requires Chain(ls) && |a| == |b| == |ls[0].neurons|
    ensures NetPropagated(NetPropagated(ls, a), b) == NetPropagated(ls, b)
  {
    forall i | 0 <= i < |ls| {
      PropagateOverwritesAt(ls, a, b, i);
    }
  }

  /** The sample fits the network: its inputs feed the input layer and its
      expected outputs match the output layer, which is not empty. */
  predicate SampleFits(ls: seq<LayerState>, s: Sample) {
    && |ls| > 0 && |Last(ls).neurons| > 0
    && |s.inputs| == |ls[0].neurons| && |s.outputs| == |Last(ls).neurons|
  }

  /** Every sample fits the network. */
  predicate Fits(ls: seq<LayerState>, data: seq<Sample>) {
    forall l :: 0 <= l < |data| ==> SampleFits(ls, data[l])
  }

  /** The network and the error buffer in hand after k steps of the
      backward loop of `iterate`, which starts at the output layer: layers
      |ls| - 1 down to |ls| - k have adjusted in turn, each handing its error
      buffer to the layer before it. */
  datatype Backward = Backward(layers: seq<LayerState>, errors: seq<real>)

  function BackwardUpTo(ls: seq<LayerState>, errs: seq<real>, k: nat): (r: Backward)
    requires Chain(ls) && k < |ls| && |Last(ls).neurons| <= |errs|
    ensures Chain(r.layers) && SameShape(r.layers, ls) && r.layers[0] == ls[0]
    ensures |r.layers[|ls| - 1 - k].neurons| <= |r.errors|
  {
    if k == 0 then Backward(ls, errs)
    else
      var p := BackwardUpTo(ls, errs, k - 1);
      var idx := |ls| - k;
      ChainLink(p.layers, idx);
      var l := BackPropagated(p.layers[idx], p.layers[idx - 1].output, p.errors);
      ChainUpdate(p.layers, idx, l);
      Backward(p.layers[idx := l], l.errors)
  }

  /** Helper: one more step of the backward loop from BackwardUpTo(k). */
  lemma BackwardUpToNext(ls: seq<LayerState>, errs: seq<real>, k: nat, p: seq<LayerState>, r: seq<real>)
    requires Chain(ls) && k + 1 < |ls| && |Last(ls).neurons| <= |errs|
    requires var b := BackwardUpTo(ls, errs, k);
      && LayerShaped(b.layers[|ls| - 1 - k], |b.layers[|ls| - 2 - k].output|)
      && p == b.layers[|ls| - 1 - k := BackPropagated(b.layers[|ls| - 1 - k], b.layers[|ls| - 2 - k].output, b.errors)]
      && r == p[|ls| - 1 - k].errors
    ensures Backward(p, r) == BackwardUpTo(ls, errs, k + 1)
  {
  }

  /** The backward loop has not reached the layers below |ls| - k after k
      steps. */
  lemma {:induction false} BackwardBelow(ls: seq<LayerState>, errs: seq<real>, k: nat, j: nat)
    requires Chain(ls) && k < |ls| && |Last(ls).neurons| <= |errs| && j < |ls| - k
    ensures BackwardUpTo(ls, errs, k).layers[j] == ls[j]
  {
    if k > 0 {
      BackwardBelow(ls, errs, k - 1, j);
    }
  }

  /** A layer the backward loop has adjusted is not touched again. */
  lemma {:induction false} BackwardSettled(ls: seq<LayerState>, errs: seq<real>, k: nat, m: nat, j: nat)
    requires Chain(ls) && k <= m < |ls| && |Last(ls).neurons| <= |errs| && |ls| - k <= j < |ls|
    ensures BackwardUpTo(ls, errs, m).layers[j] == BackwardUpTo(ls, errs, k).layers[j]
  {
    if m > k {
      BackwardSettled(ls, errs, k, m - 1, j);
    }
  }

  /** Step k adjusts layer |ls| - k with the buffer in hand and hands back
      that layer's buffer. */
  lemma BackwardStepAt(ls: seq<LayerState>, errs: seq<real>, k: nat)
    requires Chain(ls) && 0 < k < |ls| && |Last(ls).neurons| <= |errs|
    ensures var p := BackwardUpTo(ls, errs, k - 1);
      var idx := |ls| - k;
      && LayerShaped(p.layers[idx], |p.layers[idx - 1].output|) && |p.layers[idx].neurons| <= |p.errors|
      && BackwardUpTo(ls, errs, k).layers[idx] == BackPropagated(p.layers[idx], p.layers[idx - 1].output, p.errors)
      && BackwardUpTo(ls, errs, k).errors == BackwardUpTo(ls, errs, k).layers[idx].errors
  {
    ChainLink(BackwardUpTo(ls, errs, k - 1).layers, |ls| - k);
  }

  /** The error buffer of layer j + 1 has a slot per neuron of layer j. */
  lemma BufferFits(a: seq<LayerState>, ls: seq<LayerState>, j: nat)
    requires Chain(a) && SameShape(a, ls) && j + 1 < |ls|
    ensures |a[j + 1].errors| == |ls[j].neurons|
  {
    ChainLink(a, j + 1);
    assert |a[j].neurons| == |ls[j].neurons|;
  }

  /** In the finished backward loop, layer j is as its own step left it. */
  lemma BackwardFinalAt(ls: seq<LayerState>, errs: seq<real>, j: nat)
    requires Chain(ls) && |Last(ls).neurons| <= |errs| && 0 < j < |ls|
    ensures var p := BackwardUpTo(ls, errs, |ls| - 1 - j);
      && LayerShaped(p.layers[j], |p.layers[j - 1].output|) && |p.layers[j].neurons| <= |p.errors|
      && BackwardUpTo(ls, errs, |ls| - 1).layers[j] == BackPropagated(p.layers[j], p.layers[j - 1].output, p.errors)
  {
    BackwardSettled(ls, errs, |ls| - j, |ls| - 1, j);
    BackwardStepAt(ls, errs, |ls| - j);
  }

  /** In the finished backward loop, the buffer layer j adjusted with is
      the one layer j + 1 handed back. */
  lemma BackwardHandedAt(ls: seq<LayerState>, errs: seq<real>, j: nat)
    requires Chain(ls) && |Last(ls).neurons| <= |errs| && 0 < j < |ls| - 1
    ensures BackwardUpTo(ls, errs, |ls| - 1 - j).errors == BackwardUpTo(ls, errs, |ls| - 1).layers[j + 1].errors
  {
    BackwardStepAt(ls, errs, |ls| - 1 - j);
    BackwardSettled(ls, errs, |ls| - 1 - j, |ls| - 1, j + 1);
  }

  /** Helper: in the finished backward loop, the output layer has
      back-propagated errs. */
  lemma BackwardOutputAt(ls: seq<LayerState>, errs: seq<real>)
    requires Chain(ls) && |Last(ls).neurons| <= |errs| && 1 < |ls|
    ensures && LayerShaped(ls[|ls| - 1], |ls[|ls| - 2].output|) && |ls[|ls| - 1].neurons| <= |errs|
            && BackwardUpTo(ls, errs, |ls| - 1).layers[|ls| - 1] == BackPropagated(ls[|ls| - 1], ls[|ls| - 2].output, errs)
  {
    ChainLink(ls, |ls| - 1);
    BackwardFinalAt(ls, errs, |ls| - 1);
  }

  /** Helper: in the finished backward loop, an inner layer j has
      back-propagated the buffer handed back by layer j + 1. */
  lemma BackwardInnerAt(ls: seq<LayerState>, errs: seq<real>, j: nat)
    requires Chain(ls) && |Last(ls).neurons| <= |errs| && 0 < j < |ls| - 1
    ensures var r := BackwardUpTo(ls, errs, |ls| - 1).layers;
      && LayerShaped(ls[j], |ls[j - 1].output|) && |ls[j].neurons| <= |r[j + 1].errors|
      && r[j] == BackPropagated(ls[j], ls[j - 1].output, r[j + 1].errors)
  {
    ChainLink(ls, j);
    BackwardFinalAt(ls, errs, j);
    BackwardBelow(ls, errs, |ls| - 1 - j, j);
    BackwardBelow(ls, errs, |ls| - 1 - j, j - 1);
    BackwardHandedAt(ls, errs, j);
    BufferFits(BackwardUpTo(ls, errs, |ls| - 1).layers, ls, j);
  }

  /** The network after `iterate` has trained on one sample: propagate,
      take target minus output at the output layer, and back-propagate. */
  function TrainSample(ls: seq<LayerState>, s: Sample): (r: seq<LayerState>)
    requires Chain(ls) && SampleFits(ls, s)
    ensures Chain(r) && SameShape(r, ls) && r[0].neurons == ls[0].neurons && r[0].errors == ls[0].errors
  {
    var p := NetPropagated(ls, s.inputs);
    BackwardUpTo(p, Differences(s.outputs, Output(p)), |p| - 1).layers
  }

  /** Training on one sample, layer by layer: the input layer keeps its
      propagated state, the output layer back-propagates target minus
      output, and every other layer back-propagates the buffer handed back
      by the layer above it, each on the propagated outputs of the layer
      below. */
  lemma TrainSampleAt(ls: seq<LayerState>, s: Sample, i: nat)
    requires Chain(ls) && SampleFits(ls, s) && i < |ls|
    ensures var p := NetPropagated(ls, s.inputs);
      var r := TrainSample(ls, s);
      && r[0] == p[0]
      && (0 < i ==>
            && LayerShaped(p[i], |p[i - 1].output|)
            && var e := if i == |ls| - 1 then Differences(s.outputs, Output(p)) else r[i + 1].errors;
               |p[i].neurons| <= |e| && r[i] == BackPropagated(p[i], p[i - 1].output, e))
  {
    TrainSampleInput(ls, s);
    if 0 < i {
      if i == |ls| - 1 {
        TrainSampleOutput(ls, s);
      } else {
        TrainSampleInner(ls, s, i);
      }
    }
  }

  /** Helper: training on one sample keeps the propagated input layer. */
  lemma TrainSampleInput(ls: seq<LayerState>, s: Sample)
    requires Chain(ls) && SampleFits(ls, s)
    ensures TrainSample(ls, s)[0] == NetPropagated(ls, s.inputs)[0]
  {
  }

  /** Helper: the output layer back-propagates target minus output. */
  lemma TrainSampleOutput(ls: seq<LayerState>, s: Sample)
    requires Chain(ls) && SampleFits(ls, s) && 1 < |ls|
    ensures var p := NetPropagated(ls, s.inputs);
      var e := Differences(s.outputs, Output(p));
      && LayerShaped(p[|ls| - 1], |p[|ls| - 2].output|) && |p[|ls| - 1].neurons| <= |e|
      && TrainSample(ls, s)[|ls| - 1] == BackPropagated(p[|ls| - 1], p[|ls| - 2].output, e)
  {
    var p := NetPropagated(ls, s.inputs);
    var e := Differences(s.outputs, Output(p));
    TrainSampleIs(ls, s);
    BackwardOutputAt(p, e);
  }

  /** Helper: an inner layer back-propagates the buffer of the layer above. */
  lemma TrainSampleInner(ls: seq<LayerState>, s: Sample, i: nat)
    requires Chain(ls) && SampleFits(ls, s) && 0 < i < |ls| - 1
    ensures var p := NetPropagated(ls, s.inputs);
      var r := TrainSample(ls, s);
      && LayerShaped(p[i], |p[i - 1].output|) && |p[i].neurons| <= |r[i + 1].errors|
      && r[i] == BackPropagated(p[i], p[i - 1].output, r[i + 1].errors)
  {
    var p := NetPropagated(ls, s.inputs);
    var e := Differences(s.outputs, Output(p));
    TrainSampleIs(ls, s);
    BackwardInnerAt(p, e, i);
  }

  /** Helper: `TrainSample` is the finished backward loop on the propagated
      network. */
  lemma TrainSampleIs(ls: seq<LayerState>, s: Sample)
    requires Chain(ls) && SampleFits(ls, s)
    ensures var p := NetPropagated(ls, s.inputs);
      && Chain(p) && |p| == |ls| && |Last(p).neurons| <= |Differences(s.outputs, Output(p))|
      && TrainSample(ls, s) == BackwardUpTo(p, Differences(s.outputs, Output(p)), |p| - 1).layers
  {
  }

  /** Every entry of the order names a sample. */
  predicate Indexes(order: seq<nat>, n: nat) {
    forall k :: 0 <= k < |order| ==> order[k] < n
  }

  /** The network after training on the samples order[..n], in that order. */
  function TrainPass(ls: seq<LayerState>, data: seq<Sample>, order: seq<nat>, n: nat): (r: seq<LayerState>)
    requires Chain(ls) && Fits(ls, data) && Indexes(order, |data|) && n <= |order|
    ensures Chain(r) && SameShape(r, ls) && r[0].neurons == ls[0].neurons && r[0].errors == ls[0].errors
  {
    if n == 0 then ls
    else
      var p := TrainPass(ls, data, order, n - 1);
      TrainSample(p, data[order[n - 1]])
  }

  /** The network and the summed mean error after the evaluation loop of
      `iterate` has visited the first n samples. */
  datatype Evaluation = Evaluation(layers: seq<LayerState>, sum: real)

  function Evaluated(ls: seq<LayerState>, data: seq<Sample>, n: nat): (r: Evaluation)
    requires Chain(ls) && Fits(ls, data) && n <= |data|
    ensures Chain(r.layers) && SameShape(r.layers, ls) && r.layers[0].neurons == ls[0].neurons
  {
    if n == 0 then Evaluation(ls, 0.0)
    else
      var e := Evaluated(ls, data, n - 1);
      var q := NetPropagated(e.layers, data[n - 1].inputs);
      Evaluation(q, e.sum + MeanError(data[n - 1].outputs, Output(q), |Last(q).neurons|))
  }

  /** The mean error of the network ls on sample s alone. */
  function SampleError(ls: seq<LayerState>, s: Sample): real
    requires Chain(ls) && SampleFits(ls, s)
  {
    var q := NetPropagated(ls, s.inputs);
    MeanError(s.outputs, Output(q), |Last(q).neurons|)
  }

  /** The sum of the first n samples' errors, each on ls alone. */
  function ErrorTotal(ls: seq<LayerState>, data: seq<Sample>, n: nat): real
    requires Chain(ls) && Fits(ls, data) && n <= |data|
  {
    if n == 0 then 0.0 else ErrorTotal(ls, data, n - 1) + SampleError(ls, data[n - 1])
  }

  /** The earlier evaluations leave no trace: after the evaluation loop
      has visited n samples the network is as propagated on the last one
      alone. */
  lemma {:induction false} EvaluatedLayers(ls: seq<LayerState>, data: seq<Sample>, n: nat)
    requires Chain(ls) && Fits(ls, data) && 0 < n <= |data|
    ensures Evaluated(ls, data, n).layers == NetPropagated(ls, data[n - 1].inputs)
  {
    assert SampleFits(ls, data[n - 1]);
    if n > 1 {
      EvaluatedLayers(ls, data, n - 1);
      assert SampleFits(ls, data[n - 2]);
      PropagateOverwrites(ls, data[n - 2].inputs, data[n - 1].inputs);
    }
  }

  /** Each sample is evaluated on the trained network alone: the summed
      error is the sum of the samples' own errors. */
  lemma {:induction false} EvaluatedIndependent(ls: seq<LayerState>, data: seq<Sample>, n: nat)
    requires Chain(ls) && Fits(ls, data) && n <= |data|
    ensures Evaluated(ls, data, n).sum == ErrorTotal(ls, data, n)
  {
    if n > 0 {
      EvaluatedIndependent(ls, data, n - 1);
      EvaluatedLayers(ls, data, n);
    }
  }

  /** The error total is never negative, and it is zero exactly when the
      network reproduces the expected outputs of every sample. */
  lemma {:induction false} ErrorTotalZero(ls: seq<LayerState>, data: seq<Sample>, n: nat)
    requires Chain(ls) && Fits(ls, data) && n <= |data|
    ensures ErrorTotal(ls, data, n) >= 0.0
    ensures ErrorTotal(ls, data, n) == 0.0 <==>
              forall l :: 0 <= l < n ==> Output(NetPropagated(ls, data[l].inputs)) == data[l].outputs
  {
    if n > 0 {
      ErrorTotalZero(ls, data, n - 1);
      var q := NetPropagated(ls, data[n - 1].inputs);
      MeanErrorZero(data[n - 1].outputs, Output(q), |Last(q).neurons|);
    }
  }

  /** Dividing by a positive count keeps the sign and zero. */
  lemma Quotient(x: real, n: nat)
    requires n > 0
    ensures x >= 0.0 ==> x / n as real >= 0.0
    ensures x / n as real == 0.0 <==> x == 0.0
  {
  }

  /** What `iterate` leaves: the network and the average error. */
  datatype Iteration = Iteration(layers: seq<LayerState>, error: real)

  /** `iterate(data, order)`: train on the samples in the given order, then
      average the mean error of every sample on the trained network. The
      error is never negative and the input layer is never adjusted. */
  function IterateSpec(ls: seq<LayerState>, data: seq<Sample>, order: seq<nat>): (r: Iteration)
    requires Chain(ls) && Fits(ls, data) && Indexes(order, |data|) && |data| > 0
    ensures Chain(r.layers) && SameShape(r.layers, ls) && r.layers[0].neurons == ls[0].neurons
    ensures r.error >= 0.0
  {
    var t := TrainPass(ls, data, order, |order|);
    var e := Evaluated(t, data, |data|);
    EvaluatedIndependent(t, data, |data|);
    ErrorTotalZero(t, data, |data|);
    Quotient(e.sum, |data|);
    Iteration(e.layers, e.sum / |data| as real)
  }

  /** The error `iterate` reports is zero exactly when the trained network
      reproduces every sample's expected outputs. */
  lemma IterateSpecError(ls: seq<LayerState>, data: seq<Sample>, order: seq<nat>)
    requires Chain(ls) && Fits(ls, data) && Indexes(order, |data|) && |data| > 0
    ensures var t := TrainPass(ls, data, order, |order|);
            IterateSpec(ls, data, order).error == 0.0 <==>
              forall l :: 0 <= l < |data| ==> Output(NetPropagated(t, data[l].inputs)) == data[l].outputs
  {
    var t := TrainPass(ls, data, order, |order|);
    EvaluatedIndependent(t, data, |data|);
    ErrorTotalZero(t, data, |data|);
    Quotient(ErrorTotal(t, data, |data|), |data|);
  }

  /** The same shape fits the same samples. */
  lemma FitsShape(a: seq<LayerState>, b: seq<LayerState>, data: seq<Sample>)
    requires SameShape(a, b) && |a| > 0 && Fits(b, data)
    ensures Fits(a, data)
  {
    assert |Last(a).neurons| == |Last(b).neurons| && |a[0].neurons| == |b[0].neurons|;
  }

  /** 0, 1, ..., n - 1: the first order `train` uses. */
  function Iota(n: nat): (r: seq<nat>)
    ensures |r| == n && forall i :: 0 <= i < n ==> r[i] == i
  {
    seq(n, i requires 0 <= i < n => i)
  }

  /** The state of `train` between epochs: the network, the checkpoint, the
      error of the last epoch and the error at the last save, from which the
      store and restore thresholds are derived. */
  datatype Trainer = Trainer(layers: seq<LayerState>, checkpoint: seq<LayerState>, error: real, committed: real)

  /** `storeThreshold`: the saved error times the store factor. */
  function StoreThreshold(t: Trainer, settings: Settings): real {
    t.committed * settings.storeThreshold
  }

  /** `restoreThreshold`: the saved error times the restore factor. */
  lemma ThresholdsOf(t: Trainer, settings: Settings, e: real)
    requires e == t.committed
    ensures StoreThreshold(t, settings) == e * settings.storeThreshold
    ensures RestoreThreshold(t, settings) == e * settings.restoreThreshold
  { }

  function RestoreThreshold(t: Trainer, settings: Settings): real {
    t.committed * settings.restoreThreshold
  }

  /** Network a is network ls trained: the same shape, chained, and the
      same input layer neurons. */
  ghost predicate Trained(a: seq<LayerState>, ls: seq<LayerState>) {
    |a| > 0 && Chain(a) && SameShape(a, ls) && a[0].neurons == ls[0].neurons
  }

  lemma TrainedTrans(a: seq<LayerState>, b: seq<LayerState>, c: seq<LayerState>)
    requires Trained(a, b) && Trained(b, c)
    ensures Trained(a, c)
  {
  }

  /** Both the network and the checkpoint are the starting network ls
      trained, and the saved error is not negative. */
  ghost predicate Ready(t: Trainer, ls: seq<LayerState>) {
    Trained(t.layers, ls) && Trained(t.checkpoint, ls) && t.committed >= 0.0
  }

  /** Saving after an iteration: the network becomes the checkpoint and the
      thresholds are set from its error. */
  function Commit(it: Iteration, settings: Settings): Trainer {
    Trainer(it.layers, it.layers, it.error, it.error)
  }

  /** The start of `train`: one iteration in sample order, then a save. */
  function Start(ls: seq<LayerState>, data: seq<Sample>, settings: Settings): (t: Trainer)
    requires Chain(ls) && Fits(ls, data) && |data| > 0
    ensures Ready(t, ls) && t.committed == IterateSpec(ls, data, Iota(|data|)).error
  {
    Commit(IterateSpec(ls, data, Iota(|data|)), settings)
  }

  /** The choice at the end of an epoch that produced it: save when the
      error is below the store threshold, else roll back to the checkpoint
      when it is above the restore threshold, else keep the network. The
      error of the epoch is reported in every case. */
  function Decide(t: Trainer, it: Iteration, settings: Settings): (r: Trainer)
    ensures r.error == it.error
    ensures r.layers == it.layers || r.layers == t.checkpoint
    ensures r.checkpoint == it.layers || r.checkpoint == t.checkpoint
  {
    if it.error < StoreThreshold(t, settings) then Commit(it, settings)
    else if it.error > RestoreThreshold(t, settings) then t.(layers := t.checkpoint, error := it.error)
    else t.(layers := it.layers, error := it.error)
  }

  /** The saved error never becomes negative, and with a store factor of
      at most 1 it never grows. */
  lemma DecideCommitted(t: Trainer, it: Iteration, settings: Settings)
    requires t.committed >= 0.0 && it.error >= 0.0
    ensures Decide(t, it, settings).committed >= 0.0
    ensures settings.storeThreshold <= 1.0 ==> Decide(t, it, settings).committed <= t.committed
  {
    if settings.storeThreshold <= 1.0 {
      assert t.committed * settings.storeThreshold <= t.committed * 1.0;
    }
  }

  /** The three outcomes of an epoch. A commit makes the epoch's network the
      checkpoint and moves both thresholds to its error; a rollback puts the
      checkpoint back and leaves both thresholds where they were; otherwise
      the epoch's network is kept and nothing else changes. */
  lemma DecideOutcomes(t: Trainer, it: Iteration, settings: Settings)
    ensures var r := Decide(t, it, settings);
      && (it.error < StoreThreshold(t, settings) ==>
            r.layers == it.layers && r.checkpoint == it.layers && r.committed == it.error)
      && (!(it.error < StoreThreshold(t, settings)) && it.error > RestoreThreshold(t, settings) ==>
            r.layers == t.checkpoint && r.checkpoint == t.checkpoint
            && StoreThreshold(r, settings) == StoreThreshold(t, settings)
            && RestoreThreshold(r, settings) == RestoreThreshold(t, settings))
      && (StoreThreshold(t, settings) <= it.error <= RestoreThreshold(t, settings) ==>
            r.layers == it.layers && r.checkpoint == t.checkpoint && r.committed == t.committed)
  {
  }

  /** With a positive saved error and a restore factor of at least 1, an
      epoch that is rolled back still has its error reported, and that error
      exceeds the saved one: what `train` returns can be worse than the
      error of the network it leaves in place. */
  lemma {:induction false} RolledBackErrorReported(t: Trainer, it: Iteration, settings: Settings)
    requires t.committed > 0.0 && settings.restoreThreshold >= 1.0 && settings.storeThreshold <= 1.0
    requires it.error > RestoreThreshold(t, settings)
    ensures Decide(t, it, settings).layers == t.checkpoint
    ensures Decide(t, it, settings).error == it.error > t.committed
  {
    assert t.committed * settings.restoreThreshold >= t.committed * 1.0;
    assert t.committed * settings.storeThreshold <= t.committed * 1.0;
  }

  /** Whatever the choice, network and checkpoint stay trained versions of
      the starting network. */
  lemma DecideReady(t: Trainer, it: Iteration, settings: Settings, ls: seq<LayerState>)
    requires Ready(t, ls) && Trained(it.layers, ls) && it.error >= 0.0
    ensures Ready(Decide(t, it, settings), ls)
  {
    DecideCommitted(t, it, settings);
  }

  /** One pass of the loop of `train` on a trained version of ls: iterate
      in the given order, then decide. With a store factor of at most 1 the
      saved error never grows. */
  function Epoch(t: Trainer, ls: seq<LayerState>, data: seq<Sample>, settings: Settings, order: seq<nat>): (r: Trainer)
    requires Ready(t, ls) && Fits(ls, data) && |data| > 0 && Indexes(order, |data|)
    ensures Ready(r, ls)
    ensures settings.storeThreshold <= 1.0 ==> r.committed <= t.committed
  {
    FitsShape(t.layers, ls, data);
    var it := IterateSpec(t.layers, data, order);
    TrainedTrans(it.layers, t.layers, ls);
    DecideReady(t, it, settings, ls);
    DecideCommitted(t, it, settings);
    Decide(t, it, settings)
  }

  /** Every order names samples only. */
  predicate AllIndexes(orders: seq<seq<nat>>, n: nat) {
    forall k :: 0 <= k < |orders| ==> Indexes(orders[k], n)
  }

  /** The state after n epochs, epoch k using the order orders[k]. */
  function Epochs(t: Trainer, ls: seq<LayerState>, data: seq<Sample>, settings: Settings, orders: seq<seq<nat>>, n: nat): (r: Trainer)
    requires Ready(t, ls) && Fits(ls, data) && |data| > 0 && AllIndexes(orders, |data|) && n <= |orders|
    ensures Ready(r, ls)
    ensures settings.storeThreshold <= 1.0 ==> r.committed <= t.committed
  {
    if n == 0 then t
    else
      var p := Epochs(t, ls, data, settings, orders, n - 1);
      Epoch(p, ls, data, settings, orders[n - 1])
  }

  /** Helper: the state after n epochs, once n is the epoch count. */
  lemma EpochsDone(t: Trainer, ls: seq<LayerState>, data: seq<Sample>, settings: Settings, orders: seq<seq<nat>>, n: nat, r: Trainer)
    requires Ready(t, ls) && Fits(ls, data) && |data| > 0 && AllIndexes(orders, |data|) && n <= |orders|
    requires n == EpochCount(settings) && r == Epochs(t, ls, data, settings, orders, n)
    ensures r == Epochs(t, ls, data, settings, orders, EpochCount(settings))
  {
  }

  /** The loop of `train` runs while `++iteration < max_iterations`: one
      epoch fewer than the maximum, and none for a maximum of 0 or 1. */
  function EpochCount(settings: Settings): nat {
    if settings.maxIterations == 0 then 0 else settings.maxIterations - 1
  }

  /** `train(data, settings)`, the shuffled orders given as `orders`. The
      input layer is never adjusted and, with a store factor of at most 1,
      the saved error ends no higher than the first iteration's. */
  function TrainSpec(ls: seq<LayerState>, data: seq<Sample>, settings: Settings, orders: seq<seq<nat>>): (r: Trainer)
    requires Chain(ls) && Fits(ls, data) && |data| > 0
    requires AllIndexes(orders, |data|) && EpochCount(settings) <= |orders|
    ensures Ready(r, ls)
    ensures settings.storeThreshold <= 1.0 ==> r.committed <= IterateSpec(ls, data, Iota(|data|)).error
  {
    var t := Start(ls, data, settings);
    Epochs(t, ls, data, settings, orders, EpochCount(settings))
  }

  /** `train` is its loop started from the commit of the first iteration. */
  lemma TrainSpecStart(ls: seq<LayerState>, data: seq<Sample>, settings: Settings, orders: seq<seq<nat>>)
    requires Chain(ls) && Fits(ls, data) && |data| > 0
    requires AllIndexes(orders, |data|) && EpochCount(settings) <= |orders|
    ensures var t := Commit(IterateSpec(ls, data, Iota(|data|)), settings);
      && Ready(t, ls)
      && TrainSpec(ls, data, settings, orders) == Epochs(t, ls, data, settings, orders, EpochCount(settings))
  {
  }

  /** The number of inputs of layer i of `Network(layers)`: none for the
      input layer, the size of the layer before it otherwise. */
  function InputsOf(sizes: seq<nat>, i: nat): nat
    requires i < |sizes|
  {
    if i == 0 then 0 else sizes[i - 1]
  }

  /** Initial weights for every layer of a network of the given sizes. */
  predicate BuildWeights(sizes: seq<nat>, weights: seq<seq<seq<real>>>) {
    |weights| == |sizes| && forall i :: 0 <= i < |sizes| ==> InitialWeights(sizes[i], InputsOf(sizes, i), weights[i])
  }

  /** The network the constructor builds: layer i has sizes[i] neurons, each
      fed by every neuron of layer i - 1. */
  function Built(sizes: seq<nat>, funcs: seq<Activation>, weights: seq<seq<seq<real>>>): (r: seq<LayerState>)
    requires |sizes| > 0 && |funcs| == |sizes| && BuildWeights(sizes, weights)
    ensures Chain(r) && |r| == |sizes| && forall i :: 0 <= i < |sizes| ==> |r[i].neurons| == sizes[i]
  {
    seq(|sizes|, i requires 0 <= i < |sizes| => Initial(sizes[i], InputsOf(sizes, i), funcs[i], weights[i]))
  }

  /** `BackPropagation::Network`: the layers, the restore point, and the
      objects they own. */
  class Network {
    var layers: seq<Layer>
    var checkpoint: seq<LayerState>
    ghost var Repr: set<object>

    /** Each layer is valid and owns its objects apart from the other
        layers and from the network. */
    ghost predicate Sound()
      reads this, Repr
    {
      && this in Repr && |layers| > 0
      && (forall i :: 0 <= i < |layers| ==>
            layers[i] in Repr && layers[i].Repr <= Repr && this !in layers[i].Repr && layers[i].Valid())
      && forall i, j :: 0 <= i < |layers| && 0 <= j < |layers| && i != j ==> layers[i].Repr !! layers[j].Repr
    }

    /** The states of the layers, input layer first. */
    function States(): (r: seq<LayerState>)
      requires Sound()
      reads this, Repr
      ensures |r| == |layers| && forall i :: 0 <= i < |layers| ==> r[i] == layers[i].State()
    {
      seq(|layers|, i requires 0 <= i < |layers| && Sound() reads this, Repr => layers[i].State())
    }

    /** The layers and the restore point are networks. */
    ghost predicate Valid()
      reads this, Repr
    {
      Sound() && Chain(States()) && Chain(checkpoint)
    }

    /** When only layer index has changed, and it is still valid, the
        network is sound and every other layer keeps its state. */
    twostate lemma KeepOthers(index: nat)
      requires old(Sound()) && index < old(|layers|) && unchanged(this)
      requires unchanged(old(Repr) - old(layers[index].Repr))
      requires layers[index].Valid()
      ensures Sound()
      ensures forall j :: 0 <= j < |layers| && j != index ==> layers[j].State() == old(layers[j].State())
    {
    }

    /** One step of the forward loop of `propagate`: layer i propagates the
        outputs of layer i - 1. */
    method PropagateNext(i: nat, inputs: seq<real>, ghost s0: seq<LayerState>)
      requires Sound() && Chain(s0) && |inputs| == |s0[0].neurons| && 0 < i < |s0|
      requires States() == PropagateUpTo(s0, inputs, i)
      modifies Repr - {this}
      ensures Sound() && States() == PropagateUpTo(s0, inputs, i + 1)
    {
      ghost var p := States();
      ChainLink(p, i);
      layers[i].Propagate(layers[i - 1].output);
      KeepOthers(i);
      assert States() == p[i := Propagated(p[i], p[i - 1].output)];
    }

    /** The first step of `propagate`: the input layer shows the inputs. */
    method SetInputs(inputs: seq<real>, ghost s0: seq<LayerState>)
      requires Sound() && Chain(s0) && |inputs| == |s0[0].neurons| && States() == s0
      modifies Repr - {this}
      ensures Sound() && States() == PropagateUpTo(s0, inputs, 1)
    {
      layers[0].SetOutput(inputs);
      KeepOthers(0);
      assert States() == s0[0 := s0[0].(output := inputs)];
    }

    /** `propagate(inputs)`: the input layer shows the inputs, then every
        later layer propagates the outputs of the layer before it. */
    method Propagate(inputs: seq<real>)
      requires Valid() && |inputs| == |States()[0].neurons|
      modifies Repr - {this}
      ensures Valid() && States() == NetPropagated(old(States()), inputs)
    {
      ghost var s0 := States();
      SetInputs(inputs, s0);
      for i := 1 to |layers|
        invariant Sound() && States() == PropagateUpTo(s0, inputs, i)
      {
        PropagateNext(i, inputs, s0);
      }
    }

    /** `test(inputs)`: propagate, and hand back the outputs of the output
        layer. */
    method Test(inputs: seq<real>) returns (out: seq<real>)
      requires Valid() && |inputs| == |States()[0].neurons|
      modifies Repr - {this}
      ensures Valid() && States() == NetPropagated(old(States()), inputs)
      ensures out == Output(States())
    {
      Propagate(inputs);
      out := layers[|layers| - 1].output;
    }
  
    /** One step of the backward loop of `iterate`: layer index adjusts to
        the errors errs and the outputs of layer index - 1, and hands back
        the error buffer for layer index - 1. */
    method BackStep(index: nat, errs: seq<real>) returns (r: seq<real>)
      requires Sound() && Chain(States()) && 0 < index < |layers| && |States()[index].neurons| <= |errs|
      modifies Repr - {this}
      ensures Sound()
      ensures var p := old(States());
              && LayerShaped(p[index], |p[index - 1].output|)
              && States() == p[index := BackPropagated(p[index], p[index - 1].output, errs)]
      ensures r == States()[index].errors
    {
      ghost var p := States();
      ChainLink(p, index);
      r := layers[index].BackPropagate(layers[index - 1].output, errs);
      KeepOthers(index);
      assert States() == p[index := BackPropagated(p[index], p[index - 1].output, errs)];
    }

    /** Step k of the backward loop, stated against `BackwardUpTo`. */
    method BackwardStep(k: nat, errs: seq<real>, ghost s0: seq<LayerState>, ghost outputErrors: seq<real>) returns (r: seq<real>)
      requires Sound() && Chain(s0) && |Last(s0).neurons| <= |outputErrors| && k + 1 < |s0| == |layers|
      requires Backward(States(), errs) == BackwardUpTo(s0, outputErrors, k)
      modifies Repr - {this}
      ensures Sound() && Backward(States(), r) == BackwardUpTo(s0, outputErrors, k + 1)
    {
      r := BackStep(|layers| - 1 - k, errs);
      BackwardUpToNext(s0, outputErrors, k, States(), r);
    }

    /** The backward loop of `iterate`: from the output layer down to layer
        1, each layer adjusts and hands its error buffer to the one before. */
    method BackwardPass(outputErrors: seq<real>)
      requires Sound() && Chain(States()) && |Last(States()).neurons| <= |outputErrors|
      modifies Repr - {this}
      ensures Sound() && States() == BackwardUpTo(old(States()), outputErrors, |layers| - 1).layers
    {
      ghost var s0 := States();
      var errors := outputErrors;
      for k := 0 to |layers| - 1
        invariant Sound()
        invariant Backward(States(), errors) == BackwardUpTo(s0, outputErrors, k)
      {
        errors := BackwardStep(k, errors, s0, outputErrors);
      }
    }

    /** The forward half of training on a sample: propagate, and take the
        target minus the output at the output layer. */
    method Forward(sample: Sample) returns (errors: seq<real>)
      requires Valid() && SampleFits(States(), sample)
      modifies Repr - {this}
      ensures Valid() && States() == NetPropagated(old(States()), sample.inputs)
      ensures errors == Differences(sample.outputs, Output(States()))
    {
      Propagate(sample.inputs);
      errors := layers[|layers| - 1].ComputeErrors(sample.outputs);
    }

    /** The body of the training loop of `iterate` for one sample: the
        forward half, then the backward loop. */
    method TrainOn(sample: Sample)
      requires Valid() && SampleFits(States(), sample)
      modifies Repr - {this}
      ensures Valid() && States() == TrainSample(old(States()), sample)
    {
      var errors := Forward(sample);
      BackwardPass(errors);
    }

    /** The training loop of `iterate`: train on the samples in the given
        order. */
    method TrainAll(data: seq<Sample>, order: seq<nat>)
      requires Valid() && Fits(States(), data) && Indexes(order, |data|)
      modifies Repr - {this}
      ensures Valid() && States() == TrainPass(old(States()), data, order, |order|)
    {
      ghost var s0 := States();
      for k := 0 to |order|
        invariant Valid() && States() == TrainPass(s0, data, order, k)
      {
        FitsShape(States(), s0, data);
        TrainOn(data[order[k]]);
      }
    }

    /** The body of the evaluation loop of `iterate` for one sample:
        propagate, and the mean error of the output layer. */
    method EvaluateOn(sample: Sample) returns (m: real)
      requires Valid() && SampleFits(States(), sample)
      modifies Repr - {this}
      ensures Valid() && States() == NetPropagated(old(States()), sample.inputs)
      ensures m == MeanError(sample.outputs, Output(States()), |Last(States()).neurons|)
    {
      Propagate(sample.inputs);
      m := layers[|layers| - 1].GetMeanError(sample.outputs);
    }

    /** The evaluation loop of `iterate`: propagate every sample and sum the
        mean errors of the output layer. */
    method EvaluateAll(data: seq<Sample>) returns (sum: real)
      requires Valid() && Fits(States(), data)
      modifies Repr - {this}
      ensures Valid() && Evaluation(States(), sum) == Evaluated(old(States()), data, |data|)
    {
      ghost var t := States();
      sum := 0.0;
      for l := 0 to |data|
        invariant Valid() && Evaluation(States(), sum) == Evaluated(t, data, l)
      {
        FitsShape(States(), t, data);
        var m := EvaluateOn(data[l]);
        sum := sum + m;
      }
    }

    /** `iterate(data, order)`: train in the given order, then the average
        of the samples' mean errors on the trained network. */
    method Iterate(data: seq<Sample>, order: seq<nat>) returns (error: real)
      requires Valid() && Fits(States(), data) && Indexes(order, |data|) && |data| > 0
      modifies Repr - {this}
      ensures Valid() && States() == IterateSpec(old(States()), data, order).layers
      ensures error == IterateSpec(old(States()), data, order).error
    {
      TrainAll(data, order);
      FitsShape(States(), old(States()), data);
      var sum := EvaluateAll(data);
      error := sum / |data| as real;
    }

    /** `save`: the restore point becomes a copy of the layers. */
    method Save()
      requires Sound() && Chain(States())
      modifies this`checkpoint
      ensures Valid() && States() == old(States()) && checkpoint == States()
    {
      ghost var s := States();
      checkpoint := States();
      assert Sound();
      assert States() == s;
    }

    /** Layers that own their objects apart from each other, all inside
        owned. */
    static ghost predicate Owned(ls: seq<Layer>, owned: set<object>) {
      && (forall k :: 0 <= k < |ls| ==> ls[k] in owned && ls[k].Repr <= owned)
      && forall k, m :: 0 <= k < |ls| && 0 <= m < |ls| && k != m ==> ls[k].Repr !! ls[m].Repr
    }

    /** New layers in the given states, each a copy made apart from the others. */
    static method Copies(states: seq<LayerState>) returns (ls: seq<Layer>, ghost owned: set<object>)
      requires Chain(states)
      ensures |ls| == |states| && Owned(ls, owned) && fresh(owned)
      ensures forall k :: 0 <= k < |ls| ==> ls[k].Valid() && ls[k].State() == states[k]
    {
      ls := [];
      owned := {};
      for i := 0 to |states|
        invariant |ls| == i && Owned(ls, owned) && fresh(owned)
        invariant forall k :: 0 <= k < i ==> ls[k].Valid() && ls[k].State() == states[k]
      {
        ChainAt(states, i);
        var l := new Layer.Copy(states[i]);
        ls := ls + [l];
        owned := owned + l.Repr;
      }
    }

    /** The layers of the constructor loop, input layer first. */
    static method NewLayers(sizes: seq<nat>, funcs: seq<Activation>, weights: seq<seq<seq<real>>>)
      returns (ls: seq<Layer>, ghost owned: set<object>)
      requires |funcs| == |sizes| && BuildWeights(sizes, weights)
      ensures |ls| == |sizes| && Owned(ls, owned) && fresh(owned)
      ensures forall k :: 0 <= k < |ls| ==>
        ls[k].Valid() && ls[k].State() == Initial(sizes[k], InputsOf(sizes, k), funcs[k], weights[k])
    {
      ls := [];
      owned := {};
      for i := 0 to |sizes|
        invariant |ls| == i && Owned(ls, owned) && fresh(owned)
        invariant forall k :: 0 <= k < i ==>
          ls[k].Valid() && ls[k].State() == Initial(sizes[k], InputsOf(sizes, k), funcs[k], weights[k])
      {
        var l := new Layer(sizes[i], InputsOf(sizes, i), funcs[i], weights[i]);
        ls := ls + [l];
        owned := owned + l.Repr;
      }
    }

    /** `restore`: the layers become copies of the restore point, which
        itself is kept. */
    method Restore()
      requires Valid()
      modifies this
      ensures Valid() && States() == old(checkpoint) && checkpoint == old(checkpoint)
      ensures fresh(Repr - old(Repr))
    {
      var ls;
      ghost var owned;
      ls, owned := Copies(checkpoint);
      layers := ls;
      Repr := {this} + owned;
      assert Sound();
      assert States() == old(checkpoint);
    }

    /** `Network(layers)`: the layers of the given sizes and activation
        functions, each with the given initial weights, then a save. */
    constructor (sizes: seq<nat>, funcs: seq<Activation>, weights: seq<seq<seq<real>>>)
      requires |sizes| > 0 && |funcs| == |sizes| && BuildWeights(sizes, weights)
      ensures Valid() && fresh(Repr)
      ensures States() == Built(sizes, funcs, weights) && checkpoint == States()
    {
      var ls;
      ghost var owned;
      ls, owned := NewLayers(sizes, funcs, weights);
      layers := ls;
      Repr := {this} + owned;
      new;
      assert Sound();
      assert States() == Built(sizes, funcs, weights);
      Save();
    }

    /** `save`, then an iteration that changes the layers, then `restore`:
        the layers are back to those saved, and the checkpoint still holds
        them. */
    method CheckpointRoundTrip(data: seq<Sample>, order: seq<nat>)
      requires Valid() && Fits(States(), data) && Indexes(order, |data|) && |data| > 0
      modifies this, Repr
      ensures Valid() && States() == old(States()) && checkpoint == old(States())
    {
      Save();
      var error := Iterate(data, order);
      Restore();
    }

    /** The end of a pass of the loop of `train`, network and error being
        those of iteration it: save and move both thresholds when the error
        is below the store threshold, else restore when it is above the
        restore threshold. */
    method Settle(settings: Settings, ghost t: Trainer, ghost it: Iteration, error: real,
                  storeThreshold: real, restoreThreshold: real)
      returns (store: real, restore: real)
      requires Valid() && States() == it.layers && error == it.error && checkpoint == t.checkpoint
      requires storeThreshold == StoreThreshold(t, settings) && restoreThreshold == RestoreThreshold(t, settings)
      modifies this, Repr
      ensures Valid() && fresh(Repr - old(Repr))
      ensures var r := Decide(t, it, settings);
        && States() == r.layers && checkpoint == r.checkpoint
        && store == StoreThreshold(r, settings) && restore == RestoreThreshold(r, settings)
    {
      store, restore := storeThreshold, restoreThreshold;
      if error < storeThreshold {
        store := error * settings.storeThreshold;
        restore := error * settings.restoreThreshold;
        Save();
      } else if error > restoreThreshold {
        Restore();
      }
    }

    /** The start of `train`: one iteration in sample order, a save, and
        both thresholds set from the error. */
    method Begin(data: seq<Sample>, settings: Settings, ghost t: Trainer) returns (error: real, store: real, restore: real)
      requires Valid() && Fits(States(), data) && |data| > 0
      requires t == Commit(IterateSpec(States(), data, Iota(|data|)), settings)
      modifies Repr - {this}, this`checkpoint
      ensures Valid() && Repr == old(Repr)
      ensures States() == t.layers && checkpoint == t.checkpoint && error == t.error
      ensures store == StoreThreshold(t, settings) && restore == RestoreThreshold(t, settings)
    {
      error := Iterate(data, Iota(|data|));
      Save();
      assert error == t.committed;
      ThresholdsOf(t, settings, error);
      store := error * settings.storeThreshold;
      restore := error * settings.restoreThreshold;
    }

    /** A pass of the loop of `train` on network t of the training of ls. */
    method Pass(data: seq<Sample>, settings: Settings, order: seq<nat>, ghost ls: seq<LayerState>, ghost t: Trainer,
                storeThreshold: real, restoreThreshold: real)
      returns (error: real, store: real, restore: real)
      requires Valid() && Ready(t, ls) && Fits(ls, data) && |data| > 0 && Indexes(order, |data|)
      requires States() == t.layers && checkpoint == t.checkpoint
      requires storeThreshold == StoreThreshold(t, settings) && restoreThreshold == RestoreThreshold(t, settings)
      modifies this, Repr
      ensures Valid() && fresh(Repr - old(Repr))
      ensures var r := Epoch(t, ls, data, settings, order);
        && States() == r.layers && checkpoint == r.checkpoint && error == r.error
        && store == StoreThreshold(r, settings) && restore == RestoreThreshold(r, settings)
    {
      FitsShape(t.layers, ls, data);
      ghost var it := IterateSpec(t.layers, data, order);
      error := Iterate(data, order);
      store, restore := Settle(settings, t, it, error, storeThreshold, restoreThreshold);
    }

    /** Pass n of the loop of `train`, stated against `Epochs`. */
    method Advance(data: seq<Sample>, settings: Settings, orders: seq<seq<nat>>, ghost ls: seq<LayerState>, ghost t0: Trainer,
                   n: nat, storeThreshold: real, restoreThreshold: real)
      returns (error: real, store: real, restore: real)
      requires Valid() && Ready(t0, ls) && Fits(ls, data) && |data| > 0 && AllIndexes(orders, |data|) && n < |orders|
      requires var t := Epochs(t0, ls, data, settings, orders, n);
        && States() == t.layers && checkpoint == t.checkpoint
        && storeThreshold == StoreThreshold(t, settings) && restoreThreshold == RestoreThreshold(t, settings)
      modifies this, Repr
      ensures Valid() && fresh(Repr - old(Repr))
      ensures var r := Epochs(t0, ls, data, settings, orders, n + 1);
        && States() == r.layers && checkpoint == r.checkpoint && error == r.error
        && store == StoreThreshold(r, settings) && restore == RestoreThreshold(r, settings)
    {
      ghost var t := Epochs(t0, ls, data, settings, orders, n);
      error, store, restore := Pass(data, settings, orders[n], ls, t, storeThreshold, restoreThreshold);
    }

    /** The loop of `train` after its first iteration, against `Epochs`.
        `iteration` holds the source's counter before its pre-increment,
        which is also the number of epochs run so far. */
    method Loop(data: seq<Sample>, settings: Settings, orders: seq<seq<nat>>, ghost ls: seq<LayerState>, ghost t0: Trainer,
                error0: real, store0: real, restore0: real)
      returns (error: real)
      requires Valid() && Ready(t0, ls) && Fits(ls, data) && |data| > 0
      requires AllIndexes(orders, |data|) && EpochCount(settings) <= |orders|
      requires States() == t0.layers && checkpoint == t0.checkpoint && error0 == t0.error
      requires store0 == StoreThreshold(t0, settings) && restore0 == RestoreThreshold(t0, settings)
      modifies this, Repr
      ensures Valid() && fresh(Repr - old(Repr))
      ensures var r := Epochs(t0, ls, data, settings, orders, EpochCount(settings));
        States() == r.layers && checkpoint == r.checkpoint && error == r.error
    {
      error := error0;
      var storeThreshold, restoreThreshold := store0, restore0;
      var iteration := 0;
      while iteration + 1 < settings.maxIterations
        invariant iteration <= EpochCount(settings)
        invariant Valid() && fresh(Repr - old(Repr))
        invariant var t := Epochs(t0, ls, data, settings, orders, iteration);
          && States() == t.layers && checkpoint == t.checkpoint && error == t.error
          && storeThreshold == StoreThreshold(t, settings) && restoreThreshold == RestoreThreshold(t, settings)
      {
        error, storeThreshold, restoreThreshold := Advance(data, settings, orders, ls, t0, iteration, storeThreshold, restoreThreshold);
        iteration := iteration + 1;
      }
      EpochsDone(t0, ls, data, settings, orders, iteration, Epochs(t0, ls, data, settings, orders, iteration));
    }

    /** `train(data, settings)`: one iteration in sample order and a save,
        then an epoch per further iteration, epoch k in the order orders[k]
        (the shuffles of the source). The error returned is that of the
        last iteration. */
    method Train(data: seq<Sample>, settings: Settings, orders: seq<seq<nat>>) returns (error: real)
      requires Valid() && Fits(States(), data) && |data| > 0
      requires AllIndexes(orders, |data|) && EpochCount(settings) <= |orders|
      modifies this, Repr
      ensures Valid() && fresh(Repr - old(Repr))
      ensures var r := TrainSpec(old(States()), data, settings, orders);
        States() == r.layers && checkpoint == r.checkpoint && error == r.error
    {
      ghost var s0 := States();
      ghost var t0 := Commit(IterateSpec(s0, data, Iota(|data|)), settings);
      TrainSpecStart(s0, data, settings, orders);
      var storeThreshold, restoreThreshold;
      error, storeThreshold, restoreThreshold := Begin(data, settings, t0);
      error := Loop(data, settings, orders, s0, t0, error, storeThreshold, restoreThreshold);
    }
  }
}
