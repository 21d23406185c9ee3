/**
 * A layer of the back-propagation network: its neurons, the outputs of the
 * last propagation and the buffer of errors it hands back to the layer
 * before it.
 */
module BpLayer {
  import opened BpNeuron

  /** The fields of a `Layer`: outputs, error buffer and neurons, as values. */
  datatype LayerState = LayerState(output: seq<real>, errors: seq<real>, neurons: seq<NeuronState>)

  /** A layer fed by nIn inputs: every neuron has nIn weights and momentums,
      the error buffer nIn slots, and there is one output per neuron. */
  predicate LayerShaped(l: LayerState, nIn: nat) {
    && |l.errors| == nIn
    && |l.output| == |l.neurons|
    && forall i :: 0 <= i < |l.neurons| ==> Shaped(l.neurons[i], nIn)
  }

  /** The layer after `propagate(inputs)`: each neuron computes on the same
      inputs and its output lands in the slot of the same index. */
  function Propagated(l: LayerState, inputs: seq<real>): (r: LayerState)
    requires LayerShaped(l, |inputs|)
    ensures LayerShaped(r, |inputs|) && r.errors == l.errors && |r.neurons| == |l.neurons|
    ensures forall i :: 0 <= i < |l.neurons| ==> r.output[i] == Fire(l.neurons[i], inputs)
    ensures forall i :: 0 <= i < |l.neurons| ==> r.neurons[i] == Computed(l.neurons[i], inputs)
  {
    LayerState(seq(|l.neurons|, i requires 0 <= i < |l.neurons| => Fire(l.neurons[i], inputs)),
               l.errors,
               seq(|l.neurons|, i requires 0 <= i < |l.neurons| => Computed(l.neurons[i], inputs)))
  }

  /** Propagation leaves no trace but its outputs: propagating b after a is
      propagating b alone, and no weight, momentum or error changes. */
  lemma PropagatedOverwrites(l: LayerState, a: seq<real>, b: seq<real>)
    requires LayerShaped(l, |a|) && |b| == |a|
    ensures Propagated(Propagated(l, a), b) == Propagated(l, b)
    ensures forall i :: 0 <= i < |l.neurons| ==>
              SameParameters(Propagated(l, a).neurons[i], l.neurons[i]) && Propagated(l, a).neurons[i].error == l.neurons[i].error
  {
    var p := Propagated(l, a);
    assert forall i :: 0 <= i < |l.neurons| ==> Fire(p.neurons[i], b) == Fire(l.neurons[i], b);
    assert Propagated(p, b).output == Propagated(l, b).output;
    assert Propagated(p, b).neurons == Propagated(l, b).neurons;
  }

  /** The layer after the first n neurons of `back_propagate(inputs,
      outErrs)` have adjusted: the error buffer was zeroed and then received
      each adjusted neuron's share, in neuron order. */
  function BackUpTo(l: LayerState, inputs: seq<real>, outErrs: seq<real>, n: nat): (r: LayerState)
    requires LayerShaped(l, |inputs|) && n <= |l.neurons| <= |outErrs|
    ensures LayerShaped(r, |inputs|) && r.output == l.output && |r.neurons| == |l.neurons|
    ensures forall i :: 0 <= i < n ==> r.neurons[i] == Adjusted(l.neurons[i], outErrs[i], inputs)
    ensures forall i :: n <= i < |l.neurons| ==> r.neurons[i] == l.neurons[i]
  {
    if n == 0 then l.(errors := Zeros(|inputs|))
    else
      var p := BackUpTo(l, inputs, outErrs, n - 1);
      var t := Adjusted(l.neurons[n - 1], outErrs[n - 1], inputs);
      p.(neurons := p.neurons[n - 1 := t], errors := Contribute(p.errors, t))
  }

  /** The layer after `back_propagate(inputs, outErrs)`. */
  function BackPropagated(l: LayerState, inputs: seq<real>, outErrs: seq<real>): LayerState
    requires LayerShaped(l, |inputs|) && |l.neurons| <= |outErrs|
  {
    BackUpTo(l, inputs, outErrs, |l.neurons|)
  }

  /** The sum over the first n neurons of weight k times the error term. */
  function ErrorSum(ns: seq<NeuronState>, k: nat, n: nat): real
    requires n <= |ns| && forall i :: 0 <= i < n ==> k < |ns[i].weights|
  {
    if n == 0 then 0.0 else ErrorSum(ns, k, n - 1) + ns[n - 1].weights[k] * ns[n - 1].error
  }

  /** ErrorSum reads only the first n neurons. */
  lemma {:induction false} ErrorSumPrefix(ns: seq<NeuronState>, ms: seq<NeuronState>, k: nat, n: nat)
    requires n <= |ns| && n <= |ms| && forall i :: 0 <= i < n ==> ns[i] == ms[i] && k < |ns[i].weights|
    ensures ErrorSum(ns, k, n) == ErrorSum(ms, k, n)
  {
    if n > 0 {
      ErrorSumPrefix(ns, ms, k, n - 1);
    }
  }

  lemma {:induction false} BackUpToErrors(l: LayerState, inputs: seq<real>, outErrs: seq<real>, n: nat)
    requires LayerShaped(l, |inputs|) && n <= |l.neurons| <= |outErrs|
    ensures forall k :: 0 <= k < |inputs| ==>
              BackUpTo(l, inputs, outErrs, n).errors[k] == ErrorSum(BackUpTo(l, inputs, outErrs, n).neurons, k, n)
  {
    if n > 0 {
      BackUpToErrors(l, inputs, outErrs, n - 1);
      var p := BackUpTo(l, inputs, outErrs, n - 1);
      var r := BackUpTo(l, inputs, outErrs, n);
      var t := Adjusted(l.neurons[n - 1], outErrs[n - 1], inputs);
      assert r.neurons == p.neurons[n - 1 := t] && r.errors == Contribute(p.errors, t);
      forall k | 0 <= k < |inputs|
        ensures r.errors[k] == ErrorSum(r.neurons, k, n)
      {
        assert p.errors[k] == ErrorSum(p.neurons, k, n - 1);
        ErrorSumPrefix(p.neurons, r.neurons, k, n - 1);
      }
    }
  }

  /** The errors a layer hands back: slot k holds the sum over the layer's
      neurons of their updated weight k times their error term; each neuron
      is adjusted by the error of its own index and the output is kept. */
  lemma BackPropagatedSpec(l: LayerState, inputs: seq<real>, outErrs: seq<real>)
    requires LayerShaped(l, |inputs|) && |l.neurons| <= |outErrs|
    ensures var r := BackPropagated(l, inputs, outErrs);
            && LayerShaped(r, |inputs|) && r.output == l.output
            && (forall i :: 0 <= i < |l.neurons| ==> r.neurons[i] == Adjusted(l.neurons[i], outErrs[i], inputs))
            && forall k :: 0 <= k < |inputs| ==> r.errors[k] == ErrorSum(r.neurons, k, |r.neurons|)
  {
    BackUpToErrors(l, inputs, outErrs, |l.neurons|);
  }

  /** The errors `compute_errors` reports: target minus output, slot by slot. */
  function Differences(targets: seq<real>, output: seq<real>): (r: seq<real>)
    requires |targets| == |output|
    ensures |r| == |targets| && forall i :: 0 <= i < |r| ==> output[i] + r[i] == targets[i]
    ensures (forall i :: 0 <= i < |r| ==> r[i] == 0.0) <==> targets == output
  {
    seq(|targets|, i requires 0 <= i < |targets| => targets[i] - output[i])
  }

  function Abs(x: real): real {
    if x < 0.0 then -x else x
  }

  /** The sum of the absolute differences over the first n slots. */
  function AbsSum(expected: seq<real>, output: seq<real>, n: nat): real
    requires n <= |expected| <= |output|
  {
    if n == 0 then 0.0 else AbsSum(expected, output, n - 1) + Abs(expected[n - 1] - output[n - 1])
  }

  lemma {:induction false} AbsSumZero(expected: seq<real>, output: seq<real>, n: nat)
    requires n <= |expected| <= |output|
    ensures AbsSum(expected, output, n) >= 0.0
    ensures AbsSum(expected, output, n) == 0.0 <==> forall i :: 0 <= i < n ==> expected[i] == output[i]
  {
    if n > 0 {
      AbsSumZero(expected, output, n - 1);
    }
  }

  /** `get_mean_error`: the summed absolute difference divided by the
      number of neurons. */
  function MeanError(expected: seq<real>, output: seq<real>, size: nat): real
    requires |expected| <= |output| && size > 0
  {
    AbsSum(expected, output, |expected|) / size as real
  }

  /** The mean error is never negative, and it is zero exactly when the
      outputs are the expected ones. */
  lemma MeanErrorZero(expected: seq<real>, output: seq<real>, size: nat)
    requires |expected| == |output| && size > 0
    ensures MeanError(expected, output, size) >= 0.0
    ensures MeanError(expected, output, size) == 0.0 <==> expected == output
  {
    AbsSumZero(expected, output, |expected|);
  }

  /** Weights for a new layer: one row of nbrOfInputs weights per neuron,
      each drawn from [-0.5, 0.5). */
  predicate InitialWeights(nbrOfNeurons: nat, nbrOfInputs: nat, w: seq<seq<real>>) {
    && |w| == nbrOfNeurons
    && (forall i :: 0 <= i < nbrOfNeurons ==> |w[i]| == nbrOfInputs)
    && forall i, m :: 0 <= i < nbrOfNeurons && 0 <= m < nbrOfInputs ==> -0.5 <= w[i][m] < 0.5
  }

  /** A new layer: zero outputs, a zeroed error buffer of nbrOfInputs slots,
      and neurons with the given weights, zero momentums, output and error. */
  function Initial(nbrOfNeurons: nat, nbrOfInputs: nat, func: Activation, w: seq<seq<real>>): (l: LayerState)
    requires InitialWeights(nbrOfNeurons, nbrOfInputs, w)
    ensures LayerShaped(l, nbrOfInputs) && |l.neurons| == nbrOfNeurons
  {
    LayerState(Zeros(nbrOfNeurons), Zeros(nbrOfInputs),
               seq(nbrOfNeurons, i requires 0 <= i < nbrOfNeurons => NeuronState(0.0, 0.0, w[i], Zeros(nbrOfInputs), func)))
  }

  /** `BackPropagation::Layer`. */
  class Layer {
    var output: seq<real>
    const errors: array<real>
    const neurons: seq<Neuron>
    ghost const Repr: set<object>

    /** The layer owns its error buffer and its distinct neurons, and every
        neuron is fed by as many inputs as the buffer has slots. */
    ghost predicate Valid()
      reads this, Repr
    {
      && this in Repr && errors in Repr
      && (forall i :: 0 <= i < |neurons| ==> neurons[i] in Repr)
      && (forall i, j :: 0 <= i < j < |neurons| ==> neurons[i] != neurons[j])
      && forall i :: 0 <= i < |neurons| ==> |neurons[i].weights| == |neurons[i].momentums| == errors.Length
    }

    function State(): LayerState
      requires Valid()
      reads this, Repr
    {
      LayerState(output, errors[..], seq(|neurons|, i requires 0 <= i < |neurons| reads neurons => neurons[i].State()))
    }

    /** The constructor: nbrOfNeurons neurons fed by nbrOfInputs inputs,
        zero outputs and a zeroed error buffer of nbrOfInputs slots. */
    constructor (nbrOfNeurons: nat, nbrOfInputs: nat, func: Activation, initialWeights: seq<seq<real>>)
      requires InitialWeights(nbrOfNeurons, nbrOfInputs, initialWeights)
      ensures Valid() && fresh(Repr)
      ensures State() == Initial(nbrOfNeurons, nbrOfInputs, func, initialWeights)
    {
      var ns: seq<Neuron> := [];
      for i := 0 to nbrOfNeurons
        invariant |ns| == i
        invariant forall k :: 0 <= k < i ==> fresh(ns[k])
        invariant forall k :: 0 <= k < i ==> ns[k].State() == NeuronState(0.0, 0.0, initialWeights[k], Zeros(nbrOfInputs), func)
        invariant forall k, m :: 0 <= k < m < i ==> ns[k] != ns[m]
      {
        var n := new Neuron(nbrOfInputs, func, initialWeights[i]);
        ns := ns + [n];
      }
      output := Zeros(nbrOfNeurons);
      errors := new real[nbrOfInputs](_ => 0.0);
      neurons := ns;
      Repr := {this, errors} + set k | 0 <= k < |ns| :: ns[k];
      new;
      assert State().neurons == Initial(nbrOfNeurons, nbrOfInputs, func, initialWeights).neurons;
    }

    /** A fresh layer in state s (the copy `std::vector::assign` makes). */
    constructor Copy(s: LayerState)
      requires forall i :: 0 <= i < |s.neurons| ==> Shaped(s.neurons[i], |s.errors|)
      ensures Valid() && fresh(Repr) && State() == s
    {
      var ns: seq<Neuron> := [];
      for i := 0 to |s.neurons|
        invariant |ns| == i
        invariant forall k :: 0 <= k < i ==> fresh(ns[k]) && ns[k].State() == s.neurons[k]
        invariant forall k, m :: 0 <= k < m < i ==> ns[k] != ns[m]
      {
        var n := new Neuron.Copy(s.neurons[i]);
        ns := ns + [n];
      }
      output := s.output;
      errors := new real[|s.errors|](k requires 0 <= k < |s.errors| => s.errors[k]);
      neurons := ns;
      Repr := {this, errors} + set k | 0 <= k < |ns| :: ns[k];
      new;
      assert State().neurons == s.neurons;
    }

    /** `set_output`: the outputs are replaced, as for the input layer. */
    method SetOutput(outputs: seq<real>)
      requires Valid()
      modifies this`output
      ensures Valid() && State() == old(State()).(output := outputs)
    {
      output := outputs;
    }

    /** `propagate`: every neuron computes on the inputs, in order. */
    method Propagate(inputs: seq<real>)
      requires Valid() && |output| == |neurons| && errors.Length == |inputs|
      modifies Repr
      ensures Valid() && State() == Propagated(old(State()), inputs)
    {
      ghost var s := State();
      for index := 0 to |neurons|
        invariant Valid() && |output| == |neurons| && errors[..] == s.errors
        invariant forall k :: 0 <= k < index ==> output[k] == Fire(s.neurons[k], inputs)
        invariant forall k :: 0 <= k < index ==> neurons[k].State() == Computed(s.neurons[k], inputs)
        invariant forall k :: index <= k < |neurons| ==> neurons[k].State() == s.neurons[k]
      {
        var o := neurons[index].Compute(inputs);
        output := output[index := o];
      }
      assert output == Propagated(s, inputs).output;
      assert State().neurons == Propagated(s, inputs).neurons;
    }

    /** `compute_errors`: target minus output for every output slot. */
    method ComputeErrors(targets: seq<real>) returns (r: seq<real>)
      requires |targets| == |output|
      ensures r == Differences(targets, output)
    {
      r := [];
      for index := 0 to |targets|
        invariant |r| == index && forall k :: 0 <= k < index ==> r[k] == targets[k] - output[k]
      {
        r := r + [targets[index] - output[index]];
      }
    }

    /** `get_mean_error`: the mean absolute difference between the expected
        values and the outputs, over the neurons of the layer. */
    method GetMeanError(expected: seq<real>) returns (m: real)
      requires |expected| == |output| && |neurons| > 0
      ensures m == MeanError(expected, output, |neurons|)
      ensures m >= 0.0 && (m == 0.0 <==> expected == output)
    {
      var sum := 0.0;
      for index := 0 to |expected|
        invariant sum == AbsSum(expected, output, index)
      {
        sum := sum + Abs(expected[index] - output[index]);
      }
      m := sum / |neurons| as real;
      MeanErrorZero(expected, output, |neurons|);
    }

    /** The first n neurons of `back_propagate(inputs, outErrs)` from state
        s have adjusted: the layer agrees with BackUpTo(s, inputs, outErrs, n). */
    ghost predicate AdjustedUpTo(s: LayerState, inputs: seq<real>, outErrs: seq<real>, n: nat)
      reads this, Repr
    {
      && Valid() && LayerShaped(s, |inputs|) && n <= |neurons| == |s.neurons| <= |outErrs|
      && errors.Length == |inputs| && output == s.output
      && errors[..] == BackUpTo(s, inputs, outErrs, n).errors
      && forall k :: 0 <= k < |neurons| ==> neurons[k].State() == BackUpTo(s, inputs, outErrs, n).neurons[k]
    }

    /** One step of `back_propagate`: neuron n adjusts with error n. */
    method AdjustNext(inputs: seq<real>, outErrs: seq<real>, n: nat, ghost s: LayerState)
      requires AdjustedUpTo(s, inputs, outErrs, n) && n < |neurons|
      modifies Repr
      ensures AdjustedUpTo(s, inputs, outErrs, n + 1)
    {
      neurons[n].Adjust(outErrs[n], inputs, errors);
    }

    /** The loop of `back_propagate`: every neuron adjusts, in order. */
    method AdjustAll(inputs: seq<real>, outErrs: seq<real>, ghost s: LayerState)
      requires AdjustedUpTo(s, inputs, outErrs, 0)
      modifies Repr
      ensures AdjustedUpTo(s, inputs, outErrs, |neurons|)
    {
      for offset := 0 to |neurons|
        invariant AdjustedUpTo(s, inputs, outErrs, offset)
      {
        AdjustNext(inputs, outErrs, offset, s);
      }
    }

    /** Once every neuron has adjusted, the layer is BackPropagated(s, ...). */
    lemma AdjustedAll(inputs: seq<real>, outErrs: seq<real>, s: LayerState)
      requires AdjustedUpTo(s, inputs, outErrs, |neurons|)
      ensures Valid() && State() == BackPropagated(s, inputs, outErrs)
    {
      assert State().neurons == BackPropagated(s, inputs, outErrs).neurons;
    }

    /** The start of `back_propagate`: the error buffer is zeroed. */
    method ClearErrors(inputs: seq<real>, outErrs: seq<real>, ghost s: LayerState)
      requires Valid() && State() == s && LayerShaped(s, |inputs|) && |neurons| <= |outErrs|
      modifies errors
      ensures AdjustedUpTo(s, inputs, outErrs, 0)
    {
      forall k | 0 <= k < errors.Length {
        errors[k] := 0.0;
      }
      assert errors[..] == Zeros(|inputs|);
    }

    /** `back_propagate`: zero the error buffer, adjust every neuron with the
        error of its own index, and hand back the buffer. */
    method BackPropagate(inputs: seq<real>, outputErrors: seq<real>) returns (r: seq<real>)
      requires Valid() && |output| == |neurons| && errors.Length == |inputs| && |neurons| <= |outputErrors|
      modifies Repr
      ensures Valid() && State() == BackPropagated(old(State()), inputs, outputErrors)
      ensures r == State().errors
    {
      ghost var s := State();
      ClearErrors(inputs, outputErrors, s);
      AdjustAll(inputs, outputErrors, s);
      AdjustedAll(inputs, outputErrors, s);
      r := errors[..];
    }
  }
}
