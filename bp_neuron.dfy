/**
 * The neuron of the back-propagation network. Doubles are modelled as reals
 * (no rounding) and the activation function as a pair of given total
 * functions.
 */
module BpNeuron {

  /** `Activation_function`: `compute` maps the weighted input sum to the
      output, `derivative` maps an output to the slope used in training. */
  datatype Activation = Activation(compute: real -> real, derivative: real -> real)

  /** The sum of `w[i] * x[i]` for i < n, accumulated from index 0 upward. */
  function DotUpTo(w: seq<real>, x: seq<real>, n: nat): real
    requires n <= |x| <= |w|
  {
    if n == 0 then 0.0 else DotUpTo(w, x, n - 1) + w[n - 1] * x[n - 1]
  }

  /** The weighted sum of the inputs x under the weights w. */
  function Dot(w: seq<real>, x: seq<real>): real
    requires |x| <= |w|
  {
    DotUpTo(w, x, |x|)
  }

  function Zeros(n: nat): (z: seq<real>)
    ensures |z| == n && forall i :: 0 <= i < n ==> z[i] == 0.0
  {
    seq(n, _ => 0.0)
  }

  /** The weighted sum is linear in the weights: adding d to the weights
      adds the weighted sum under d. */
  lemma {:induction false} DotAdditive(w: seq<real>, d: seq<real>, x: seq<real>, n: nat)
    requires n <= |x| == |w| == |d|
    ensures DotUpTo(seq(|w|, i requires 0 <= i < |w| => w[i] + d[i]), x, n) == DotUpTo(w, x, n) + DotUpTo(d, x, n)
  {
    if n > 0 {
      DotAdditive(w, d, x, n - 1);
    }
  }

  /** The weighted sum under zero weights is zero. */
  lemma {:induction false} DotZeros(x: seq<real>, n: nat)
    requires n <= |x|
    ensures DotUpTo(Zeros(|x|), x, n) == 0.0
  {
    if n > 0 {
      DotZeros(x, n - 1);
    }
  }

  /** The fields of a `Neuron`: the last output and error, the input weights
      and momentums, and the activation. */
  datatype NeuronState = NeuronState(output: real, error: real, weights: seq<real>, momentums: seq<real>, act: Activation)

  /** The weights and momentums have one entry per input. */
  predicate Shaped(s: NeuronState, nIn: nat) {
    |s.weights| == nIn && |s.momentums| == nIn
  }

  /** The parameters of a neuron: what training changes and propagation
      reads. */
  ghost predicate SameParameters(s: NeuronState, t: NeuronState) {
    s.weights == t.weights && s.momentums == t.momentums && s.act == t.act
  }

  /** The output `compute` produces for the inputs. */
  function Fire(s: NeuronState, inputs: seq<real>): real
    requires |inputs| <= |s.weights|
  {
    s.act.compute(Dot(s.weights, inputs))
  }

  /** The neuron after `compute(inputs)`: only the stored output changes. */
  function Computed(s: NeuronState, inputs: seq<real>): (t: NeuronState)
    requires |inputs| <= |s.weights|
    ensures SameParameters(s, t) && t.error == s.error && t.output == Fire(s, inputs)
  {
    s.(output := Fire(s, inputs))
  }

  /** The error term of `adjust`: the slope at the last output times the
      error handed to the neuron. */
  function ErrorTerm(s: NeuronState, err: real): real {
    s.act.derivative(s.output) * err
  }

  /** The neuron after `adjust(err, inputs, ...)`: each new momentum is
      `input * error`, and each weight grows by the new and the old momentum. */
  function Adjusted(s: NeuronState, err: real, inputs: seq<real>): (t: NeuronState)
    requires Shaped(s, |inputs|)
    ensures Shaped(t, |inputs|) && t.output == s.output && t.act == s.act && t.error == ErrorTerm(s, err)
  {
    var e := ErrorTerm(s, err);
    NeuronState(s.output, e,
                seq(|inputs|, i requires 0 <= i < |inputs| => s.weights[i] + inputs[i] * e + s.momentums[i]),
                seq(|inputs|, i requires 0 <= i < |inputs| => inputs[i] * e),
                s.act)
  }

  /** The error buffer after a neuron t adds its share: slot k grows by the
      (updated) weight k times the neuron's error; other slots keep. */
  function Contribute(acc: seq<real>, t: NeuronState): (r: seq<real>)
    requires |t.weights| <= |acc|
    ensures |r| == |acc|
  {
    seq(|acc|, k requires 0 <= k < |acc| => if k < |t.weights| then acc[k] + t.weights[k] * t.error else acc[k])
  }

  /** The shares of two neurons can be added in either order: the error
      buffer does not depend on the order of the neurons. */
  lemma ContributeCommutes(acc: seq<real>, a: NeuronState, b: NeuronState)
    requires |a.weights| <= |acc| && |b.weights| <= |acc|
    ensures Contribute(Contribute(acc, a), b) == Contribute(Contribute(acc, b), a)
  {
  }

  /** With a zero error (say a zero slope) a neuron still moves by its old
      momentum, and a second such step moves it no more: the momentum has
      been spent. */
  lemma ZeroErrorSpendsMomentum(s: NeuronState, err: real, err2: real, inputs: seq<real>)
    requires Shaped(s, |inputs|)
    requires ErrorTerm(s, err) == 0.0
    ensures var t := Adjusted(s, err, inputs);
            && t.momentums == Zeros(|inputs|)
            && (forall i :: 0 <= i < |inputs| ==> t.weights[i] == s.weights[i] + s.momentums[i])
            && (ErrorTerm(t, err2) == 0.0 ==> Adjusted(t, err2, inputs).weights == t.weights)
  {
  }

  /** The weighted sum after `adjust` is the old one plus the two momentum
      steps: the weights move by the new momentum `input * error` and by the
      previous one. */
  lemma AdjustedDot(s: NeuronState, err: real, inputs: seq<real>, x: seq<real>)
    requires Shaped(s, |inputs|) && |x| == |inputs|
    ensures Dot(Adjusted(s, err, inputs).weights, x)
            == Dot(s.weights, x) + Dot(Adjusted(s, err, inputs).momentums, x) + Dot(s.momentums, x)
  {
    var t := Adjusted(s, err, inputs);
    var d := seq(|inputs|, i requires 0 <= i < |inputs| => t.momentums[i] + s.momentums[i]);
    assert t.weights == seq(|inputs|, i requires 0 <= i < |inputs| => s.weights[i] + d[i]);
    DotAdditive(s.weights, d, x, |x|);
    DotAdditive(t.momentums, s.momentums, x, |x|);
  }

  /** Writing the next entry of t into s extends their agreeing prefix by one. */
  lemma PrefixAgrees(s: seq<real>, t: seq<real>, n: nat, v: real)
    requires n < |s| <= |t| && v == t[n]
    requires forall i :: 0 <= i < n ==> s[i] == t[i]
    ensures forall i :: 0 <= i <= n ==> s[n := v][i] == t[i]
  {
  }

  /** `BackPropagation::Neuron`. */
  class Neuron {
    var output: real
    var error: real
    var weights: seq<real>
    var momentums: seq<real>
    const act: Activation

    function State(): NeuronState
      reads this
    {
      NeuronState(output, error, weights, momentums, act)
    }

    /** The constructor: nbrOfInputs weights drawn from [-0.5, 0.5) (given
        here as `initialWeights`), zero momentums, output and error. */
    constructor (nbrOfInputs: nat, func: Activation, initialWeights: seq<real>)
      requires |initialWeights| == nbrOfInputs
      requires forall i :: 0 <= i < nbrOfInputs ==> -0.5 <= initialWeights[i] < 0.5
      ensures State() == NeuronState(0.0, 0.0, initialWeights, Zeros(nbrOfInputs), func)
    {
      output, error, act := 0.0, 0.0, func;
      weights, momentums := [], [];
      new;
      if nbrOfInputs > 0 {
        weights := Zeros(nbrOfInputs);
        momentums := Zeros(nbrOfInputs);
        for i := 0 to nbrOfInputs
          invariant output == 0.0 && error == 0.0
          invariant |weights| == |momentums| == nbrOfInputs
          invariant forall m :: 0 <= m < i ==> weights[m] == initialWeights[m]
          invariant forall m :: 0 <= m < nbrOfInputs ==> momentums[m] == 0.0
        {
          weights := weights[i := initialWeights[i]];
          momentums := momentums[i := 0.0];
        }
        assert weights == initialWeights && momentums == Zeros(nbrOfInputs);
      }
    }

    /** A copy of a neuron in state s (the copy `std::vector` makes). */
    constructor Copy(s: NeuronState)
      ensures State() == s
    {
      output, error, weights, momentums, act := s.output, s.error, s.weights, s.momentums, s.act;
    }

    /** `compute`: the activation of the weighted input sum, also stored as
        the neuron's output. */
    method Compute(inputs: seq<real>) returns (o: real)
      requires |inputs| == |weights|
      modifies this`output
      ensures o == Fire(old(State()), inputs)
      ensures State() == Computed(old(State()), inputs)
    {
      var sum := 0.0;
      for offset := 0 to |inputs|
        invariant sum == DotUpTo(weights, inputs, offset)
      {
        sum := sum + weights[offset] * inputs[offset];
      }
      output := act.compute(sum);
      o := output;
    }

    /** `adjust`: sets the error term, then for each input updates the
        momentum, the weight, and the caller's error buffer with the updated
        weight times the error term. */
    method Adjust(err: real, inputs: seq<real>, adjustedError: array<real>)
      requires |inputs| == |weights| == |momentums| && |inputs| <= adjustedError.Length
      modifies this`error, this`weights, this`momentums, adjustedError
      ensures State() == Adjusted(old(State()), err, inputs)
      ensures adjustedError[..] == Contribute(old(adjustedError[..]), State())
    {
      error := act.derivative(output) * err;
      ghost var t := Adjusted(old(State()), err, inputs);
      ghost var acc := Contribute(old(adjustedError[..]), t);
      for offset := 0 to |inputs|
        invariant error == t.error
        invariant |weights| == |momentums| == |inputs|
        invariant forall i :: 0 <= i < offset ==> momentums[i] == t.momentums[i]
        invariant forall i :: 0 <= i < offset ==> weights[i] == t.weights[i]
        invariant forall i :: 0 <= i < offset ==> adjustedError[i] == acc[i]
        invariant forall i :: offset <= i < |inputs| ==> momentums[i] == old(momentums[i])
        invariant forall i :: offset <= i < |inputs| ==> weights[i] == old(weights[i])
        invariant forall i :: offset <= i < adjustedError.Length ==> adjustedError[i] == old(adjustedError[i])
      {
        var momentum := momentums[offset];
        var newMomentum := inputs[offset] * error;
        var newWeight := weights[offset] + newMomentum + momentum;
        assert newMomentum == t.momentums[offset] && newWeight == t.weights[offset];
        assert adjustedError[offset] + newWeight * error == acc[offset];
        PrefixAgrees(momentums, t.momentums, offset, newMomentum);
        PrefixAgrees(weights, t.weights, offset, newWeight);
        momentums := momentums[offset := newMomentum];
        weights := weights[offset := newWeight];
        adjustedError[offset] := adjustedError[offset] + newWeight * error;
      }
      assert weights == t.weights && momentums == t.momentums && adjustedError[..] == acc;
    }
  }
}
