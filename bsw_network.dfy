/**
 * The binary-synaptic-weight network: training builds, for every output, a
 * list of separating planes (nodes), each keyed on one training input and
 * covering the samples within a Hamming radius of that key; testing fires an
 * output when any of its planes fires.
 *
 * The scans over the training data are specified by functions of a count n:
 * the value after the first n samples.
 */
module Bsw {
  import opened BswDistance

  const INT_MIN: int := -0x8000_0000
  const INT_MAX: int := 0x7fff_ffff

  /** `Training_data`: an input vector and the expected output vector. */
  datatype Sample = Sample(inputs: seq<int>, outputs: seq<int>)

  /** `Node`: the +-1 input weights of a plane and its threshold, stored
      doubled so that the half-integer threshold stays an integer. */
  datatype Node = Node(weights: seq<int>, twiceThreshold: int)

  /** The plane `create_new_plane` builds from a key and a radius. */
  function Plane(key: seq<int>, dist: int): Node {
    Node(PlaneWeights(key), TwiceThreshold(key, dist))
  }

  /** The test `sum > Threshold` of one node, with both sides doubled. */
  predicate Fires(n: Node, x: seq<int>)
    requires |x| <= |n.weights|
  {
    2 * InnerProduct(x, n.weights) > n.twiceThreshold
  }

  /** Some node of the list, wide enough for x, fires on x. */
  predicate Recognised(ns: seq<Node>, x: seq<int>) {
    exists i :: 0 <= i < |ns| && |x| <= |ns[i].weights| && Fires(ns[i], x)
  }

  lemma RecognisedAppend(ns: seq<Node>, n: Node, x: seq<int>)
    requires |x| <= |n.weights|
    requires Recognised(ns, x) || Fires(n, x)
    ensures Recognised(ns + [n], x)
  {
    if Fires(n, x) {
      assert (ns + [n])[|ns|] == n;
    } else {
      var i :| 0 <= i < |ns| && |x| <= |ns[i].weights| && Fires(ns[i], x);
      assert (ns + [n])[i] == ns[i];
    }
  }

  /** The copy in `done` of a sample whose output j has been covered. */
  function Mark(s: Sample, j: nat): (m: Sample)
    requires j < |s.outputs|
    ensures m.inputs == s.inputs && |m.outputs| == |s.outputs| && m.outputs[j] == -1
    ensures forall h :: 0 <= h < |s.outputs| && h != j ==> m.outputs[h] == s.outputs[h]
  {
    s.(outputs := s.outputs[j := -1])
  }

  /** Every sample has nIn inputs and nOut outputs. */
  predicate Shaped(data: seq<Sample>, nIn: nat, nOut: nat) {
    forall l :: 0 <= l < |data| ==> |data[l].inputs| == nIn && |data[l].outputs| == nOut
  }

  /** Every sample has nIn inputs and an output j. */
  predicate Fits(data: seq<Sample>, nIn: nat, j: nat) {
    forall l :: 0 <= l < |data| ==> |data[l].inputs| == nIn && j < |data[l].outputs|
  }

  /** `1 << n`. */
  function Pow2(n: nat): (p: nat)
    ensures p >= 1 && p > n
    ensures n >= 2 ==> p > n + 1
  {
    if n == 0 then 1 else 2 * Pow2(n - 1)
  }

  /** The distance from the key to a sample, as `create_new_plane` measures it. */
  function DistTo(key: seq<int>, s: Sample): nat
    requires |key| <= |s.inputs|
  {
    Hamming(key, s.inputs)
  }

  /** Sample s is active for output j: its expected output j is 1. */
  predicate Active(s: Sample, j: nat)
    requires j < |s.outputs|
  {
    s.outputs[j] == 1
  }

  /** `maxActiveDist` after scanning the first n samples: the largest
      distance from key to an active sample, or INT_MIN when there is none. */
  function MaxActive(data: seq<Sample>, j: nat, key: seq<int>, n: nat): (m: int)
    requires Fits(data, |key|, j) && n <= |data|
    ensures m == INT_MIN || 0 <= m <= |key|
  {
    if n == 0 then INT_MIN
    else
      var m := MaxActive(data, j, key, n - 1);
      if Active(data[n - 1], j) && m < DistTo(key, data[n - 1]) then DistTo(key, data[n - 1]) else m
  }

  /** `maxActiveDist` is INT_MIN exactly when no sample is active, and
      otherwise the distance of the farthest active sample. */
  lemma {:induction false} MaxActiveSpec(data: seq<Sample>, j: nat, key: seq<int>, n: nat)
    requires Fits(data, |key|, j) && n <= |data|
    ensures MaxActive(data, j, key, n) == INT_MIN <==> forall l :: 0 <= l < n ==> !Active(data[l], j)
    ensures forall l :: 0 <= l < n && Active(data[l], j) ==> DistTo(key, data[l]) <= MaxActive(data, j, key, n)
    ensures MaxActive(data, j, key, n) != INT_MIN ==>
              exists l :: 0 <= l < n && Active(data[l], j) && DistTo(key, data[l]) == MaxActive(data, j, key, n)
  {
    if n > 0 {
      MaxActiveSpec(data, j, key, n - 1);
    }
  }

  /** `minInactiveDist` after scanning the first n samples: the smallest
      distance from key to an inactive sample, or INT_MAX when there is none. */
  function MinInactive(data: seq<Sample>, j: nat, key: seq<int>, n: nat): (m: int)
    requires Fits(data, |key|, j) && n <= |data| && |key| < INT_MAX
    ensures m == INT_MAX || 0 <= m <= |key|
  {
    if n == 0 then INT_MAX
    else
      var m := MinInactive(data, j, key, n - 1);
      if !Active(data[n - 1], j) && m > DistTo(key, data[n - 1]) then DistTo(key, data[n - 1]) else m
  }

  /** `minInactiveDist` is INT_MAX exactly when every sample is active, and
      otherwise the distance of the nearest inactive sample. */
  lemma {:induction false} MinInactiveSpec(data: seq<Sample>, j: nat, key: seq<int>, n: nat)
    requires Fits(data, |key|, j) && n <= |data| && |key| < INT_MAX
    ensures MinInactive(data, j, key, n) == INT_MAX <==> forall l :: 0 <= l < n ==> Active(data[l], j)
    ensures forall l :: 0 <= l < n && !Active(data[l], j) ==> MinInactive(data, j, key, n) <= DistTo(key, data[l])
    ensures MinInactive(data, j, key, n) != INT_MAX ==>
              exists l :: 0 <= l < n && !Active(data[l], j) && DistTo(key, data[l]) == MinInactive(data, j, key, n)
  {
    if n > 0 {
      MinInactiveSpec(data, j, key, n - 1);
    }
  }

  /** `HamDist[D][1]` (active) or `HamDist[D][0]` (inactive) after scanning
      the first n samples: the number of samples of that kind at distance D
      from the key. */
  function CountAt(data: seq<Sample>, j: nat, key: seq<int>, D: int, active: bool, n: nat): (c: nat)
    requires Fits(data, |key|, j) && n <= |data|
    ensures c <= n
  {
    if n == 0 then 0
    else CountAt(data, j, key, D, active, n - 1) + if DistTo(key, data[n - 1]) == D && Active(data[n - 1], j) == active then 1 else 0
  }

  /** A histogram entry is zero exactly when no sample of that kind lies at
      that distance. */
  lemma {:induction false} CountAtZero(data: seq<Sample>, j: nat, key: seq<int>, D: int, active: bool, n: nat)
    requires Fits(data, |key|, j) && n <= |data|
    ensures CountAt(data, j, key, D, active, n) == 0 <==>
              forall l :: 0 <= l < n ==> !(DistTo(key, data[l]) == D && Active(data[l], j) == active)
  {
    if n > 0 {
      CountAtZero(data, j, key, D, active, n - 1);
    }
  }

  /** The radius search of `create_new_plane` from `Dist = D`: the first
      distance from D on that holds an inactive sample or lies beyond the
      farthest active sample. */
  function FirstStop(data: seq<Sample>, j: nat, key: seq<int>, D: int): (d: int)
    requires Fits(data, |key|, j)
    requires D <= MaxActive(data, j, key, |data|) + 1
    ensures D <= d <= MaxActive(data, j, key, |data|) + 1
    ensures forall E :: D <= E < d ==> CountAt(data, j, key, E, false, |data|) == 0
    ensures CountAt(data, j, key, d, false, |data|) > 0 || d > MaxActive(data, j, key, |data|)
    decreases MaxActive(data, j, key, |data|) + 1 - D
  {
    if CountAt(data, j, key, D, false, |data|) > 0 || D > MaxActive(data, j, key, |data|) then D
    else FirstStop(data, j, key, D + 1)
  }

  /** Any distance reached from D past only empty rows and at a stop is the
      one the search finds. */
  lemma {:induction false} FirstStopUnique(data: seq<Sample>, j: nat, key: seq<int>, D: int, d: int)
    requires Fits(data, |key|, j)
    requires D <= d <= MaxActive(data, j, key, |data|) + 1
    requires forall E :: D <= E < d ==> CountAt(data, j, key, E, false, |data|) == 0
    requires CountAt(data, j, key, d, false, |data|) > 0 || d > MaxActive(data, j, key, |data|)
    ensures FirstStop(data, j, key, D) == d
    decreases d - D
  {
    if D < d {
      FirstStopUnique(data, j, key, D + 1, d);
    }
  }

  /** Every active sample is closer to the key than every inactive one
      (`maxActiveDist < minInactiveDist`). */
  predicate Separated(data: seq<Sample>, j: nat, key: seq<int>)
    requires Fits(data, |key|, j) && |key| < INT_MAX
  {
    MaxActive(data, j, key, |data|) < MinInactive(data, j, key, |data|)
  }

  /** The radius `Dist` of the plane `create_new_plane` builds around key:
      0 when the samples are separated, otherwise one less than the first
      stop of the search from 1. */
  function Radius(data: seq<Sample>, j: nat, key: seq<int>): (r: int)
    requires Fits(data, |key|, j) && |key| < INT_MAX
    ensures 0 <= r <= |key|
  {
    if Separated(data, j, key) then 0
    else FirstStop(data, j, key, 1) - 1
  }

  /** When the samples are not separated, the radius leaves out every
      distance that holds an inactive sample: rows 1 to the radius hold
      none, and the next row holds one or lies past the farthest active
      sample. */
  lemma RadiusSpec(data: seq<Sample>, j: nat, key: seq<int>)
    requires Fits(data, |key|, j) && |key| < INT_MAX
    requires !Separated(data, j, key)
    ensures Radius(data, j, key) <= MaxActive(data, j, key, |data|)
    ensures forall D :: 1 <= D <= Radius(data, j, key) ==> CountAt(data, j, key, D, false, |data|) == 0
    ensures CountAt(data, j, key, Radius(data, j, key) + 1, false, |data|) > 0 ||
            Radius(data, j, key) + 1 > MaxActive(data, j, key, |data|)
  {
  }

  /** No inactive sample lies within the radius, except at distance 0 (an
      inactive sample with the key's own inputs). */
  lemma RadiusExcludesInactive(data: seq<Sample>, j: nat, key: seq<int>, l: nat)
    requires Fits(data, |key|, j) && |key| < INT_MAX && l < |data|
    requires !Active(data[l], j) && DistTo(key, data[l]) <= Radius(data, j, key)
    ensures DistTo(key, data[l]) == 0
  {
    var d := DistTo(key, data[l]);
    if d > 0 {
      CountAtZero(data, j, key, d, false, |data|);
    }
  }

  /** `done` after `create_new_plane(data, j, done, k)`: when the samples are
      separated only the key sample is marked, otherwise every sample within
      the radius. */
  function CoverPlane(data: seq<Sample>, j: nat, k: nat, before: seq<Sample>): (after: seq<Sample>)
    requires k < |data| == |before| && |data[k].inputs| < INT_MAX && Fits(data, |data[k].inputs|, j)
    requires forall l :: 0 <= l < |before| ==> j < |before[l].outputs|
    ensures |after| == |before|
  {
    var key := data[k].inputs;
    if Separated(data, j, key) then before[k := Mark(before[k], j)]
    else
      seq(|before|, l requires 0 <= l < |before| =>
        if DistTo(key, data[l]) <= Radius(data, j, key) then Mark(before[l], j) else before[l])
  }

  /** A new plane marks its key sample and otherwise only samples within its
      radius, and marking changes nothing but column j. */
  lemma CoverPlaneMarks(data: seq<Sample>, j: nat, k: nat, before: seq<Sample>)
    requires k < |data| == |before| && |data[k].inputs| < INT_MAX && Fits(data, |data[k].inputs|, j)
    requires forall l :: 0 <= l < |before| ==> j < |before[l].outputs|
    ensures var after := CoverPlane(data, j, k, before);
            && after[k] == Mark(before[k], j)
            && (forall l :: 0 <= l < |after| ==>
                  || after[l] == before[l]
                  || (DistTo(data[k].inputs, data[l]) <= Radius(data, j, data[k].inputs) && after[l] == Mark(before[l], j)))
            && OnlyColumnChanged(before, after, j)
  {
    var key := data[k].inputs;
    assert key == data[k].inputs[..|key|];
  }

  /** Every sample has 0/1 inputs and 0/1 outputs. */
  predicate BinarySamples(data: seq<Sample>) {
    forall l :: 0 <= l < |data| ==> Binary(data[l].inputs) && Binary(data[l].outputs)
  }

  /** `r` after the first n samples: the sum of the expected outputs j. */
  function SumOutputs(data: seq<Sample>, j: nat, n: nat): int
    requires n <= |data| && forall l :: 0 <= l < |data| ==> j < |data[l].outputs|
  {
    if n == 0 then 0 else SumOutputs(data, j, n - 1) + data[n - 1].outputs[j]
  }

  /** `suma` for input q after the first n samples: the sum of
      `inputs[q] * outputs[j]`. */
  function SumProducts(data: seq<Sample>, q: nat, j: nat, n: nat): int
    requires n <= |data| && forall l :: 0 <= l < |data| ==> q < |data[l].inputs| && j < |data[l].outputs|
  {
    if n == 0 then 0 else SumProducts(data, q, j, n - 1) + data[n - 1].inputs[q] * data[n - 1].outputs[j]
  }

  /** The number of samples among the first n active for output j. */
  function CountActive(data: seq<Sample>, j: nat, n: nat): (c: nat)
    requires n <= |data| && forall l :: 0 <= l < |data| ==> j < |data[l].outputs|
    ensures c <= n
  {
    if n == 0 then 0 else CountActive(data, j, n - 1) + if Active(data[n - 1], j) then 1 else 0
  }

  /** The number of samples among the first n active for output j whose
      input q is 1. */
  function CountActiveWithBit(data: seq<Sample>, j: nat, q: nat, n: nat): (c: nat)
    requires n <= |data| && forall l :: 0 <= l < |data| ==> q < |data[l].inputs| && j < |data[l].outputs|
    ensures c <= CountActive(data, j, n)
  {
    if n == 0 then 0
    else CountActiveWithBit(data, j, q, n - 1) + if Active(data[n - 1], j) && data[n - 1].inputs[q] == 1 then 1 else 0
  }

  /** The average vector `Ave` of `compute_average_and_key` for output j:
      bit q is 1 when `suma > r / 2`, i.e. when `2 * suma > r`. */
  function Average(data: seq<Sample>, j: nat, nIn: nat): (ave: seq<int>)
    requires Fits(data, nIn, j)
    ensures |ave| == nIn && Binary(ave)
  {
    seq(nIn, q requires 0 <= q < nIn => if 2 * SumProducts(data, q, j, |data|) > SumOutputs(data, j, |data|) then 1 else 0)
  }

  /** On 0/1 samples the sums of `compute_average_and_key` are counts. */
  lemma {:induction false} SumsAreCounts(data: seq<Sample>, j: nat, q: nat, n: nat)
    requires n <= |data| && forall l :: 0 <= l < |data| ==> q < |data[l].inputs| && j < |data[l].outputs|
    requires BinarySamples(data)
    ensures SumOutputs(data, j, n) == CountActive(data, j, n)
    ensures SumProducts(data, q, j, n) == CountActiveWithBit(data, j, q, n)
  {
    if n > 0 {
      var s := data[n - 1];
      assert Binary(s.inputs) && Binary(s.outputs);
      SumsAreCounts(data, j, q, n - 1);
    }
  }

  /** On 0/1 samples, bit q of the average is a strict majority vote: it is 1
      exactly when more than half of the samples active for output j have
      input bit q set. */
  lemma AverageIsMajority(data: seq<Sample>, j: nat, nIn: nat, q: nat)
    requires Fits(data, nIn, j) && BinarySamples(data) && q < nIn
    ensures Average(data, j, nIn)[q] == 1 <==> 2 * CountActiveWithBit(data, j, q, |data|) > CountActive(data, j, |data|)
  {
    SumsAreCounts(data, j, q, |data|);
  }

  /** Sample l is a key candidate for output j: `inputs[j] != 0` (the filter
      indexes the inputs with the output index j). */
  predicate Candidate(s: Sample, j: nat)
    requires j < |s.inputs|
  {
    s.inputs[j] != 0
  }

  predicate HasCandidate(data: seq<Sample>, j: nat)
    requires forall l :: 0 <= l < |data| ==> j < |data[l].inputs|
  {
    exists l :: 0 <= l < |data| && Candidate(data[l], j)
  }

  /** k is the earliest candidate among those closest to `ave`. */
  predicate EarliestClosest(data: seq<Sample>, j: nat, ave: seq<int>, k: nat)
    requires forall l :: 0 <= l < |data| ==> |data[l].inputs| == |ave| && j < |ave|
    requires k < |data|
  {
    && Candidate(data[k], j)
    && forall l :: 0 <= l < |data| && Candidate(data[l], j) ==>
         && Hamming(ave, data[k].inputs) <= Hamming(ave, data[l].inputs)
         && (l < k ==> Hamming(ave, data[k].inputs) < Hamming(ave, data[l].inputs))
  }

  /** What `train` needs of its data besides being non-empty: one shape for
      all samples, at least two and at most 30 inputs (`HamDist` has
      `1 << inputs` rows and the radius search reads row `maxActiveDist + 1`),
      no more outputs than inputs (the key filter reads `inputs[j]`), and
      sample indices that fit an `int`. */
  predicate Trainable(data: seq<Sample>) {
    && |data| < INT_MAX
    && (|data| > 0 ==>
          && Shaped(data, |data[0].inputs|, |data[0].outputs|)
          && 2 <= |data[0].inputs| <= 30
          && |data[0].outputs| <= |data[0].inputs|)
  }

  /** Column j of `done` still holds the expected outputs, except for
      entries set to -1, and on 0/1 samples each of those is recognised by
      the planes ns. */
  ghost predicate ColumnCovered(data: seq<Sample>, j: nat, done: seq<Sample>, ns: seq<Node>) {
    forall l :: 0 <= l < |data| && l < |done| && j < |done[l].outputs| && j < |data[l].outputs| ==>
      || done[l].outputs[j] == data[l].outputs[j]
      || (done[l].outputs[j] == -1 && (BinarySamples(data) ==> Recognised(ns, data[l].inputs)))
  }

  /** `after` differs from `before` at most in column j of the outputs. */
  ghost predicate OnlyColumnChanged(before: seq<Sample>, after: seq<Sample>, j: nat) {
    && |after| == |before|
    && forall l :: 0 <= l < |after| ==>
         && after[l].inputs == before[l].inputs
         && |after[l].outputs| == |before[l].outputs|
         && forall h :: 0 <= h < |after[l].outputs| && h != j ==> after[l].outputs[h] == before[l].outputs[h]
  }

  lemma OnlyColumnChangedTransitive(a: seq<Sample>, b: seq<Sample>, c: seq<Sample>, j: nat)
    requires OnlyColumnChanged(a, b, j) && OnlyColumnChanged(b, c, j)
    ensures OnlyColumnChanged(a, c, j)
  {
  }

  /** What `train` achieves for output h with the planes ns: a key candidate
      exists, there is one plane for the key and at most one more per active
      sample, and on 0/1 samples every active sample is recognised. */
  ghost predicate OutputTrained(data: seq<Sample>, h: nat, ns: seq<Node>)
    requires forall l :: 0 <= l < |data| ==> h < |data[l].inputs| && h < |data[l].outputs|
  {
    && HasCandidate(data, h)
    && 1 <= |ns| <= 1 + CountActive(data, h, |data|)
    && (BinarySamples(data) ==> forall l :: 0 <= l < |data| && Active(data[l], h) ==> Recognised(ns, data[l].inputs))
  }

  /** Columns j and beyond of `done` still hold the expected outputs. */
  ghost predicate Untouched(data: seq<Sample>, done: seq<Sample>, j: nat) {
    forall l, h :: 0 <= l < |data| && l < |done| && j <= h < |done[l].outputs| && h < |data[l].outputs| ==>
      done[l].outputs[h] == data[l].outputs[h]
  }

  /** Training output j leaves the later columns untouched. */
  lemma UntouchedStep(data: seq<Sample>, before: seq<Sample>, after: seq<Sample>, j: nat)
    requires Untouched(data, before, j) && OnlyColumnChanged(before, after, j)
    ensures Untouched(data, after, j + 1)
  {
  }

  /** No sample before q still holds 1 in column j. */
  ghost predicate Cleared(done: seq<Sample>, j: nat, q: nat) {
    forall l :: 0 <= l < q && l < |done| && j < |done[l].outputs| ==> done[l].outputs[j] != 1
  }

  /** The samples a new plane marks are recognised by it. */
  lemma CoverageAfterPlane(data: seq<Sample>, j: nat, k: nat, before: seq<Sample>, ns: seq<Node>)
    requires k < |data| == |before| && |data[k].inputs| < INT_MAX && Fits(data, |data[k].inputs|, j)
    requires forall l :: 0 <= l < |before| ==> j < |before[l].outputs|
    requires ColumnCovered(data, j, before, ns)
    ensures ColumnCovered(data, j, CoverPlane(data, j, k, before), ns + [Plane(data[k].inputs, Radius(data, j, data[k].inputs))])
  {
    var after := CoverPlane(data, j, k, before);
    var key := data[k].inputs;
    var radius := Radius(data, j, key);
    var n := Plane(key, radius);
    CoverPlaneMarks(data, j, k, before);
    forall l | 0 <= l < |data|
      ensures || after[l].outputs[j] == data[l].outputs[j]
              || (after[l].outputs[j] == -1 && (BinarySamples(data) ==> Recognised(ns + [n], data[l].inputs)))
    {
      if BinarySamples(data) && after[l].outputs[j] != data[l].outputs[j] {
        if after[l] != before[l] {
          HammingSymmetric(key, data[l].inputs);
          PlaneFiresWithinRadius(data[l].inputs, key, radius);
        }
        RecognisedAppend(ns, n, data[l].inputs);
      }
    }
  }

  /** `done` is a copy of data whose samples all have nOut outputs and that
      may differ from data only in the outputs. */
  ghost predicate Aligned(data: seq<Sample>, done: seq<Sample>, nOut: nat) {
    && |done| == |data|
    && forall l :: 0 <= l < |data| ==> done[l].inputs == data[l].inputs && |done[l].outputs| == nOut
  }

  /** What the loop of `train` over `done` keeps for output j, from the
      copy `start` it began with: only column j has changed, the samples
      before q no longer hold 1 there, and every marked sample is
      recognised by the planes ns. */
  ghost predicate CoverState(data: seq<Sample>, j: nat, nOut: nat, start: seq<Sample>, done: seq<Sample>, q: nat,
                             ns: seq<Node>) {
    && Aligned(data, done, nOut)
    && OnlyColumnChanged(start, done, j)
    && Cleared(done, j, q)
    && ColumnCovered(data, j, done, ns)
  }

  /** The first plane of output j, keyed on any sample, starts the loop. */
  lemma CoverStateStart(data: seq<Sample>, j: nat, nIn: nat, nOut: nat, start: seq<Sample>, k: nat)
    requires Shaped(data, nIn, nOut) && j < nOut && k < |data| && nIn < INT_MAX
    requires Aligned(data, start, nOut)
    requires forall l :: 0 <= l < |data| ==> start[l].outputs[j] == data[l].outputs[j]
    ensures CoverState(data, j, nOut, start, CoverPlane(data, j, k, start), 0,
                       [Plane(data[k].inputs, Radius(data, j, data[k].inputs))])
  {
    CoverageAfterPlane(data, j, k, start, []);
    CoverPlaneMarks(data, j, k, start);
  }

  /** A plane keyed on sample q, which still holds 1 in column j, moves the
      loop past q; sample q is then active for output j. */
  lemma CoverStateStep(data: seq<Sample>, j: nat, nIn: nat, nOut: nat, start: seq<Sample>, before: seq<Sample>,
                       q: nat, ns: seq<Node>)
    requires Shaped(data, nIn, nOut) && j < nOut && q < |data| && nIn < INT_MAX
    requires CoverState(data, j, nOut, start, before, q, ns) && before[q].outputs[j] == 1
    ensures Active(data[q], j)
    ensures CoverState(data, j, nOut, start, CoverPlane(data, j, q, before), q + 1,
                       ns + [Plane(data[q].inputs, Radius(data, j, data[q].inputs))])
  {
    var after := CoverPlane(data, j, q, before);
    CoverageAfterPlane(data, j, q, before, ns);
    CoverPlaneMarks(data, j, q, before);
    OnlyColumnChangedTransitive(start, before, after, j);
  }

  /** A sample that no longer holds 1 in column j is passed over. */
  lemma CoverStateSkip(data: seq<Sample>, j: nat, nOut: nat, start: seq<Sample>, done: seq<Sample>, q: nat,
                       ns: seq<Node>)
    requires j < nOut && q < |data|
    requires CoverState(data, j, nOut, start, done, q, ns) && done[q].outputs[j] != 1
    ensures CoverState(data, j, nOut, start, done, q + 1, ns)
  {
  }

  /** At the end of the loop every sample active for output j is recognised
      by the planes of output j (on 0/1 samples). */
  lemma CoverStateRecall(data: seq<Sample>, j: nat, nOut: nat, start: seq<Sample>, done: seq<Sample>, ns: seq<Node>)
    requires j < nOut && CoverState(data, j, nOut, start, done, |data|, ns)
    requires forall l :: 0 <= l < |data| ==> j < |data[l].outputs|
    ensures BinarySamples(data) ==> forall l :: 0 <= l < |data| && Active(data[l], j) ==> Recognised(ns, data[l].inputs)
  {
  }

  /** The first loop of `create_new_plane`: the histogram `HamDist` of the
      distances from key to the inactive (column 0) and active (column 1)
      samples of output j, with the largest active and the smallest inactive
      distance. `HamDist` has `1 << |key|` rows. */
  method DistanceHistogram(data: seq<Sample>, j: nat, key: seq<int>)
      returns (hamDist: array2<int>, maxActiveDist: int, minInactiveDist: int)
    requires Fits(data, |key|, j) && |key| <= 30
    ensures fresh(hamDist) && hamDist.Length0 == Pow2(|key|) && hamDist.Length1 == 2
    ensures maxActiveDist == MaxActive(data, j, key, |data|) && minInactiveDist == MinInactive(data, j, key, |data|)
    ensures forall D :: 0 <= D < hamDist.Length0 ==>
              hamDist[D, 0] == CountAt(data, j, key, D, false, |data|) &&
              hamDist[D, 1] == CountAt(data, j, key, D, true, |data|)
  {
    hamDist := new int[Pow2(|key|), 2]((_, _) => 0);
    maxActiveDist := INT_MIN;
    minInactiveDist := INT_MAX;
    for l := 0 to |data|
      modifies hamDist
      invariant maxActiveDist == MaxActive(data, j, key, l)
      invariant minInactiveDist == MinInactive(data, j, key, l)
      invariant forall D :: 0 <= D < hamDist.Length0 ==>
                  hamDist[D, 0] == CountAt(data, j, key, D, false, l) &&
                  hamDist[D, 1] == CountAt(data, j, key, D, true, l)
    {
      var hammingDistance := Hamming(key, data[l].inputs);
      if data[l].outputs[j] == 1 {
        hamDist[hammingDistance, 1] := hamDist[hammingDistance, 1] + 1;
        if maxActiveDist < hammingDistance {
          maxActiveDist := hammingDistance;
        }
      } else {
        hamDist[hammingDistance, 0] := hamDist[hammingDistance, 0] + 1;
        if minInactiveDist > hammingDistance {
          minInactiveDist := hammingDistance;
        }
      }
    }
  }

  /** The radius search of `create_new_plane`: from `Dist = 1`, the first
      distance that holds an inactive sample or lies beyond the farthest
      active sample. */
  method SearchRadius(hamDist: array2<int>, maxActiveDist: int) returns (dist: int)
    requires hamDist.Length1 == 2 && 0 <= maxActiveDist && maxActiveDist + 1 < hamDist.Length0
    ensures 1 <= dist <= maxActiveDist + 1
    ensures forall D :: 1 <= D < dist ==> hamDist[D, 0] <= 0
    ensures hamDist[dist, 0] > 0 || dist > maxActiveDist
  {
    dist := 1;
    while !(hamDist[dist, 0] > 0 || dist > maxActiveDist)
      invariant 1 <= dist <= maxActiveDist + 1
      invariant forall D :: 1 <= D < dist ==> hamDist[D, 0] <= 0
      decreases maxActiveDist + 1 - dist
    {
      dist := dist + 1;
    }
  }

  /** The marking loop of `create_new_plane`: every sample closer to key
      than dist gets -1 in column j of `done`. */
  method MarkCloserThan(data: seq<Sample>, j: nat, done: array<Sample>, key: seq<int>, dist: int)
    requires |data| == done.Length
    requires forall l :: 0 <= l < |data| ==> |data[l].inputs| == |key| && j < |done[l].outputs|
    modifies done
    ensures forall m :: 0 <= m < |data| ==>
              done[m] == if DistTo(key, data[m]) < dist then Mark(old(done[m]), j) else old(done[m])
  {
    for l := 0 to |data|
      invariant forall m :: 0 <= m < |data| ==>
                  done[m] == if m < l && DistTo(key, data[m]) < dist then Mark(old(done[m]), j) else old(done[m])
    {
      var hammingDistance := Hamming(key, data[l].inputs);
      if hammingDistance < dist {
        done[l] := Mark(done[l], j);
      }
    }
  }

  /** The radius choice and marking of `create_new_plane` around the key
      `data[k].inputs`: the histogram, then either the key sample alone is
      marked (separated samples, radius 0) or the radius is searched and
      every sample within it is marked. Returns the radius. */
  method CoverAround(data: seq<Sample>, j: nat, done: array<Sample>, k: nat) returns (dist: int)
    requires k < |data| == done.Length && 2 <= |data[k].inputs| <= 30 && Fits(data, |data[k].inputs|, j)
    requires forall l :: 0 <= l < done.Length ==> j < |done[l].outputs|
    modifies done
    ensures dist == Radius(data, j, data[k].inputs)
    ensures done[..] == CoverPlane(data, j, k, old(done[..]))
  {
    var key := data[k].inputs;
    var hamDist, maxActiveDist, minInactiveDist := DistanceHistogram(data, j, key);

    dist := 0;
    if maxActiveDist < minInactiveDist {
      done[k] := Mark(done[k], j);
    } else {
      dist := SearchRadius(hamDist, maxActiveDist);
      FirstStopUnique(data, j, key, 1, dist);
      ghost var before := done[..];
      MarkCloserThan(data, j, done, key, dist);
      dist := dist - 1;
      assert done[..] == CoverPlane(data, j, k, before) by {
        assert forall m :: 0 <= m < |data| ==> done[..][m] == CoverPlane(data, j, k, before)[m];
      }
    }
  }

  /** The plane construction of `create_new_plane`: the threshold
      `sum(key) - (2*dist + 1)/2` (kept doubled) and the key bits scaled to
      +-1 one by one. */
  method BuildPlane(key: seq<int>, dist: int) returns (n: Node)
    ensures n == Plane(key, dist)
  {
    var suma := Sum(key);
    var weights := seq(|key|, _ => 0);
    for i := 0 to |key|
      invariant |weights| == |key|
      invariant forall m :: 0 <= m < i ==> weights[m] == PlaneWeights(key)[m]
    {
      weights := weights[i := 2 * key[i] - 1];
    }
    n := Node(weights, 2 * suma - (dist + dist + 1));
  }

  /** The "calculate average" block of `compute_average_and_key`: `r`, the
      sum of the outputs j, then bit q of `Ave` is 1 when the sum `suma` of
      `inputs[q] * outputs[j]` exceeds `r / 2` (compared as doubles). */
  method ComputeAverage(data: seq<Sample>, j: nat, nIn: nat) returns (ave: seq<int>)
    requires |data| > 0 && Fits(data, nIn, j)
    ensures ave == Average(data, j, nIn)
  {
    ave := seq(|data[0].inputs|, _ => 0);
    var r := 0;
    for l := 0 to |data|
      invariant r == SumOutputs(data, j, l)
    {
      r := r + data[l].outputs[j];
    }
    var half := r as real / 2.0;
    for q := 0 to nIn
      invariant |ave| == nIn
      invariant forall p :: 0 <= p < q ==> ave[p] == Average(data, j, nIn)[p]
    {
      var suma := SumColumnProducts(data, q, j);
      ave := ave[q := if suma as real > half then 1 else 0];
    }
  }

  /** The inner loop of the average: `suma` for input q. */
  method SumColumnProducts(data: seq<Sample>, q: nat, j: nat) returns (suma: int)
    requires forall l :: 0 <= l < |data| ==> q < |data[l].inputs| && j < |data[l].outputs|
    ensures suma == SumProducts(data, q, j, |data|)
  {
    suma := 0;
    for l := 0 to |data|
      invariant suma == SumProducts(data, q, j, l)
    {
      suma := suma + data[l].inputs[q] * data[l].outputs[j];
    }
  }

  /** Step 1.2 of `compute_average_and_key`: the first candidate at the
      smallest distance from ave (`min > hammingDistance` keeps the earliest
      of equally close candidates), or INT_MAX when there is none. */
  method ClosestCandidate(data: seq<Sample>, j: nat, ave: seq<int>) returns (keyOffset: int)
    requires |data| < INT_MAX && |ave| < INT_MAX
    requires forall l :: 0 <= l < |data| ==> |data[l].inputs| == |ave| && j < |ave|
    ensures keyOffset == INT_MAX <==> !HasCandidate(data, j)
    ensures keyOffset != INT_MAX ==> 0 <= keyOffset < |data| && EarliestClosest(data, j, ave, keyOffset)
  {
    keyOffset := INT_MAX;
    var min := INT_MAX;
    for l := 0 to |data|
      invariant keyOffset == INT_MAX <==> forall m :: 0 <= m < l ==> !Candidate(data[m], j)
      invariant keyOffset == INT_MAX ==> min == INT_MAX
      invariant keyOffset != INT_MAX ==>
                  0 <= keyOffset < l && Candidate(data[keyOffset], j) && min == Hamming(ave, data[keyOffset].inputs)
      invariant forall m :: 0 <= m < l && Candidate(data[m], j) ==> min <= Hamming(ave, data[m].inputs)
      invariant forall m :: 0 <= m < l && m < keyOffset && Candidate(data[m], j) ==> min < Hamming(ave, data[m].inputs)
    {
      if data[l].inputs[j] != 0 {
        var hammingDistance := Hamming(ave, data[l].inputs);
        if min > hammingDistance {
          min := hammingDistance;
          keyOffset := l;
        }
      }
    }
  }

  /** `Bsw::Network`: the planes of every output and the vector widths. */
  class Network {
    var inputsCount: nat
    var outputsCount: nat
    var nodes: seq<seq<Node>>

    ghost predicate Valid()
      reads this
    {
      && |nodes| == outputsCount
      && forall h, i :: 0 <= h < |nodes| && 0 <= i < |nodes[h]| ==> |nodes[h][i].weights| == inputsCount
    }

    /** The constructor trains the network on data; the source throws when
        data is empty or some output has no key candidate, so both are
        excluded here (`Train` models those failures). */
    constructor (data: seq<Sample>)
      requires Trainable(data) && |data| > 0
      requires forall j :: 0 <= j < |data[0].outputs| ==> HasCandidate(data, j)
      ensures Valid() && inputsCount == |data[0].inputs| && outputsCount == |data[0].outputs|
      ensures forall j :: 0 <= j < outputsCount ==> 1 <= |nodes[j]| <= 1 + CountActive(data, j, |data|)
      ensures BinarySamples(data) ==>
                forall j, l :: 0 <= j < outputsCount && 0 <= l < |data| && Active(data[l], j) ==>
                  Recognised(nodes[j], data[l].inputs)
    {
      inputsCount, outputsCount, nodes := 0, 0, [];
      new;
      var ok := Train(data);
    }

    /** `create_new_plane`: builds the distance histogram of the samples
        around the key `data[k].inputs`, chooses the plane radius, marks the
        covered samples in `done` with -1 in column j and appends the plane to
        `nodes[j]`. */
    method CreateNewPlane(data: seq<Sample>, j: nat, done: array<Sample>, k: nat)
      requires Shaped(data, inputsCount, outputsCount) && 2 <= inputsCount <= 30
      requires j < outputsCount == |nodes| && k < |data| == done.Length
      requires Aligned(data, done[..], outputsCount)
      modifies this`nodes, done
      ensures nodes == old(nodes)[j := old(nodes)[j] + [Plane(data[k].inputs, Radius(data, j, data[k].inputs))]]
      ensures done[..] == CoverPlane(data, j, k, old(done[..]))
    {
      var key := data[k].inputs;
      var dist := CoverAround(data, j, done, k);
      var node := BuildPlane(key, dist);
      nodes := nodes[j := nodes[j] + [node]];
    }

    /** `compute_average_and_key`: computes the average vector of output j
        and returns the earliest candidate sample closest to it, or INT_MAX
        when no sample is a candidate. */
    method ComputeAverageAndKey(data: seq<Sample>, j: nat) returns (keyOffset: int)
      requires 0 < |data| < INT_MAX && Shaped(data, inputsCount, outputsCount)
      requires j < outputsCount && j < inputsCount < INT_MAX
      ensures keyOffset == INT_MAX <==> !HasCandidate(data, j)
      ensures keyOffset != INT_MAX ==>
                0 <= keyOffset < |data| && EarliestClosest(data, j, Average(data, j, inputsCount), keyOffset)
    {
      var ave := ComputeAverage(data, j, inputsCount);
      keyOffset := ClosestCandidate(data, j, ave);
    }

    /** `train`: for every output j, a plane keyed on the chosen key, then a
        plane keyed on every sample still holding 1 in column j of `done`.
        Returns false where the source throws: on empty data (`data.at(0)`)
        and when an output has no key candidate (`at(INT_MAX)`). */
    method Train(data: seq<Sample>) returns (ok: bool)
      requires Trainable(data)
      modifies this
      ensures ok <==> |data| > 0 && forall j :: 0 <= j < |data[0].outputs| ==> HasCandidate(data, j)
      ensures ok ==> Valid() && inputsCount == |data[0].inputs| && outputsCount == |data[0].outputs|
      ensures ok ==> forall j :: 0 <= j < outputsCount ==> 1 <= |nodes[j]| <= 1 + CountActive(data, j, |data|)
      ensures ok && BinarySamples(data) ==>
                forall j, l :: 0 <= j < outputsCount && 0 <= l < |data| && Active(data[l], j) ==>
                  Recognised(nodes[j], data[l].inputs)
    {
      if |data| == 0 {
        return false;
      }
      inputsCount := |data[0].inputs|;
      outputsCount := |data[0].outputs|;
      nodes := seq(outputsCount, _ => []);
      var done := new Sample[|data|](l requires 0 <= l < |data| => data[l]);
      ok := TrainOutputs(data, done);
    }

    /** The loop of `train` over the outputs, on a fresh copy `done` of the
        data; stops with false at the first output without a key candidate. */
    method TrainOutputs(data: seq<Sample>, done: array<Sample>) returns (ok: bool)
      requires Trainable(data) && |data| > 0 && done.Length == |data|
      requires inputsCount == |data[0].inputs| && outputsCount == |data[0].outputs|
      requires nodes == seq(outputsCount, _ => [])
      requires forall l :: 0 <= l < |data| ==> done[l] == data[l]
      modifies this`nodes, done
      ensures ok <==> forall j :: 0 <= j < outputsCount ==> HasCandidate(data, j)
      ensures ok ==> Valid() && forall j :: 0 <= j < outputsCount ==> OutputTrained(data, j, nodes[j])
    {
      for j := 0 to outputsCount
        invariant Valid()
        invariant forall h :: j <= h < outputsCount ==> nodes[h] == []
        invariant forall h :: 0 <= h < j ==> OutputTrained(data, h, nodes[h])
        invariant Aligned(data, done[..], outputsCount)
        invariant Untouched(data, done[..], j)
      {
        ghost var before := done[..];
        var trained := TrainOutput(data, j, done);
        if !trained {
          return false;
        }
        UntouchedStep(data, before, done[..], j);
      }
      forall h | 0 <= h < outputsCount
        ensures HasCandidate(data, h)
      {
        assert OutputTrained(data, h, nodes[h]);
      }
      ok := true;
    }

    /** One pass of the loop of `train`, for output j: the plane keyed on the
        key of `compute_average_and_key`, then, in order, a plane keyed on
        each sample whose column j of `done` still holds 1. Returns false
        where the source throws (no key candidate). */
    method TrainOutput(data: seq<Sample>, j: nat, done: array<Sample>) returns (ok: bool)
      requires 0 < |data| < INT_MAX && |data| == done.Length
      requires Shaped(data, inputsCount, outputsCount) && 2 <= inputsCount <= 30
      requires j < outputsCount <= inputsCount && |nodes| == outputsCount && nodes[j] == []
      requires Aligned(data, done[..], outputsCount)
      requires forall l :: 0 <= l < |data| ==> done[l].outputs[j] == data[l].outputs[j]
      modifies this`nodes, done
      ensures ok <==> HasCandidate(data, j)
      ensures |nodes| == |old(nodes)| && nodes == old(nodes)[j := nodes[j]]
      ensures forall i :: 0 <= i < |nodes[j]| ==> |nodes[j][i].weights| == inputsCount
      ensures ok ==> OutputTrained(data, j, nodes[j])
      ensures Aligned(data, done[..], outputsCount) && OnlyColumnChanged(old(done[..]), done[..], j)
    {
      var offsetKey := ComputeAverageAndKey(data, j);
      if offsetKey == INT_MAX {
        return false;
      }
      ghost var start := done[..];
      StartCover(data, j, done, offsetKey);

      CoverRemaining(data, j, done, start);
      CoverStateRecall(data, j, outputsCount, start, done[..], nodes[j]);
      ok := true;
    }

    /** The loop of `train` over `done` for output j, after the first plane:
        a plane keyed on each sample whose column j still holds 1. */
    method CoverRemaining(data: seq<Sample>, j: nat, done: array<Sample>, ghost start: seq<Sample>)
      requires Shaped(data, inputsCount, outputsCount) && 2 <= inputsCount <= 30
      requires j < outputsCount == |nodes| && |data| == done.Length
      requires |nodes[j]| == 1 && |nodes[j][0].weights| == inputsCount
      requires CoverState(data, j, outputsCount, start, done[..], 0, nodes[j])
      modifies this`nodes, done
      ensures |nodes| == |old(nodes)| && nodes == old(nodes)[j := nodes[j]]
      ensures forall i :: 0 <= i < |nodes[j]| ==> |nodes[j][i].weights| == inputsCount
      ensures 1 <= |nodes[j]| <= 1 + CountActive(data, j, |data|)
      ensures CoverState(data, j, outputsCount, start, done[..], |data|, nodes[j])
    {
      for q := 0 to done.Length
        invariant |nodes| == |old(nodes)| && nodes == old(nodes)[j := nodes[j]]
        invariant forall i :: 0 <= i < |nodes[j]| ==> |nodes[j][i].weights| == inputsCount
        invariant 1 <= |nodes[j]| <= 1 + CountActive(data, j, q)
        invariant CoverState(data, j, outputsCount, start, done[..], q, nodes[j])
      {
        CoverSample(data, j, done, q, start);
      }
    }

    /** The first plane of output j in `train`, keyed on sample k: it starts
        the coverage of column j. */
    method StartCover(data: seq<Sample>, j: nat, done: array<Sample>, k: nat)
      requires Shaped(data, inputsCount, outputsCount) && 2 <= inputsCount <= 30
      requires j < outputsCount == |nodes| && k < |data| == done.Length && nodes[j] == []
      requires Aligned(data, done[..], outputsCount)
      requires forall l :: 0 <= l < |data| ==> done[l].outputs[j] == data[l].outputs[j]
      modifies this`nodes, done
      ensures nodes == old(nodes)[j := [Plane(data[k].inputs, Radius(data, j, data[k].inputs))]]
      ensures CoverState(data, j, outputsCount, old(done[..]), done[..], 0, nodes[j])
    {
      ghost var start := done[..];
      CreateNewPlane(data, j, done, k);
      CoverStateStart(data, j, inputsCount, outputsCount, start, k);
      assert old(nodes)[j] + [Plane(data[k].inputs, Radius(data, j, data[k].inputs))]
          == [Plane(data[k].inputs, Radius(data, j, data[k].inputs))];
    }

    /** One step of the loop of `train` over `done`: a plane keyed on sample
        q when its column j still holds 1, which is then an active sample;
        nothing otherwise. */
    method CoverSample(data: seq<Sample>, j: nat, done: array<Sample>, q: nat, ghost start: seq<Sample>)
      requires Shaped(data, inputsCount, outputsCount) && 2 <= inputsCount <= 30
      requires j < outputsCount == |nodes| && q < |data| == done.Length
      requires CoverState(data, j, outputsCount, start, done[..], q, nodes[j])
      modifies this`nodes, done
      ensures |nodes| == |old(nodes)| && nodes == old(nodes)[j := nodes[j]]
      ensures || nodes[j] == old(nodes[j])
              || (Active(data[q], j) && nodes[j] == old(nodes[j]) + [Plane(data[q].inputs, Radius(data, j, data[q].inputs))])
      ensures CoverState(data, j, outputsCount, start, done[..], q + 1, nodes[j])
    {
      if done[q].outputs[j] == 1 {
        ghost var before, ns := done[..], nodes[j];
        CreateNewPlane(data, j, done, q);
        CoverStateStep(data, j, inputsCount, outputsCount, start, before, q, ns);
      } else {
        CoverStateSkip(data, j, outputsCount, start, done[..], q, nodes[j]);
      }
    }

    /** `test`: output h is 1 when some plane of `nodes[h]` fires on the
        input (the loop over the planes stops at the first that fires). */
    method Test(inputs: seq<int>) returns (r: seq<int>)
      requires Valid() && |inputs| <= inputsCount
      ensures |r| == outputsCount
      ensures forall h :: 0 <= h < outputsCount ==>
                (r[h] == 1 <==> Recognised(nodes[h], inputs)) && (r[h] == 0 <==> !Recognised(nodes[h], inputs))
    {
      r := seq(outputsCount, _ => 0);
      for h := 0 to outputsCount
        invariant |r| == outputsCount
        invariant forall g :: 0 <= g < h ==> (r[g] == 1 <==> Recognised(nodes[g], inputs)) && (r[g] == 0 <==> !Recognised(nodes[g], inputs))
        invariant forall g :: h <= g < outputsCount ==> r[g] == 0
      {
        var i := 0;
        while i < |nodes[h]|
          invariant 0 <= i <= |nodes[h]|
          invariant forall m :: 0 <= m < i ==> !Fires(nodes[h][m], inputs)
          invariant r[h] == 0
        {
          var nod := nodes[h][i];
          var sum := InnerProduct(inputs, nod.weights);
          if 2 * sum > nod.twiceThreshold {
            r := r[h := 1];
            break;
          }
          i := i + 1;
        }
      }
    }
  }
}
