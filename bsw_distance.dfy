/**
 * Integer helpers of the binary-synaptic-weight (BSW) network: the Hamming
 * distance between 0/1 vectors, the sum and inner product folds the network
 * uses, and the geometry of one separating plane.
 */
module BswDistance {

  /** `get_hamming_distance(x, y)`: the number of positions i < |x| at which
      x and y differ (an inner product with `+` and `!=`, reading y from its
      start, so y must be at least as long as x). */
  function Hamming(x: seq<int>, y: seq<int>): (d: nat)
    requires |x| <= |y|
    ensures d <= |x|
    ensures d == 0 <==> x == y[..|x|]
  {
    if |x| == 0 then 0
    else
      assert x == [x[0]] + x[1..] && y[..|x|] == [y[0]] + y[1..][..|x| - 1];
      (if x[0] != y[0] then 1 else 0) + Hamming(x[1..], y[1..])
  }

  /** Hamming distance between vectors of one length does not depend on the
      order of its arguments. */
  lemma {:induction false} HammingSymmetric(x: seq<int>, y: seq<int>)
    requires |x| == |y|
    ensures Hamming(x, y) == Hamming(y, x)
  {
    if |x| > 0 {
      HammingSymmetric(x[1..], y[1..]);
    }
  }

  /** A vector every entry of which is 0 or 1. */
  predicate Binary(s: seq<int>) {
    forall i :: 0 <= i < |s| ==> s[i] == 0 || s[i] == 1
  }

  /** `std::accumulate(s.begin(), s.end(), 0)`. */
  function Sum(s: seq<int>): int {
    if |s| == 0 then 0 else s[0] + Sum(s[1..])
  }

  /** `std::inner_product(x.begin(), x.end(), w.begin(), 0)`: x drives the
      iteration, so w must be at least as long as x. */
  function InnerProduct(x: seq<int>, w: seq<int>): int
    requires |x| <= |w|
  {
    if |x| == 0 then 0 else x[0] * w[0] + InnerProduct(x[1..], w[1..])
  }

  /** The weights of a plane keyed on `key`: each 0/1 key bit scaled to -1/+1
      (`(key[i] << 1) - 1`). */
  function PlaneWeights(key: seq<int>): (w: seq<int>)
    ensures |w| == |key|
    ensures Binary(key) ==> forall i :: 0 <= i < |w| ==> (w[i] == 1 <==> key[i] == 1) && (w[i] == -1 <==> key[i] == 0)
  {
    seq(|key|, i requires 0 <= i < |key| => 2 * key[i] - 1)
  }

  /** For 0/1 vectors, the inner product of an input with the plane weights of
      a key is the number of ones in the key minus their Hamming distance. */
  lemma {:induction false} InnerProductWithPlaneWeights(x: seq<int>, key: seq<int>)
    requires |x| == |key| && Binary(x) && Binary(key)
    ensures InnerProduct(x, PlaneWeights(key)) == Sum(key) - Hamming(x, key)
  {
    if |x| > 0 {
      assert PlaneWeights(key)[1..] == PlaneWeights(key[1..]);
      InnerProductWithPlaneWeights(x[1..], key[1..]);
    }
  }

  /** The doubled threshold of a plane keyed on `key` with radius `dist`:
      twice `sum(key) - (2*dist + 1)/2`, which is a half-integer, so doubling
      keeps it exact. */
  function TwiceThreshold(key: seq<int>, dist: int): int {
    2 * Sum(key) - 2 * dist - 1
  }

  /** A plane keyed on a 0/1 key with radius `dist` fires on a 0/1 input
      (its inner product with the weights exceeds the threshold) exactly when
      the input lies within Hamming distance `dist` of the key. */
  lemma PlaneFiresWithinRadius(x: seq<int>, key: seq<int>, dist: int)
    requires |x| == |key| && Binary(x) && Binary(key)
    ensures 2 * InnerProduct(x, PlaneWeights(key)) > TwiceThreshold(key, dist) <==> Hamming(x, key) <= dist
  {
    InnerProductWithPlaneWeights(x, key);
  }
}
