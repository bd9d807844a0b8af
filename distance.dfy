/** The weighted Euclidean distance of logic/search_engine.py:
    `sqrt(sum(w * (x - t) ** 2))`. NumPy's `sqrt` is a foreign call, so it is a
    parameter `root`; the lemmas require only that it behaves like a square
    root (`IsSqrt`). */
module Distance {

  function Sq(a: real): real { a * a }

  /** sum over axes of w[i] * (x[i] - t[i]) ** 2. */
  function WeightedSquaredSum(x: seq<real>, t: seq<real>, w: seq<real>): real
    requires |x| == |t| == |w|
  {
    if x == [] then 0.0
    else w[0] * Sq(x[0] - t[0]) + WeightedSquaredSum(x[1..], t[1..], w[1..])
  }

  /** What the model needs of `np.sqrt` on non-negative arguments. */
  ghost predicate IsSqrt(root: real -> real) {
    && root(0.0) == 0.0
    && (forall a :: 0.0 <= a ==> 0.0 <= root(a))
    && (forall a, b :: 0.0 <= a < b ==> root(a) < root(b))
  }

  /** The score of one row against the target. */
  function WeightedDistance(x: seq<real>, t: seq<real>, w: seq<real>, root: real -> real): real
    requires |x| == |t| == |w|
  {
    root(WeightedSquaredSum(x, t, w))
  }

  ghost predicate NonNegative(w: seq<real>) {
    forall i :: 0 <= i < |w| ==> 0.0 <= w[i]
  }

  lemma SqNonNegative(a: real)
    ensures 0.0 <= Sq(a)
  {
  }

  lemma ZeroProduct(a: real, b: real)
    requires a * b == 0.0
    ensures a == 0.0 || b == 0.0
  {
  }

  lemma MulPositive(a: real, b: real)
    requires 0.0 < a && 0.0 < b
    ensures 0.0 < a * b
  {
  }

  lemma SqPositive(a: real)
    requires a != 0.0
    ensures 0.0 < Sq(a)
  {
    SqNonNegative(a);
    if Sq(a) == 0.0 {
      ZeroProduct(a, a);
    }
  }

  /** With non-negative weights the squared sum is non-negative. */
  lemma {:induction false} SumNonNegative(x: seq<real>, t: seq<real>, w: seq<real>)
    requires |x| == |t| == |w|
    requires NonNegative(w)
    ensures 0.0 <= WeightedSquaredSum(x, t, w)
  {
    if x != [] {
      SqNonNegative(x[0] - t[0]);
      assert 0.0 <= w[0] * Sq(x[0] - t[0]);
      SumNonNegative(x[1..], t[1..], w[1..]);
    }
  }

  /** A row equal to the target has squared sum exactly 0, whatever the
      weights. */
  lemma {:induction false} SumZeroAtTarget(x: seq<real>, w: seq<real>)
    requires |x| == |w|
    ensures WeightedSquaredSum(x, x, w) == 0.0
  {
    if x != [] {
      SumZeroAtTarget(x[1..], w[1..]);
    }
  }

  /** Zero-weight neutrality: axes whose weight is 0 may hold anything in the
      row and in the target without changing the sum. */
  lemma {:induction false} ZeroWeightNeutral(x: seq<real>, t: seq<real>, x': seq<real>, t': seq<real>, w: seq<real>)
    requires |x| == |t| == |x'| == |t'| == |w|
    requires forall i :: 0 <= i < |w| && w[i] != 0.0 ==> x[i] == x'[i] && t[i] == t'[i]
    ensures WeightedSquaredSum(x, t, w) == WeightedSquaredSum(x', t', w)
  {
    if x != [] {
      ZeroWeightNeutral(x[1..], t[1..], x'[1..], t'[1..], w[1..]);
    }
  }

  /** The score does not depend on the sign of the differences. */
  lemma {:induction false} SumSymmetric(x: seq<real>, t: seq<real>, w: seq<real>)
    requires |x| == |t| == |w|
    ensures WeightedSquaredSum(x, t, w) == WeightedSquaredSum(t, x, w)
  {
    if x != [] {
      assert Sq(x[0] - t[0]) == Sq(t[0] - x[0]);
      SumSymmetric(x[1..], t[1..], w[1..]);
    }
  }

  /** Under a square root, ranking by distance is ranking by squared sum. */
  lemma RootPreservesOrder(root: real -> real, a: real, b: real)
    requires IsSqrt(root)
    requires 0.0 <= a && 0.0 <= b
    ensures root(a) <= root(b) <==> a <= b
    ensures root(a) == root(b) <==> a == b
  {
    if a < b {
      assert root(a) < root(b);
    } else if b < a {
      assert root(b) < root(a);
    }
  }

  /** Distance is non-negative for non-negative weights and 0 at the target. */
  lemma DistanceBasics(x: seq<real>, t: seq<real>, w: seq<real>, root: real -> real)
    requires |x| == |t| == |w|
    requires IsSqrt(root) && NonNegative(w)
    ensures 0.0 <= WeightedDistance(x, t, w, root)
    ensures WeightedDistance(t, t, w, root) == 0.0
  {
    SumNonNegative(x, t, w);
    SumZeroAtTarget(t, w);
  }
}
