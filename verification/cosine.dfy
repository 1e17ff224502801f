/** `cosine_similarity(vec1, vec2)`: the dot product over the product of the two
    Euclidean norms. The three scripts carry textually identical copies.
    Vectors are sequences of mathematical reals; the square root is a parameter
    `sqrt` about which nothing is known unless a lemma asks for it. */
module Cosine {
  import opened Basics

  /** The sum of the pairwise products of two vectors. */
  function Dot(a: seq<real>, b: seq<real>): real
    requires |a| == |b|
  {
    if a == [] then 0.0 else a[0] * b[0] + Dot(a[1..], b[1..])
  }

  /** The sum of the squares of a vector's components, its squared norm. */
  function SumSquares(a: seq<real>): real {
    if a == [] then 0.0 else a[0] * a[0] + SumSquares(a[1..])
  }

  ghost predicate IsZeroVector(a: seq<real>) {
    forall i :: 0 <= i < |a| ==> a[i] == 0.0
  }

  /** The similarity of two vectors of equal length. */
  function CosineValue(a: seq<real>, b: seq<real>, sqrt: real -> real): real
    requires |a| == |b|
  {
    var norm1 := sqrt(SumSquares(a));
    var norm2 := sqrt(SumSquares(b));
    if norm1 == 0.0 || norm2 == 0.0 then 0.0 else Dot(a, b) / (norm1 * norm2)
  }

  /** `cosine_similarity`: a length mismatch raises, naming both lengths. */
  function Similarity(a: seq<real>, b: seq<real>, sqrt: real -> real): Result<real> {
    if |a| != |b| then Err(LengthMismatch(|a|, |b|)) else Ok(CosineValue(a, b, sqrt))
  }

  /** The call fails exactly when the lengths differ. */
  lemma MismatchFails(a: seq<real>, b: seq<real>, sqrt: real -> real)
    ensures Similarity(a, b, sqrt).Err? <==> |a| != |b|
    ensures |a| != |b| ==> Similarity(a, b, sqrt) == Err(LengthMismatch(|a|, |b|))
  {
  }

  lemma {:induction false} DotSymmetric(a: seq<real>, b: seq<real>)
    requires |a| == |b|
    ensures Dot(a, b) == Dot(b, a)
  {
    if a != [] {
      DotSymmetric(a[1..], b[1..]);
    }
  }

  /** Swapping the arguments changes nothing but the order of the lengths in the error. */
  lemma Symmetric(a: seq<real>, b: seq<real>, sqrt: real -> real)
    ensures Similarity(a, b, sqrt).Err? == Similarity(b, a, sqrt).Err?
    ensures |a| == |b| ==> Similarity(a, b, sqrt) == Similarity(b, a, sqrt)
  {
    if |a| == |b| {
      DotSymmetric(a, b);
      var n1, n2 := sqrt(SumSquares(a)), sqrt(SumSquares(b));
      assert n1 * n2 == n2 * n1;
    }
  }

  /** The all-zero vector has squared norm zero. */
  lemma {:induction false} ZeroVectorSumSquares(a: seq<real>)
    requires IsZeroVector(a)
    ensures SumSquares(a) == 0.0
  {
    if a != [] {
      assert IsZeroVector(a[1..]);
      ZeroVectorSumSquares(a[1..]);
    }
  }

  /** A zero vector on either side gives 0.0 and not an error, once the square
      root of zero is zero. */
  lemma ZeroVectorGivesZero(a: seq<real>, b: seq<real>, sqrt: real -> real)
    requires |a| == |b|
    requires sqrt(0.0) == 0.0
    requires IsZeroVector(a) || IsZeroVector(b)
    ensures Similarity(a, b, sqrt) == Ok(0.0)
  {
    if IsZeroVector(a) { ZeroVectorSumSquares(a); }
    if IsZeroVector(b) { ZeroVectorSumSquares(b); }
  }

  lemma {:induction false} DotSelf(a: seq<real>)
    ensures Dot(a, a) == SumSquares(a)
  {
    if a != [] {
      DotSelf(a[1..]);
    }
  }

  /** A vector of non-zero norm is at similarity 1 with itself, for any square
      root that squares back to the squared norm. */
  lemma SelfSimilarityIsOne(a: seq<real>, sqrt: real -> real)
    requires SumSquares(a) != 0.0
    requires sqrt(SumSquares(a)) * sqrt(SumSquares(a)) == SumSquares(a)
    ensures Similarity(a, a, sqrt) == Ok(1.0)
  {
    DotSelf(a);
    var n := sqrt(SumSquares(a));
    assert n != 0.0;
    assert Dot(a, a) / (n * n) == 1.0;
    assert CosineValue(a, a, sqrt) == 1.0;
  }
}
