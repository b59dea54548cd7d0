/** The pairwise slab test isCameraInside: the plane list is read two at a
    time, each pair standing for two opposite faces of a box; a point is
    outside as soon as its values against the two planes of one pair have
    opposite signs. */
module Visibility {
  import opened Geometry

  /** Two plane values of strictly opposite signs: the point is strictly
      beyond one face of the pair and strictly inside the other.
      OppositeSignsProduct shows this is the product test of isCameraInside. */
  predicate OppositeSigns(u: real, v: real)
  {
    (u < 0.0 && 0.0 < v) || (v < 0.0 && 0.0 < u)
  }

  /** The test of one pair: the point's two values do not have a negative
      product. A zero value (a point on either face) always passes. */
  predicate PairHolds(first: Plane, second: Plane, p: Vec3)
  {
    !OppositeSigns(CalculateValue(first, p), CalculateValue(second, p))
  }

  /** Specification of isCameraInside: every consecutive pair (0,1), (2,3), ...
      passes. */
  predicate AllPairsHold(planes: seq<Plane>, p: Vec3)
    decreases |planes|
  {
    |planes| < 2 || (PairHolds(planes[0], planes[1], p) && AllPairsHold(planes[2..], p))
  }

  /** The consecutive pairs of an even-length plane list, in order. */
  function Pairs(planes: seq<Plane>): (pairs: seq<(Plane, Plane)>)
    requires |planes| % 2 == 0
    ensures |pairs| == |planes| / 2
    ensures forall k :: 0 <= k < |pairs| ==> pairs[k] == (planes[2 * k], planes[2 * k + 1])
    decreases |planes|
  {
    if |planes| == 0 then [] else [(planes[0], planes[1])] + Pairs(planes[2..])
  }

  /** isCameraInside. The loop steps i by 2 and reads planes[i] and
      planes[i + 1]; the even length is what keeps the second read in range. */
  method IsCameraInside(planes: seq<Plane>, cameraPos: Vec3) returns (inside: bool)
    requires |planes| % 2 == 0
    ensures inside == AllPairsHold(planes, cameraPos)
  {
    ghost var expected := AllPairsHold(planes, cameraPos);
    assert planes[0..] == planes;
    var i := 0;
    while i < |planes|
      invariant 0 <= i <= |planes| && i % 2 == 0
      invariant expected == AllPairsHold(planes[i..], cameraPos)
    {
      var first := CalculateValue(planes[i], cameraPos);
      var second := CalculateValue(planes[i + 1], cameraPos);
      assert planes[i..][2..] == planes[i + 2..];
      OppositeSignsProduct(first, second);
      if first * second < 0.0 {
        return false;
      }
      i := i + 2;
    }
    return true;
  }

  /** The recursive specification and the indexed reading agree. */
  lemma {:induction false} AllPairsHoldIff(planes: seq<Plane>, p: Vec3)
    requires |planes| % 2 == 0
    ensures AllPairsHold(planes, p) <==>
            forall i :: 0 <= i < |planes| - 1 && i % 2 == 0 ==> PairHolds(planes[i], planes[i + 1], p)
    decreases |planes|
  {
    if |planes| > 0 {
      var rest := planes[2..];
      AllPairsHoldIff(rest, p);
      if AllPairsHold(planes, p) {
        forall i | 0 <= i < |planes| - 1 && i % 2 == 0
          ensures PairHolds(planes[i], planes[i + 1], p)
        {
          if i >= 2 {
            assert planes[i] == rest[i - 2] && planes[i + 1] == rest[i - 1];
          }
        }
      } else {
        if PairHolds(planes[0], planes[1], p) {
          var k :| 0 <= k < |rest| - 1 && k % 2 == 0 && !PairHolds(rest[k], rest[k + 1], p);
          assert planes[k + 2] == rest[k] && planes[k + 3] == rest[k + 1];
        }
      }
    }
  }

  /** The sign test is the product test: two values have strictly opposite
      signs exactly when their product is negative. */
  lemma OppositeSignsProduct(u: real, v: real)
    ensures OppositeSigns(u, v) <==> u * v < 0.0
  {
    if u < 0.0 && 0.0 < v {
      MulNeg(v, u);
      assert u * v == v * u;
    } else if v < 0.0 && 0.0 < u {
      MulNeg(u, v);
    } else if u <= 0.0 && v <= 0.0 {
      MulNonNeg(-u, -v);
      assert u * v == (-u) * (-v);
    } else {
      MulNonNeg(u, v);
    }
  }

  /** Scaling by a positive factor keeps the sign. */
  lemma ScaledSign(k: real, d: real, u: real)
    requires k > 0.0 && u == k * d
    ensures u < 0.0 <==> d < 0.0
    ensures u > 0.0 <==> d > 0.0
  {
    if d < 0.0 {
      MulNeg(k, d);
    } else if d > 0.0 {
      MulPos(k, d);
    } else {
      assert u == k * 0.0;
    }
  }

  /** A product of two positive reals is positive. */
  lemma MulPos(a: real, b: real)
    requires a > 0.0 && b > 0.0
    ensures a * b > 0.0
  {
  }

  /** A product of a positive and a negative real is negative. */
  lemma MulNeg(a: real, b: real)
    requires a > 0.0 && b < 0.0
    ensures a * b < 0.0
  {
    MulPos(a, -b);
  }

  /** A product of two non-negative reals is non-negative. */
  lemma MulNonNeg(a: real, b: real)
    requires a >= 0.0 && b >= 0.0
    ensures a * b >= 0.0
  {
    if a > 0.0 && b > 0.0 {
      MulPos(a, b);
    }
  }

  /** A point lying on either plane of a pair never fails that pair. */
  lemma OnFacePasses(first: Plane, second: Plane, p: Vec3)
    requires CalculateValue(first, p) == 0.0 || CalculateValue(second, p) == 0.0
    ensures PairHolds(first, second, p)
  {
  }

  /** The test over a concatenation of two even lists is the conjunction of
      the two tests: the early return only shortcuts a conjunction. */
  lemma {:induction false} AllPairsHoldAppend(front: seq<Plane>, back: seq<Plane>, p: Vec3)
    requires |front| % 2 == 0 && |back| % 2 == 0
    ensures AllPairsHold(front + back, p) == (AllPairsHold(front, p) && AllPairsHold(back, p))
    decreases |front|
  {
    if |front| > 0 {
      assert (front + back)[2..] == front[2..] + back;
      AllPairsHoldAppend(front[2..], back, p);
    } else {
      assert front + back == back;
    }
  }

  /** The test holds exactly when every pair of the list passes. */
  lemma {:induction false} AllPairsHoldPairs(planes: seq<Plane>, p: Vec3)
    requires |planes| % 2 == 0
    ensures AllPairsHold(planes, p) <==> forall pr :: pr in Pairs(planes) ==> PairHolds(pr.0, pr.1, p)
    decreases |planes|
  {
    if |planes| > 0 {
      AllPairsHoldPairs(planes[2..], p);
      assert Pairs(planes) == [(planes[0], planes[1])] + Pairs(planes[2..]);
    }
  }

  /** Reordering whole pairs (any permutation of the pairs, each pair kept
      together and in its own order) leaves the result unchanged. */
  lemma ReorderPairs(planes: seq<Plane>, reordered: seq<Plane>, p: Vec3)
    requires |planes| % 2 == 0 && |reordered| % 2 == 0
    requires multiset(Pairs(planes)) == multiset(Pairs(reordered))
    ensures AllPairsHold(planes, p) == AllPairsHold(reordered, p)
  {
    AllPairsHoldPairs(planes, p);
    AllPairsHoldPairs(reordered, p);
    forall pr
      ensures pr in Pairs(planes) <==> pr in Pairs(reordered)
    {
      assert pr in Pairs(planes) <==> pr in multiset(Pairs(planes));
      assert pr in Pairs(reordered) <==> pr in multiset(Pairs(reordered));
    }
  }

  /** The list with the two planes of every pair swapped: (1,0), (3,2), ... */
  function SwapWithinPairs(planes: seq<Plane>): (swapped: seq<Plane>)
    requires |planes| % 2 == 0
    ensures |swapped| == |planes|
    ensures forall i :: 0 <= i < |planes| - 1 && i % 2 == 0 ==>
              swapped[i] == planes[i + 1] && swapped[i + 1] == planes[i]
    decreases |planes|
  {
    if |planes| == 0 then []
    else
      var rest := SwapWithinPairs(planes[2..]);
      assert forall i :: 2 <= i < |planes| ==> planes[i] == planes[2..][i - 2];
      [planes[1], planes[0]] + rest
  }

  /** Which plane of a pair comes first does not matter: swapping the two planes of every pair leaves the result
      unchanged (the front/back pair, pushed high side first, is decided like
      the others). */
  lemma {:induction false} SwapWithinPairsSame(planes: seq<Plane>, p: Vec3)
    requires |planes| % 2 == 0
    ensures AllPairsHold(SwapWithinPairs(planes), p) == AllPairsHold(planes, p)
    decreases |planes|
  {
    if |planes| > 0 {
      var swapped := SwapWithinPairs(planes);
      assert swapped[2..] == SwapWithinPairs(planes[2..]);
      SwapWithinPairsSame(planes[2..], p);
    }
  }
}
