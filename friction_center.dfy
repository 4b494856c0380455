/**
  The friction application point of a convex contact manifold (`ComputeFrictionCenter`).

  Every contact of the manifold is weighted: a contact whose penetration depth is below zero
  is speculative and gets weight 0, every other contact gets weight 1. When all weights are 0
  every contact gets the fallback weight 1/N instead; otherwise the weights are divided by
  their sum. The centre is the weighted sum of the contacts' offsets from body A.

  The rule is stated once for any number of contacts (`FrictionCenter`), and proved equal to
  the unrolled forms the engine writes out for two, three and four contacts. A one-contact
  manifold does not call the routine: its centre is its single offset, which
  `SingleContactCenter` shows to be what the general rule gives as well.
 */
module Weighting {
  import opened Vectors

  /** A contact takes part in friction iff its depth is not below zero; depth 0 is active. */
  predicate IsActive(depth: real) {
    depth >= 0.0
  }

  /** The raw weight of one contact: `depth < 0 ? 0 : 1`. */
  function Weight(depth: real): (w: real)
    ensures w == 1.0 <==> IsActive(depth)
    ensures w == 0.0 <==> !IsActive(depth)
  {
    if depth < 0.0 then 0.0 else 1.0
  }

  function RawWeights(depths: seq<real>): (w: seq<real>)
    ensures |w| == |depths|
  {
    seq(|depths|, j requires 0 <= j < |depths| => Weight(depths[j]))
  }

  function WeightSum(depths: seq<real>): real {
    SumReals(RawWeights(depths))
  }

  /**
    The normalised weights. Where the raw weights sum to zero the sum is replaced by N and
    every contact takes the reciprocal, so the division is never 0/0.
   */
  function NormalizedWeights(depths: seq<real>): (w: seq<real>)
    requires |depths| >= 1
    ensures |w| == |depths|
  {
    var weightSum := WeightSum(depths);
    var useFallback := weightSum == 0.0;
    var inverseWeightSum := 1.0 / (if useFallback then |depths| as real else weightSum);
    if useFallback then Uniform(|depths|, inverseWeightSum) else ScaleEach(RawWeights(depths), inverseWeightSum)
  }

  /** `n` copies of `c`. */
  function Uniform(n: nat, c: real): (r: seq<real>)
    ensures |r| == n
  {
    seq(n, j requires 0 <= j < n => c)
  }

  /** Every element multiplied by `c`. */
  function ScaleEach(xs: seq<real>, c: real): (r: seq<real>)
    ensures |r| == |xs|
  {
    seq(|xs|, j requires 0 <= j < |xs| => xs[j] * c)
  }

  function WeightedSum(offsets: seq<Vec3>, weights: seq<real>): Vec3
    requires |offsets| == |weights|
  {
    if |offsets| == 0 then Zero
    else Add(Scale(offsets[0], weights[0]), WeightedSum(offsets[1..], weights[1..]))
  }

  /** The friction application point, relative to body A, for N >= 1 contacts. */
  function FrictionCenter(offsets: seq<Vec3>, depths: seq<real>): Vec3
    requires 1 <= |offsets| == |depths|
  {
    WeightedSum(offsets, NormalizedWeights(depths))
  }

  // ---------------------------------------------------------------------------------------
  // An independent description of the same point: the mean of the active contacts.

  predicate AnyActive(depths: seq<real>) {
    exists j :: 0 <= j < |depths| && IsActive(depths[j])
  }

  /** The offsets of the active contacts, in contact order. */
  function ActiveOffsets(offsets: seq<Vec3>, depths: seq<real>): seq<Vec3>
    requires |offsets| == |depths|
  {
    if |offsets| == 0 then []
    else (if IsActive(depths[0]) then [offsets[0]] else []) + ActiveOffsets(offsets[1..], depths[1..])
  }

  function Mean(vs: seq<Vec3>): Vec3
    requires |vs| >= 1
  {
    Scale(Sum(vs), 1.0 / |vs| as real)
  }

  // ---------------------------------------------------------------------------------------
  // Helper facts about the sums.

  lemma RawWeightsTail(depths: seq<real>)
    requires |depths| >= 1
    ensures RawWeights(depths)[0] == Weight(depths[0])
    ensures RawWeights(depths)[1..] == RawWeights(depths[1..])
  {
    assert RawWeights(depths)[1..] == RawWeights(depths[1..]);
  }

  lemma {:induction false} WeightSumCountsActive(offsets: seq<Vec3>, depths: seq<real>)
    requires |offsets| == |depths|
    ensures WeightSum(depths) == |ActiveOffsets(offsets, depths)| as real
  {
    if |depths| > 0 {
      RawWeightsTail(depths);
      WeightSumCountsActive(offsets[1..], depths[1..]);
    }
  }

  lemma {:induction false} ActiveOffsetsNonEmpty(offsets: seq<Vec3>, depths: seq<real>)
    requires |offsets| == |depths|
    ensures |ActiveOffsets(offsets, depths)| > 0 <==> AnyActive(depths)
  {
    if |depths| > 0 {
      ActiveOffsetsNonEmpty(offsets[1..], depths[1..]);
      if AnyActive(depths[1..]) {
        var k :| 0 <= k < |depths[1..]| && IsActive(depths[1..][k]);
        assert IsActive(depths[k + 1]);
      }
      if AnyActive(depths) && !IsActive(depths[0]) {
        var k :| 0 <= k < |depths| && IsActive(depths[k]);
        assert IsActive(depths[1..][k - 1]);
      }
    }
  }

  /** (o·w + r)·c = o·(w·c) + r·c, component by component. */
  lemma ScaleDistributes(o: Vec3, w: real, r: Vec3, c: real)
    ensures Add(Scale(o, w * c), Scale(r, c)) == Scale(Add(Scale(o, w), r), c)
    ensures w == 1.0 ==> Add(Scale(o, c), Scale(r, c)) == Scale(Add(o, r), c)
  {
    assert o.x * (w * c) + r.x * c == (o.x * w + r.x) * c;
    assert o.y * (w * c) + r.y * c == (o.y * w + r.y) * c;
    assert o.z * (w * c) + r.z * c == (o.z * w + r.z) * c;
  }

  lemma {:induction false} WeightedSumScaled(offsets: seq<Vec3>, weights: seq<real>, c: real)
    requires |offsets| == |weights|
    ensures WeightedSum(offsets, ScaleEach(weights, c)) == Scale(WeightedSum(offsets, weights), c)
  {
    if |offsets| > 0 {
      var scaled, tail := ScaleEach(weights, c), ScaleEach(weights[1..], c);
      assert forall k :: 0 <= k < |tail| ==> scaled[1..][k] == tail[k];
      assert scaled[1..] == tail;
      WeightedSumScaled(offsets[1..], weights[1..], c);
      var o, w, rest := offsets[0], weights[0], WeightedSum(offsets[1..], weights[1..]);
      assert scaled[0] == w * c;
      assert WeightedSum(offsets, scaled) == Add(Scale(o, w * c), Scale(rest, c));
      ScaleDistributes(o, w, rest, c);
    }
  }

  lemma {:induction false} WeightedSumUniform(offsets: seq<Vec3>, c: real)
    ensures WeightedSum(offsets, Uniform(|offsets|, c)) == Scale(Sum(offsets), c)
  {
    if |offsets| > 0 {
      assert Uniform(|offsets|, c)[1..] == Uniform(|offsets| - 1, c);
      WeightedSumUniform(offsets[1..], c);
      ScaleDistributes(offsets[0], 1.0, Sum(offsets[1..]), c);
    }
  }

  lemma {:induction false} WeightedSumOfRawWeights(offsets: seq<Vec3>, depths: seq<real>)
    requires |offsets| == |depths|
    ensures WeightedSum(offsets, RawWeights(depths)) == Sum(ActiveOffsets(offsets, depths))
  {
    if |offsets| > 0 {
      RawWeightsTail(depths);
      WeightedSumOfRawWeights(offsets[1..], depths[1..]);
      var head := if IsActive(depths[0]) then [offsets[0]] else [];
      SumAppend(head, ActiveOffsets(offsets[1..], depths[1..]));
    }
  }

  lemma {:induction false} SumAppend(a: seq<Vec3>, b: seq<Vec3>)
    ensures Sum(a + b) == Add(Sum(a), Sum(b))
  {
    if |a| > 0 {
      assert (a + b)[1..] == a[1..] + b;
      SumAppend(a[1..], b);
    } else {
      assert a + b == b;
    }
  }

  lemma {:induction false} SumRealsScaled(xs: seq<real>, c: real)
    ensures SumReals(ScaleEach(xs, c)) == SumReals(xs) * c
  {
    if |xs| > 0 {
      var scaled, tail := ScaleEach(xs, c), ScaleEach(xs[1..], c);
      assert forall k :: 0 <= k < |tail| ==> scaled[1..][k] == tail[k];
      assert scaled[1..] == tail;
      SumRealsScaled(xs[1..], c);
    }
  }

  lemma {:induction false} SumRealsUniform(n: nat, c: real)
    ensures SumReals(Uniform(n, c)) == n as real * c
  {
    if n > 0 {
      assert Uniform(n, c)[1..] == Uniform(n - 1, c);
      SumRealsUniform(n - 1, c);
    }
  }

  lemma ActiveOffsetsCons(o: Vec3, os: seq<Vec3>, d: real, ds: seq<real>)
    requires |os| == |ds|
    ensures ActiveOffsets([o] + os, [d] + ds) == (if IsActive(d) then [o] else []) + ActiveOffsets(os, ds)
  {
    assert ([o] + os)[1..] == os && ([d] + ds)[1..] == ds;
  }

  // ---------------------------------------------------------------------------------------
  // The weighting rule's properties.

  /**
    With at least one active contact the centre is the mean of the active contacts' offsets.
   */
  lemma ActiveCenterIsMean(offsets: seq<Vec3>, depths: seq<real>)
    requires 1 <= |offsets| == |depths|
    requires AnyActive(depths)
    ensures |ActiveOffsets(offsets, depths)| >= 1
    ensures FrictionCenter(offsets, depths) == Mean(ActiveOffsets(offsets, depths))
  {
    var active := ActiveOffsets(offsets, depths);
    ActiveOffsetsNonEmpty(offsets, depths);
    WeightSumCountsActive(offsets, depths);
    var inv := 1.0 / |active| as real;
    WeightedSumScaled(offsets, RawWeights(depths), inv);
    WeightedSumOfRawWeights(offsets, depths);
  }

  /** With at least one active contact, each active contact weighs 1/k for k active contacts and each speculative one 0. */
  lemma ActiveWeights(offsets: seq<Vec3>, depths: seq<real>)
    requires 1 <= |offsets| == |depths|
    requires AnyActive(depths)
    ensures |ActiveOffsets(offsets, depths)| >= 1
    ensures forall j :: 0 <= j < |depths| ==>
      NormalizedWeights(depths)[j] == if IsActive(depths[j]) then 1.0 / |ActiveOffsets(offsets, depths)| as real else 0.0
  {
    ActiveOffsetsNonEmpty(offsets, depths);
    WeightSumCountsActive(offsets, depths);
  }

  /**
    With no active contact every weight is 1/N and the centre is the plain mean of all
    offsets: the fallback never divides zero by zero.
   */
  lemma FallbackCenterIsMean(offsets: seq<Vec3>, depths: seq<real>)
    requires 1 <= |offsets| == |depths|
    requires !AnyActive(depths)
    ensures forall j :: 0 <= j < |depths| ==> NormalizedWeights(depths)[j] == 1.0 / |depths| as real
    ensures FrictionCenter(offsets, depths) == Mean(offsets)
  {
    ActiveOffsetsNonEmpty(offsets, depths);
    WeightSumCountsActive(offsets, depths);
    WeightedSumUniform(offsets, 1.0 / |offsets| as real);
  }

  /** The normalised weights always sum to 1 and are never negative. */
  lemma WeightsSumToOne(depths: seq<real>)
    requires |depths| >= 1
    ensures SumReals(NormalizedWeights(depths)) == 1.0
    ensures forall j :: 0 <= j < |depths| ==> NormalizedWeights(depths)[j] >= 0.0
  {
    var offsets := seq(|depths|, j requires 0 <= j < |depths| => Zero);
    var n := |depths| as real;
    WeightSumCountsActive(offsets, depths);
    var sum := WeightSum(depths);
    if sum == 0.0 {
      SumRealsUniform(|depths|, 1.0 / n);
    } else {
      SumRealsScaled(RawWeights(depths), 1.0 / sum);
    }
  }

  lemma {:induction false} ActiveOffsetsIgnoreSpeculative(offsets: seq<Vec3>, depths: seq<real>, j: nat, p: Vec3)
    requires |offsets| == |depths| && j < |depths|
    requires !IsActive(depths[j])
    ensures ActiveOffsets(offsets[j := p], depths) == ActiveOffsets(offsets, depths)
  {
    if j > 0 {
      assert offsets[j := p][1..] == offsets[1..][j - 1 := p];
      ActiveOffsetsIgnoreSpeculative(offsets[1..], depths[1..], j - 1, p);
    } else {
      assert offsets[j := p][1..] == offsets[1..];
    }
  }

  /**
    While some contact is active, moving a speculative contact does not move the centre.
   */
  lemma SpeculativeOffsetIgnored(offsets: seq<Vec3>, depths: seq<real>, j: nat, p: Vec3)
    requires 1 <= |offsets| == |depths| && j < |depths|
    requires AnyActive(depths) && !IsActive(depths[j])
    ensures FrictionCenter(offsets[j := p], depths) == FrictionCenter(offsets, depths)
  {
    ActiveCenterIsMean(offsets, depths);
    ActiveCenterIsMean(offsets[j := p], depths);
    ActiveOffsetsIgnoreSpeculative(offsets, depths, j, p);
  }

  /** A four-contact manifold with two touching and two speculative contacts: the midpoint. */
  lemma TwoActiveTwoSpeculative(o0: Vec3, o1: Vec3, o2: Vec3, o3: Vec3, d0: real, d1: real, d2: real, d3: real)
    requires d0 >= 0.0 && d1 >= 0.0 && d2 < 0.0 && d3 < 0.0
    ensures FrictionCenter([o0, o1, o2, o3], [d0, d1, d2, d3]) == Scale(Add(o0, o1), 0.5)
  {
    var offsets, depths := [o0, o1, o2, o3], [d0, d1, d2, d3];
    FirstTwoActive(o0, o1, o2, o3, d0, d1, d2, d3);
    MeanOfTwo(o0, o1);
    assert IsActive(depths[0]);
    ActiveCenterIsMean(offsets, depths);
  }

  lemma FirstTwoActive(o0: Vec3, o1: Vec3, o2: Vec3, o3: Vec3, d0: real, d1: real, d2: real, d3: real)
    requires d0 >= 0.0 && d1 >= 0.0 && d2 < 0.0 && d3 < 0.0
    ensures ActiveOffsets([o0, o1, o2, o3], [d0, d1, d2, d3]) == [o0, o1]
  {
    assert [o3][1..] == [] && [d3][1..] == [];
    assert ActiveOffsets([o3], [d3]) == [];
    assert [o2, o3][1..] == [o3] && [d2, d3][1..] == [d3];
    assert ActiveOffsets([o2, o3], [d2, d3]) == [];
    assert [o1, o2, o3][1..] == [o2, o3] && [d1, d2, d3][1..] == [d2, d3];
    assert ActiveOffsets([o1, o2, o3], [d1, d2, d3]) == [o1];
    assert [o0, o1, o2, o3][1..] == [o1, o2, o3] && [d0, d1, d2, d3][1..] == [d1, d2, d3];
    assert ActiveOffsets([o0, o1, o2, o3], [d0, d1, d2, d3]) == [o0] + [o1];
  }

  lemma MeanOfTwo(o0: Vec3, o1: Vec3)
    ensures Mean([o0, o1]) == Scale(Add(o0, o1), 0.5)
  {
    assert [o0, o1][1..] == [o1];
    assert [o1][1..] == [];
    assert Sum([o1]) == Add(o1, Zero) == o1;
  }

  /** For one contact the rule returns that contact's offset, whatever its depth. */
  lemma SingleContactCenter(o0: Vec3, d0: real)
    ensures FrictionCenter([o0], [d0]) == o0
  {
    SumOfOne(o0, d0, 1.0);
    assert NormalizedWeights([d0]) == [1.0];
  }

  // ---------------------------------------------------------------------------------------
  // The per-size routines as the engine writes them out.

  function ComputeFrictionCenter2(offsetA0: Vec3, offsetA1: Vec3, depth0: real, depth1: real): (center: Vec3)
    ensures center == FrictionCenter([offsetA0, offsetA1], [depth0, depth1])
  {
    var weight0 := Weight(depth0);
    var weight1 := Weight(depth1);
    var weightSum := weight0 + weight1;
    var useFallback := weightSum == 0.0;
    var inverseWeightSum := 1.0 / (if useFallback then 2.0 else weightSum);
    var w0 := if useFallback then inverseWeightSum else weight0 * inverseWeightSum;
    var w1 := if useFallback then inverseWeightSum else weight1 * inverseWeightSum;
    SumOfTwo(offsetA0, offsetA1, depth0, depth1, w0, w1);
    assert NormalizedWeights([depth0, depth1]) == [w0, w1];
    Add(Scale(offsetA0, w0), Scale(offsetA1, w1))
  }

  function ComputeFrictionCenter3(offsetA0: Vec3, offsetA1: Vec3, offsetA2: Vec3,
                                  depth0: real, depth1: real, depth2: real): (center: Vec3)
    ensures center == FrictionCenter([offsetA0, offsetA1, offsetA2], [depth0, depth1, depth2])
  {
    var weight0 := Weight(depth0);
    var weight1 := Weight(depth1);
    var weight2 := Weight(depth2);
    var weightSum := weight0 + weight1 + weight2;
    var useFallback := weightSum == 0.0;
    var inverseWeightSum := 1.0 / (if useFallback then 3.0 else weightSum);
    var w0 := if useFallback then inverseWeightSum else weight0 * inverseWeightSum;
    var w1 := if useFallback then inverseWeightSum else weight1 * inverseWeightSum;
    var w2 := if useFallback then inverseWeightSum else weight2 * inverseWeightSum;
    SumOfThree(offsetA0, offsetA1, offsetA2, depth0, depth1, depth2, w0, w1, w2);
    assert NormalizedWeights([depth0, depth1, depth2]) == [w0, w1, w2];
    Add(Add(Scale(offsetA0, w0), Scale(offsetA1, w1)), Scale(offsetA2, w2))
  }

  function ComputeFrictionCenter4(offsetA0: Vec3, offsetA1: Vec3, offsetA2: Vec3, offsetA3: Vec3,
                                  depth0: real, depth1: real, depth2: real, depth3: real): (center: Vec3)
    ensures center == FrictionCenter([offsetA0, offsetA1, offsetA2, offsetA3], [depth0, depth1, depth2, depth3])
  {
    var weight0 := Weight(depth0);
    var weight1 := Weight(depth1);
    var weight2 := Weight(depth2);
    var weight3 := Weight(depth3);
    var weightSum := weight0 + weight1 + weight2 + weight3;
    var useFallback := weightSum == 0.0;
    var inverseWeightSum := 1.0 / (if useFallback then 4.0 else weightSum);
    var w0 := if useFallback then inverseWeightSum else weight0 * inverseWeightSum;
    var w1 := if useFallback then inverseWeightSum else weight1 * inverseWeightSum;
    var w2 := if useFallback then inverseWeightSum else weight2 * inverseWeightSum;
    var w3 := if useFallback then inverseWeightSum else weight3 * inverseWeightSum;
    SumOfFour(offsetA0, offsetA1, offsetA2, offsetA3, depth0, depth1, depth2, depth3, w0, w1, w2, w3);
    assert NormalizedWeights([depth0, depth1, depth2, depth3]) == [w0, w1, w2, w3];
    Add(Add(Scale(offsetA0, w0), Scale(offsetA1, w1)), Add(Scale(offsetA2, w2), Scale(offsetA3, w3)))
  }

  /** Both sums of the rule, taken one contact at a time. */
  lemma SumsCons(o: Vec3, os: seq<Vec3>, d: real, ds: seq<real>, w: real, ws: seq<real>)
    requires |os| == |ds| == |ws|
    ensures WeightSum([d] + ds) == Weight(d) + WeightSum(ds)
    ensures WeightedSum([o] + os, [w] + ws) == Add(Scale(o, w), WeightedSum(os, ws))
  {
    RawWeightsTail([d] + ds);
    assert ([d] + ds)[1..] == ds;
    assert ([o] + os)[1..] == os;
    assert ([w] + ws)[1..] == ws;
  }

  lemma SumOfOne(o0: Vec3, d0: real, w0: real)
    ensures WeightSum([d0]) == Weight(d0)
    ensures WeightedSum([o0], [w0]) == Scale(o0, w0)
  {
    SumsCons(o0, [], d0, [], w0, []);
    assert [o0] + [] == [o0] && [d0] + [] == [d0] && [w0] + [] == [w0];
  }

  lemma SumOfTwo(o0: Vec3, o1: Vec3, d0: real, d1: real, w0: real, w1: real)
    ensures WeightSum([d0, d1]) == Weight(d0) + Weight(d1)
    ensures WeightedSum([o0, o1], [w0, w1]) == Add(Scale(o0, w0), Scale(o1, w1))
  {
    SumOfOne(o1, d1, w1);
    SumsCons(o0, [o1], d0, [d1], w0, [w1]);
    assert [o0] + [o1] == [o0, o1] && [d0] + [d1] == [d0, d1] && [w0] + [w1] == [w0, w1];
  }

  lemma SumOfThree(o0: Vec3, o1: Vec3, o2: Vec3, d0: real, d1: real, d2: real, w0: real, w1: real, w2: real)
    ensures WeightSum([d0, d1, d2]) == Weight(d0) + Weight(d1) + Weight(d2)
    ensures WeightedSum([o0, o1, o2], [w0, w1, w2]) == Add(Add(Scale(o0, w0), Scale(o1, w1)), Scale(o2, w2))
  {
    SumOfTwo(o1, o2, d1, d2, w1, w2);
    SumsCons(o0, [o1, o2], d0, [d1, d2], w0, [w1, w2]);
    assert [o0] + [o1, o2] == [o0, o1, o2] && [d0] + [d1, d2] == [d0, d1, d2] && [w0] + [w1, w2] == [w0, w1, w2];
  }

  lemma SumOfFour(o0: Vec3, o1: Vec3, o2: Vec3, o3: Vec3, d0: real, d1: real, d2: real, d3: real,
                  w0: real, w1: real, w2: real, w3: real)
    ensures WeightSum([d0, d1, d2, d3]) == Weight(d0) + Weight(d1) + Weight(d2) + Weight(d3)
    ensures WeightedSum([o0, o1, o2, o3], [w0, w1, w2, w3])
            == Add(Add(Scale(o0, w0), Scale(o1, w1)), Add(Scale(o2, w2), Scale(o3, w3)))
  {
    SumOfThree(o1, o2, o3, d1, d2, d3, w1, w2, w3);
    SumsCons(o0, [o1, o2, o3], d0, [d1, d2, d3], w0, [w1, w2, w3]);
    assert [o0] + [o1, o2, o3] == [o0, o1, o2, o3];
    assert [d0] + [d1, d2, d3] == [d0, d1, d2, d3];
    assert [w0] + [w1, w2, w3] == [w0, w1, w2, w3];
  }
}
