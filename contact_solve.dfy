/**
  The per-constraint functions of the convex contact constraints (`ContactNFunctions`):
  `Prestep` turns one lane of prestep data into a projection, `WarmStart` applies last frame's
  accumulated impulses, and `Solve` runs one iteration of tangent friction, penetration and twist
  friction, in that order.

  The primitive constraints the contact code delegates to (`TangentFriction`,
  `PenetrationLimitN`, `TwistFriction`), the tangent basis (`Helpers.BuildOrthnormalBasis`) and the
  distance (`Vector3Wide.Distance`) are not part of this model: they are passed in as the fields of
  `Primitives`, and the predicates below state the little the contact code relies on about them.
  What this module fixes is the contact code's own work: the friction centre and the offsets it
  hands to tangent friction, the lever arms, the premultiplied friction coefficient, the order of
  the primitive calls, and which impulses bound tangent and twist friction.
 */
module ContactSolve {
  import opened Vectors
  import opened Weighting
  import opened Descriptions

  /** `BodyInertias`: passed through to the primitives, never read by the contact code. */
  datatype BodyInertias = BodyInertias(inverseInertiaTensor: seq<real>, inverseMass: real)

  datatype BodyVelocities = BodyVelocities(linear: Vec3, angular: Vec3)

  /** The velocities of body A and body B (`wsvA`, `wsvB`). */
  datatype Velocities = Velocities(a: BodyVelocities, b: BodyVelocities)

  /** What a primitive constraint's prestep computes and its solve reads back. */
  datatype PrimitiveProjection = PrimitiveProjection(values: seq<real>)

  /** `ContactNProjection`, with the N lever arms as a sequence. */
  datatype Projection = Projection(
    inertiaA: BodyInertias,
    inertiaB: BodyInertias,
    premultipliedFrictionCoefficient: real,
    normal: Vec3,
    tangent: PrimitiveProjection,
    penetration: PrimitiveProjection,
    leverArms: seq<real>,
    twist: PrimitiveProjection)

  /** `ContactNAccumulatedImpulses`, with the N penetration impulses as a sequence. */
  datatype AccumulatedImpulses = AccumulatedImpulses(tangent: Vec2, penetration: seq<real>, twist: real)

  /** The code the contact functions call but this model does not contain. */
  datatype Primitives = Primitives(
    // Helpers.BuildOrthnormalBasis(normal) -> (x, z)
    basis: Vec3 -> (Vec3, Vec3),
    // Vector3Wide.Distance
    distance: (Vec3, Vec3) -> real,
    // TangentFriction.Prestep(x, z, offsetA, offsetB, inertiaA, inertiaB)
    tangentPrestep: (Vec3, Vec3, Vec3, Vec3, BodyInertias, BodyInertias) -> PrimitiveProjection,
    // PenetrationLimitN.Prestep(inertiaA, inertiaB, prestep, dt, inverseDt)
    penetrationPrestep: (BodyInertias, BodyInertias, Description, real, real) -> PrimitiveProjection,
    // TwistFriction.Prestep(inertiaA, inertiaB, normal)
    twistPrestep: (BodyInertias, BodyInertias, Vec3) -> PrimitiveProjection,
    // TangentFriction.WarmStart(x, z, projection, inertiaA, inertiaB, impulse, velocities)
    tangentWarmStart: (Vec3, Vec3, PrimitiveProjection, BodyInertias, BodyInertias, Vec2, Velocities) -> Velocities,
    // PenetrationLimitN.WarmStart(projection, inertiaA, inertiaB, normal, impulses, velocities)
    penetrationWarmStart: (PrimitiveProjection, BodyInertias, BodyInertias, Vec3, seq<real>, Velocities) -> Velocities,
    // TwistFriction.WarmStart(normal, inertiaA, inertiaB, impulse, velocities)
    twistWarmStart: (Vec3, BodyInertias, BodyInertias, real, Velocities) -> Velocities,
    // TangentFriction.Solve(x, z, projection, inertiaA, inertiaB, maximumImpulse, impulse, velocities)
    tangentSolve: (Vec3, Vec3, PrimitiveProjection, BodyInertias, BodyInertias, real, Vec2, Velocities) -> (Vec2, Velocities),
    // PenetrationLimitN.Solve(projection, inertiaA, inertiaB, normal, impulses, velocities)
    penetrationSolve: (PrimitiveProjection, BodyInertias, BodyInertias, Vec3, seq<real>, Velocities) -> (seq<real>, Velocities),
    // TwistFriction.Solve(normal, inertiaA, inertiaB, projection, maximumImpulse, impulse, velocities)
    twistSolve: (Vec3, BodyInertias, BodyInertias, PrimitiveProjection, real, real, Velocities) -> (real, Velocities))

  // What the contact code relies on about the primitives.

  /** `PenetrationLimitN.Solve` updates the N impulses it is given, no more and no fewer. */
  ghost predicate PenetrationKeepsCount(primitives: Primitives) {
    forall projection: PrimitiveProjection, inertiaA: BodyInertias, inertiaB: BodyInertias, normal: Vec3, impulses: seq<real>, velocities: Velocities ::
      |primitives.penetrationSolve(projection, inertiaA, inertiaB, normal, impulses, velocities).0| == |impulses|
  }

  /** Penetration impulses only push: each accumulated impulse stays non-negative. */
  ghost predicate PenetrationNonNegative(primitives: Primitives) {
    forall projection: PrimitiveProjection, inertiaA: BodyInertias, inertiaB: BodyInertias, normal: Vec3, impulses: seq<real>, velocities: Velocities ::
      forall j :: 0 <= j < |primitives.penetrationSolve(projection, inertiaA, inertiaB, normal, impulses, velocities).0| ==>
        primitives.penetrationSolve(projection, inertiaA, inertiaB, normal, impulses, velocities).0[j] >= 0.0
  }

  /** Tangent friction keeps its accumulated impulse within the disc of the given radius. */
  ghost predicate TangentClamps(primitives: Primitives) {
    forall x: Vec3, z: Vec3, projection: PrimitiveProjection, inertiaA: BodyInertias, inertiaB: BodyInertias,
           maximum: real, impulse: Vec2, velocities: Velocities ::
      maximum >= 0.0 ==>
        WithinDisc(primitives.tangentSolve(x, z, projection, inertiaA, inertiaB, maximum, impulse, velocities).0, maximum)
  }

  /** The 2-vector lies in the disc of the given radius about the origin. */
  predicate WithinDisc(v: Vec2, radius: real) {
    LengthSquared2(v) <= radius * radius
  }

  /** Twist friction keeps its accumulated impulse within [-maximum, maximum]. */
  ghost predicate TwistClamps(primitives: Primitives) {
    forall normal: Vec3, inertiaA: BodyInertias, inertiaB: BodyInertias, projection: PrimitiveProjection,
           maximum: real, impulse: real, velocities: Velocities ::
      maximum >= 0.0 ==>
        -maximum <= primitives.twistSolve(normal, inertiaA, inertiaB, projection, maximum, impulse, velocities).0 <= maximum
  }

  /** Applying a zero impulse leaves the velocities alone, for each of the three warm starts. */
  ghost predicate ZeroWarmStartIsNeutral(primitives: Primitives) {
    (forall x: Vec3, z: Vec3, projection: PrimitiveProjection, inertiaA: BodyInertias, inertiaB: BodyInertias, velocities: Velocities ::
      primitives.tangentWarmStart(x, z, projection, inertiaA, inertiaB, Vec2(0.0, 0.0), velocities) == velocities) &&
    (forall projection: PrimitiveProjection, inertiaA: BodyInertias, inertiaB: BodyInertias, normal: Vec3, impulses: seq<real>, velocities: Velocities ::
      (forall j :: 0 <= j < |impulses| ==> impulses[j] == 0.0) ==>
        primitives.penetrationWarmStart(projection, inertiaA, inertiaB, normal, impulses, velocities) == velocities) &&
    (forall normal: Vec3, inertiaA: BodyInertias, inertiaB: BodyInertias, velocities: Velocities ::
      primitives.twistWarmStart(normal, inertiaA, inertiaB, 0.0, velocities) == velocities)
  }

  // ---------------------------------------------------------------------------------------
  // The friction budgets.

  /** Σ impulse_j × leverArm_j. */
  function LeverWeightedSum(impulses: seq<real>, leverArms: seq<real>): real
    requires |impulses| == |leverArms|
  {
    if |impulses| == 0 then 0.0 else impulses[0] * leverArms[0] + LeverWeightedSum(impulses[1..], leverArms[1..])
  }

  /** The radius tangent friction may use: premultiplied coefficient × summed penetration impulse. */
  function MaximumTangentImpulse(premultipliedFrictionCoefficient: real, penetration: seq<real>): real {
    premultipliedFrictionCoefficient * SumReals(penetration)
  }

  /** The bound twist friction may use: premultiplied coefficient × Σ impulse_j × leverArm_j. */
  function MaximumTwistImpulse(premultipliedFrictionCoefficient: real, penetration: seq<real>, leverArms: seq<real>): real
    requires |penetration| == |leverArms|
  {
    premultipliedFrictionCoefficient * LeverWeightedSum(penetration, leverArms)
  }

  function ContactOffsets(contacts: seq<ContactData>): (offsets: seq<Vec3>)
    ensures |offsets| == |contacts|
    ensures forall j :: 0 <= j < |contacts| ==> offsets[j] == contacts[j].offsetA
  {
    seq(|contacts|, j requires 0 <= j < |contacts| => contacts[j].offsetA)
  }

  /**
    `offsetToManifoldCenterA`: contact 0's offset for one contact, `ComputeFrictionCenter` of
    the N-contact functions otherwise. It is the weighted friction centre of the contacts.
   */
  function ManifoldCenter(contacts: seq<ContactData>): (center: Vec3)
    requires 1 <= |contacts| <= 4
    ensures center == FrictionCenter(ContactOffsets(contacts), Depths(contacts))
  {
    var c := contacts;
    if |c| == 1 then
      SingleContactCenter(c[0].offsetA, c[0].penetrationDepth);
      assert ContactOffsets(c) == [c[0].offsetA] && Depths(c) == [c[0].penetrationDepth];
      c[0].offsetA
    else if |c| == 2 then
      assert ContactOffsets(c) == [c[0].offsetA, c[1].offsetA];
      assert Depths(c) == [c[0].penetrationDepth, c[1].penetrationDepth];
      ComputeFrictionCenter2(c[0].offsetA, c[1].offsetA, c[0].penetrationDepth, c[1].penetrationDepth)
    else if |c| == 3 then
      assert ContactOffsets(c) == [c[0].offsetA, c[1].offsetA, c[2].offsetA];
      assert Depths(c) == [c[0].penetrationDepth, c[1].penetrationDepth, c[2].penetrationDepth];
      ComputeFrictionCenter3(c[0].offsetA, c[1].offsetA, c[2].offsetA,
                             c[0].penetrationDepth, c[1].penetrationDepth, c[2].penetrationDepth)
    else
      assert ContactOffsets(c) == [c[0].offsetA, c[1].offsetA, c[2].offsetA, c[3].offsetA];
      assert Depths(c) == [c[0].penetrationDepth, c[1].penetrationDepth, c[2].penetrationDepth, c[3].penetrationDepth];
      ComputeFrictionCenter4(c[0].offsetA, c[1].offsetA, c[2].offsetA, c[3].offsetA,
                             c[0].penetrationDepth, c[1].penetrationDepth, c[2].penetrationDepth, c[3].penetrationDepth)
  }

  // ---------------------------------------------------------------------------------------
  // Prestep, warm start and solve.

  /**
    `PremultipliedFrictionCoefficient`: the coefficient itself for one contact, (1 / N) × the
    coefficient for N contacts. Its N-fold is the coefficient.
   */
  function PremultipliedFrictionCoefficient(frictionCoefficient: real, contactCount: nat): (k: real)
    requires 1 <= contactCount <= 4
    ensures k * contactCount as real == frictionCoefficient
  {
    if contactCount == 1 then frictionCoefficient
    else if contactCount == 2 then (1.0 / 2.0) * frictionCoefficient
    else if contactCount == 3 then (1.0 / 3.0) * frictionCoefficient
    else (1.0 / 4.0) * frictionCoefficient
  }

  /**
    `ContactNFunctions.Prestep` for one lane: tangent friction acts at the friction centre (as
    seen from A and from B), every contact's lever arm is its distance from that centre, and the
    friction coefficient is shared out evenly between the N contacts.
   */
  function Prestep(inertiaA: BodyInertias, inertiaB: BodyInertias, prestep: Description, dt: real, inverseDt: real,
                   primitives: Primitives): (projection: Projection)
    requires 1 <= |prestep.contacts| <= 4
    ensures projection.inertiaA == inertiaA && projection.inertiaB == inertiaB
    ensures projection.premultipliedFrictionCoefficient == PremultipliedFrictionCoefficient(prestep.frictionCoefficient, |prestep.contacts|)
    ensures projection.normal == prestep.normal
    ensures var center := FrictionCenter(ContactOffsets(prestep.contacts), Depths(prestep.contacts));
            var basis := primitives.basis(prestep.normal);
            projection.tangent == primitives.tangentPrestep(basis.0, basis.1, center, Sub(center, prestep.offsetB), inertiaA, inertiaB)
    ensures projection.penetration == primitives.penetrationPrestep(inertiaA, inertiaB, prestep, dt, inverseDt)
    ensures |projection.leverArms| == |prestep.contacts|
    ensures var center := FrictionCenter(ContactOffsets(prestep.contacts), Depths(prestep.contacts));
            forall j :: 0 <= j < |prestep.contacts| ==>
              projection.leverArms[j] == primitives.distance(prestep.contacts[j].offsetA, center)
    ensures projection.twist == primitives.twistPrestep(inertiaA, inertiaB, prestep.normal)
  {
    var n := |prestep.contacts|;
    var c := prestep.contacts;
    var offsetToManifoldCenterA := ManifoldCenter(c);
    var offsetToManifoldCenterB := Sub(offsetToManifoldCenterA, prestep.offsetB);
    var premultiplied := PremultipliedFrictionCoefficient(prestep.frictionCoefficient, n);
    var basis := primitives.basis(prestep.normal);
    var leverArms :=
      if n == 1 then [primitives.distance(c[0].offsetA, c[0].offsetA)]
      else seq(n, j requires 0 <= j < n => primitives.distance(c[j].offsetA, offsetToManifoldCenterA));
    Projection(
      inertiaA, inertiaB, premultiplied, prestep.normal,
      primitives.tangentPrestep(basis.0, basis.1, offsetToManifoldCenterA, offsetToManifoldCenterB, inertiaA, inertiaB),
      primitives.penetrationPrestep(inertiaA, inertiaB, prestep, dt, inverseDt),
      leverArms,
      primitives.twistPrestep(inertiaA, inertiaB, prestep.normal))
  }

  /**
    `ContactNFunctions.WarmStart`: applies the accumulated tangent, penetration and twist
    impulses, in that order, to the two bodies' velocities.
   */
  method WarmStart(velocities: Velocities, projection: Projection, accumulated: AccumulatedImpulses, primitives: Primitives)
    returns (velocities': Velocities)
    ensures var basis := primitives.basis(projection.normal);
            var afterTangent := primitives.tangentWarmStart(basis.0, basis.1, projection.tangent,
                                                            projection.inertiaA, projection.inertiaB, accumulated.tangent, velocities);
            var afterPenetration := primitives.penetrationWarmStart(projection.penetration, projection.inertiaA, projection.inertiaB,
                                                                    projection.normal, accumulated.penetration, afterTangent);
            velocities' == primitives.twistWarmStart(projection.normal, projection.inertiaA, projection.inertiaB,
                                                     accumulated.twist, afterPenetration)
    ensures ZeroWarmStartIsNeutral(primitives) && accumulated.tangent == Vec2(0.0, 0.0) && accumulated.twist == 0.0 &&
            (forall j :: 0 <= j < |accumulated.penetration| ==> accumulated.penetration[j] == 0.0) ==>
              velocities' == velocities
  {
    var basis := primitives.basis(projection.normal);
    var x, z := basis.0, basis.1;
    var v := primitives.tangentWarmStart(x, z, projection.tangent, projection.inertiaA, projection.inertiaB, accumulated.tangent, velocities);
    v := primitives.penetrationWarmStart(projection.penetration, projection.inertiaA, projection.inertiaB,
                                         projection.normal, accumulated.penetration, v);
    velocities' := primitives.twistWarmStart(projection.normal, projection.inertiaA, projection.inertiaB, accumulated.twist, v);
  }

  /**
    `maximumTangentImpulse` as each size writes it out:
    premultiplied coefficient × (Penetration0 + .. + PenetrationN-1).
   */
  function WrittenOutTangentBudget(k: real, p: seq<real>): (maximum: real)
    requires 1 <= |p| <= 4
    ensures maximum == MaximumTangentImpulse(k, p)
  {
    SumRealsSteps(p);
    if |p| == 1 then k * p[0]
    else if |p| == 2 then k * (p[0] + p[1])
    else if |p| == 3 then k * (p[0] + p[1] + p[2])
    else k * (p[0] + p[1] + p[2] + p[3])
  }

  /**
    `maximumTwistImpulse` as each size writes it out:
    premultiplied coefficient × (Penetration0 × LeverArm0 + .. + PenetrationN-1 × LeverArmN-1).
   */
  function WrittenOutTwistBudget(k: real, p: seq<real>, l: seq<real>): (maximum: real)
    requires 1 <= |p| <= 4 && |l| == |p|
    ensures maximum == MaximumTwistImpulse(k, p, l)
  {
    LeverSumSteps(p, l);
    if |p| == 1 then k * (p[0] * l[0])
    else if |p| == 2 then k * (p[0] * l[0] + p[1] * l[1])
    else if |p| == 3 then k * (p[0] * l[0] + p[1] * l[1] + p[2] * l[2])
    else k * (p[0] * l[0] + p[1] * l[1] + p[2] * l[2] + p[3] * l[3])
  }

  lemma SumRealsStep(p: seq<real>, i: nat)
    requires i < |p|
    ensures SumReals(p[i..]) == p[i] + SumReals(p[i + 1..])
  {
    assert p[i..][1..] == p[i + 1..];
  }

  lemma SumRealsSteps(p: seq<real>)
    requires 1 <= |p| <= 4
    ensures |p| == 1 ==> SumReals(p) == p[0]
    ensures |p| == 2 ==> SumReals(p) == p[0] + p[1]
    ensures |p| == 3 ==> SumReals(p) == p[0] + p[1] + p[2]
    ensures |p| == 4 ==> SumReals(p) == p[0] + p[1] + p[2] + p[3]
  {
    assert p[0..] == p;
    SumRealsStep(p, 0);
    if |p| > 1 { SumRealsStep(p, 1); }
    if |p| > 2 { SumRealsStep(p, 2); }
    if |p| > 3 { SumRealsStep(p, 3); }
    assert p[|p|..] == [];
  }

  /** The per-contact moments p_j × l_j. */
  function Moments(p: seq<real>, l: seq<real>): (m: seq<real>)
    requires |p| == |l|
    ensures |m| == |p| && forall j :: 0 <= j < |p| ==> m[j] == p[j] * l[j]
  {
    seq(|p|, j requires 0 <= j < |p| => p[j] * l[j])
  }

  lemma {:induction false} LeverSumIsSumOfMoments(p: seq<real>, l: seq<real>)
    requires |p| == |l|
    ensures LeverWeightedSum(p, l) == SumReals(Moments(p, l))
  {
    if |p| > 0 {
      LeverSumIsSumOfMoments(p[1..], l[1..]);
      var m, m' := Moments(p, l), Moments(p[1..], l[1..]);
      assert forall j :: 0 <= j < |m'| ==> m[1..][j] == m'[j];
      assert m[1..] == m';
    }
  }

  lemma LeverSumSteps(p: seq<real>, l: seq<real>)
    requires 1 <= |p| <= 4 && |l| == |p|
    ensures |p| == 1 ==> LeverWeightedSum(p, l) == p[0] * l[0]
    ensures |p| == 2 ==> LeverWeightedSum(p, l) == p[0] * l[0] + p[1] * l[1]
    ensures |p| == 3 ==> LeverWeightedSum(p, l) == p[0] * l[0] + p[1] * l[1] + p[2] * l[2]
    ensures |p| == 4 ==> LeverWeightedSum(p, l) == p[0] * l[0] + p[1] * l[1] + p[2] * l[2] + p[3] * l[3]
  {
    LeverSumIsSumOfMoments(p, l);
    if |p| == 1 {
      LeverSumOfOne(p, l);
    } else if |p| == 2 {
      LeverSumOfTwo(p, l);
    } else if |p| == 3 {
      LeverSumOfThree(p, l);
    } else {
      LeverSumOfFour(p, l);
    }
  }

  lemma LeverSumOfOne(p: seq<real>, l: seq<real>)
    requires |p| == 1 && |l| == 1
    ensures SumReals(Moments(p, l)) == p[0] * l[0]
  {
    var m := Moments(p, l);
    SumRealsSteps(m);
    assert m[0] == p[0] * l[0];
  }

  lemma LeverSumOfTwo(p: seq<real>, l: seq<real>)
    requires |p| == 2 && |l| == 2
    ensures SumReals(Moments(p, l)) == p[0] * l[0] + p[1] * l[1]
  {
    var m := Moments(p, l);
    SumRealsSteps(m);
    assert m[0] == p[0] * l[0] && m[1] == p[1] * l[1];
  }

  lemma LeverSumOfThree(p: seq<real>, l: seq<real>)
    requires |p| == 3 && |l| == 3
    ensures SumReals(Moments(p, l)) == p[0] * l[0] + p[1] * l[1] + p[2] * l[2]
  {
    var m := Moments(p, l);
    SumRealsSteps(m);
    assert m[0] == p[0] * l[0] && m[1] == p[1] * l[1] && m[2] == p[2] * l[2];
  }

  lemma LeverSumOfFour(p: seq<real>, l: seq<real>)
    requires |p| == 4 && |l| == 4
    ensures SumReals(Moments(p, l)) == p[0] * l[0] + p[1] * l[1] + p[2] * l[2] + p[3] * l[3]
  {
    var m := Moments(p, l);
    SumRealsSteps(m);
    assert m[0] == p[0] * l[0] && m[1] == p[1] * l[1] && m[2] == p[2] * l[2] && m[3] == p[3] * l[3];
  }

  /**
    `ContactNFunctions.Solve`: one iteration. Tangent friction is bounded by the penetration
    impulses accumulated before this iteration's penetration solve; the penetration constraints
    are then solved; twist friction is bounded by the penetration impulses just computed,
    weighted by the lever arms.
   */
  method Solve(velocities: Velocities, projection: Projection, accumulated: AccumulatedImpulses, primitives: Primitives)
    returns (velocities': Velocities, accumulated': AccumulatedImpulses)
    requires 1 <= |accumulated.penetration| <= 4 && |projection.leverArms| == |accumulated.penetration|
    requires PenetrationKeepsCount(primitives)
    ensures var basis := primitives.basis(projection.normal);
            var maximumTangentImpulse := MaximumTangentImpulse(projection.premultipliedFrictionCoefficient, accumulated.penetration);
            var tangent := primitives.tangentSolve(basis.0, basis.1, projection.tangent, projection.inertiaA, projection.inertiaB,
                                                   maximumTangentImpulse, accumulated.tangent, velocities);
            var penetration := primitives.penetrationSolve(projection.penetration, projection.inertiaA, projection.inertiaB,
                                                           projection.normal, accumulated.penetration, tangent.1);
            |penetration.0| == |projection.leverArms| &&
            var maximumTwistImpulse := MaximumTwistImpulse(projection.premultipliedFrictionCoefficient, penetration.0, projection.leverArms);
            var twist := primitives.twistSolve(projection.normal, projection.inertiaA, projection.inertiaB, projection.twist,
                                               maximumTwistImpulse, accumulated.twist, penetration.1);
            accumulated' == AccumulatedImpulses(tangent.0, penetration.0, twist.0) && velocities' == twist.1
    ensures |accumulated'.penetration| == |accumulated.penetration|
    ensures var maximum := MaximumTangentImpulse(projection.premultipliedFrictionCoefficient, accumulated.penetration);
            TangentClamps(primitives) && maximum >= 0.0 ==> WithinDisc(accumulated'.tangent, maximum)
    ensures var maximum := MaximumTwistImpulse(projection.premultipliedFrictionCoefficient, accumulated'.penetration, projection.leverArms);
            TwistClamps(primitives) && maximum >= 0.0 ==> -maximum <= accumulated'.twist <= maximum
    ensures PenetrationNonNegative(primitives) && TwistClamps(primitives) && projection.premultipliedFrictionCoefficient >= 0.0 &&
            (forall j :: 0 <= j < |projection.leverArms| ==> projection.leverArms[j] >= 0.0) ==>
              var maximum := MaximumTwistImpulse(projection.premultipliedFrictionCoefficient, accumulated'.penetration, projection.leverArms);
              maximum >= 0.0 && -maximum <= accumulated'.twist <= maximum
    ensures TangentClamps(primitives) && projection.premultipliedFrictionCoefficient == 0.0 ==> WithinDisc(accumulated'.tangent, 0.0)
    ensures TwistClamps(primitives) && projection.premultipliedFrictionCoefficient == 0.0 ==> accumulated'.twist == 0.0
  {
    var basis := primitives.basis(projection.normal);
    var x, z := basis.0, basis.1;
    var maximumTangentImpulse := WrittenOutTangentBudget(projection.premultipliedFrictionCoefficient, accumulated.penetration);
    var tangent := primitives.tangentSolve(x, z, projection.tangent, projection.inertiaA, projection.inertiaB,
                                           maximumTangentImpulse, accumulated.tangent, velocities);
    // Penetration is solved after friction, so it has the last word in this iteration.
    var penetration := primitives.penetrationSolve(projection.penetration, projection.inertiaA, projection.inertiaB,
                                                   projection.normal, accumulated.penetration, tangent.1);
    var maximumTwistImpulse := WrittenOutTwistBudget(projection.premultipliedFrictionCoefficient, penetration.0, projection.leverArms);
    var twist := primitives.twistSolve(projection.normal, projection.inertiaA, projection.inertiaB, projection.twist,
                                       maximumTwistImpulse, accumulated.twist, penetration.1);
    velocities' := twist.1;
    accumulated' := AccumulatedImpulses(tangent.0, penetration.0, twist.0);
    if PenetrationNonNegative(primitives) && projection.premultipliedFrictionCoefficient >= 0.0 &&
       (forall j :: 0 <= j < |projection.leverArms| ==> projection.leverArms[j] >= 0.0) {
      LeverSumNonNegative(penetration.0, projection.leverArms);
    }
  }

  // ---------------------------------------------------------------------------------------
  // Properties relating the prestep to the budgets of the solve.

  /** Every lever arm is a distance, so none is negative. */
  lemma LeverArmsNonNegative(inertiaA: BodyInertias, inertiaB: BodyInertias, prestep: Description, dt: real, inverseDt: real,
                             primitives: Primitives)
    requires 1 <= |prestep.contacts| <= 4 && IsDistance(primitives.distance)
    ensures var arms := Prestep(inertiaA, inertiaB, prestep, dt, inverseDt, primitives).leverArms;
            forall j :: 0 <= j < |arms| ==> arms[j] >= 0.0
  {
  }

  /**
    One contact: tangent friction acts at the contact itself, the coefficient is not scaled, the
    lever arm is zero and so is the twist budget, whatever the penetration impulse.
   */
  lemma SingleContactPrestep(inertiaA: BodyInertias, inertiaB: BodyInertias, prestep: Description, dt: real, inverseDt: real,
                             primitives: Primitives, penetration: seq<real>)
    requires |prestep.contacts| == 1 && |penetration| == 1 && IsDistance(primitives.distance)
    ensures var projection := Prestep(inertiaA, inertiaB, prestep, dt, inverseDt, primitives);
            var offsetA0 := prestep.contacts[0].offsetA;
            var basis := primitives.basis(prestep.normal);
            projection.tangent == primitives.tangentPrestep(basis.0, basis.1, offsetA0, Sub(offsetA0, prestep.offsetB), inertiaA, inertiaB) &&
            projection.premultipliedFrictionCoefficient == prestep.frictionCoefficient &&
            projection.leverArms == [0.0] &&
            MaximumTwistImpulse(projection.premultipliedFrictionCoefficient, penetration, projection.leverArms) == 0.0
  {
    var projection := Prestep(inertiaA, inertiaB, prestep, dt, inverseDt, primitives);
    SingleContactCenter(prestep.contacts[0].offsetA, prestep.contacts[0].penetrationDepth);
    assert ContactOffsets(prestep.contacts) == [prestep.contacts[0].offsetA];
    assert Depths(prestep.contacts) == [prestep.contacts[0].penetrationDepth];
    assert projection.leverArms == [0.0];
    LeverSumSteps(penetration, projection.leverArms);
    assert penetration[0] * 0.0 == 0.0;
  }

  /** With a friction coefficient of zero both budgets are zero, whatever the impulses and arms. */
  lemma ZeroFrictionZeroBudgets(penetration: seq<real>, leverArms: seq<real>)
    requires 1 <= |penetration| <= 4 && |leverArms| == |penetration|
    ensures PremultipliedFrictionCoefficient(0.0, |penetration|) == 0.0
    ensures MaximumTangentImpulse(PremultipliedFrictionCoefficient(0.0, |penetration|), penetration) == 0.0
    ensures MaximumTwistImpulse(PremultipliedFrictionCoefficient(0.0, |penetration|), penetration, leverArms) == 0.0
  {
  }

  /**
    The tangent budget is the friction coefficient times the mean penetration impulse: sharing
    the coefficient out over N contacts and summing N impulses gives back one coefficient.
   */
  lemma TangentBudgetIsCoefficientTimesMean(frictionCoefficient: real, penetration: seq<real>)
    requires 1 <= |penetration| <= 4
    ensures MaximumTangentImpulse(PremultipliedFrictionCoefficient(frictionCoefficient, |penetration|), penetration)
              * |penetration| as real
            == frictionCoefficient * SumReals(penetration)
  {
    var k, n, s := PremultipliedFrictionCoefficient(frictionCoefficient, |penetration|), |penetration| as real, SumReals(penetration);
    calc {
      (k * s) * n;
      (k * n) * s;
      frictionCoefficient * s;
    }
  }

  /** Σ p_j × l_j ≤ L × Σ p_j when every impulse is non-negative and every arm is at most L. */
  lemma {:induction false} LeverSumAtMost(impulses: seq<real>, leverArms: seq<real>, longest: real)
    requires |impulses| == |leverArms|
    requires forall j :: 0 <= j < |impulses| ==> impulses[j] >= 0.0 && leverArms[j] <= longest
    ensures LeverWeightedSum(impulses, leverArms) <= longest * SumReals(impulses)
  {
    if |impulses| > 0 {
      LeverSumAtMost(impulses[1..], leverArms[1..], longest);
      assert impulses[0] * leverArms[0] <= impulses[0] * longest by {
        assert impulses[0] * (longest - leverArms[0]) >= 0.0;
      }
    }
  }

  lemma {:induction false} LeverSumNonNegative(impulses: seq<real>, leverArms: seq<real>)
    requires |impulses| == |leverArms|
    requires forall j :: 0 <= j < |impulses| ==> impulses[j] >= 0.0 && leverArms[j] >= 0.0
    ensures LeverWeightedSum(impulses, leverArms) >= 0.0
  {
    if |impulses| > 0 {
      LeverSumNonNegative(impulses[1..], leverArms[1..]);
      assert impulses[0] * leverArms[0] >= 0.0;
    }
  }

  /**
    With non-negative impulses and a non-negative coefficient, both budgets are non-negative,
    and the twist budget is at most the longest lever arm times the tangent budget the same
    impulses would give.
   */
  lemma TwistBudgetBounded(premultipliedFrictionCoefficient: real, penetration: seq<real>, leverArms: seq<real>, longest: real)
    requires |penetration| == |leverArms| && premultipliedFrictionCoefficient >= 0.0
    requires forall j :: 0 <= j < |penetration| ==> penetration[j] >= 0.0 && 0.0 <= leverArms[j] <= longest
    ensures MaximumTwistImpulse(premultipliedFrictionCoefficient, penetration, leverArms) >= 0.0
    ensures MaximumTwistImpulse(premultipliedFrictionCoefficient, penetration, leverArms)
            <= longest * MaximumTangentImpulse(premultipliedFrictionCoefficient, penetration)
  {
    LeverSumNonNegative(penetration, leverArms);
    LeverSumAtMost(penetration, leverArms, longest);
    var k := premultipliedFrictionCoefficient;
    assert k * LeverWeightedSum(penetration, leverArms) <= k * (longest * SumReals(penetration)) by {
      assert k * (longest * SumReals(penetration) - LeverWeightedSum(penetration, leverArms)) >= 0.0;
    }
  }
}
