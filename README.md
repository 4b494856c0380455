# Convex contact constraints of BepuPhysics, modelled in Dafny

BepuPhysics solves a convex contact manifold of one to four contacts with one of four
size-specialised constraint types, `Contact1` .. `Contact4`
(`BepuPhysics/Constraints/Contact/ContactConvexTypes.cs`). This project models what that file
does itself, one SIMD lane at a time and over the reals:

- `vectors.dfy` (module `Vectors`): one lane of `Vector3Wide`; sums; the distance as a parameter.
- `friction_center.dfy` (module `Weighting`): the friction-centre rule of `ComputeFrictionCenter`.
  A contact with depth ≥ 0 is active and weighs 1, a speculative one (depth < 0) weighs 0. The
  weights are normalised, or all become 1/N when no contact is active. The centre is the weighted
  sum of the offsets. The rule is stated once for any N (`FrictionCenter`) and instantiated per
  size as the source writes it (`ComputeFrictionCenter2/3/4`).
- `type_processors.dfy` (module `TypeProcessors`): the batch type ids 4, 5, 6, 7.
- `descriptions.dfy` (module `Descriptions`): the descriptions and their place in a type batch's
  prestep buffer. The buffer is a flat `array<real>` of bundles. Each bundle is a structure of
  arrays: one row of W lanes per scalar field, in struct field order. A `Vector3Wide` is three
  rows X, Y, Z and `SpringSettingsWide` is S rows, with S a parameter. `ApplyDescription` writes
  one lane of one bundle in place. `BuildDescription` reads one back. `CopyManifoldWideProperties`
  sets the shared fields.
- `contact_solve.dfy` (module `ContactSolve`): `Prestep`, `WarmStart` and `Solve` of
  `ContactNFunctions`. The primitive constraints they call are passed in as function values.
  The model fixes the contact code's own work: the friction centre seen from A and from B, the
  lever arms, the premultiplied friction coefficient, the order of the calls, and which
  accumulated impulses bound tangent and twist friction.

The N-field structs of the source (`OffsetA0` .. `OffsetA3`, `PenetrationDepth0` ..,
`LeverArm0` .., `Penetration0` ..) become sequences of length N.

`Solve` computes the tangent bound from the penetration impulses as they stand *before* this
iteration's penetration solve, and the twist bound from those *after* it; `ContactSolve.Solve`
states both.

## Model

| member | source | states |
|---|---|---|
| Weighting.Weight | BepuPhysics/Constraints/Contact/ContactConvexTypes.cs:291-292 | a contact weighs 1 exactly when its depth is ≥ 0 (depth 0 included) and 0 exactly when it is speculative |
| Weighting.RawWeights | BepuPhysics/Constraints/Contact/ContactConvexTypes.cs:291-292 | one weight per contact: 1 for an active contact, 0 for a speculative one |
| Weighting.WeightSum | BepuPhysics/Constraints/Contact/ContactConvexTypes.cs:293-293 | the sum of the raw weights, which counts the active contacts |
| Weighting.NormalizedWeights | BepuPhysics/Constraints/Contact/ContactConvexTypes.cs:293-298 | each raw weight times the inverse weight sum, or 1/N for every contact when the sum is 0; its properties are `ActiveWeights` and `WeightsSumToOne` |
| Weighting.FrictionCenter | BepuPhysics/Constraints/Contact/ContactConvexTypes.cs:291-301 | the weighting rule for any N: the sum of each offset scaled by its normalised weight; its properties are the lemmas below and the per-size functions equal it |
| Weighting.ActiveCenterIsMean | BepuPhysics/Constraints/Contact/ContactConvexTypes.cs:291-301 | when some contact is active, the centre is the mean of the offsets of the active contacts |
| Weighting.ActiveWeights | BepuPhysics/Constraints/Contact/ContactConvexTypes.cs:293-298 | when k ≥ 1 contacts are active, each active contact's weight is 1/k and each speculative one's is 0 |
| Weighting.FallbackCenterIsMean | BepuPhysics/Constraints/Contact/ContactConvexTypes.cs:294-298 | when every contact is speculative, every weight is 1/N (no division by zero) and the centre is the mean of all offsets |
| Weighting.WeightsSumToOne | BepuPhysics/Constraints/Contact/ContactConvexTypes.cs:293-298 | the normalised weights are non-negative and sum to 1, in both branches |
| Weighting.SpeculativeOffsetIgnored | BepuPhysics/Constraints/Contact/ContactConvexTypes.cs:496-510 | when some contact is active, moving a speculative contact changes nothing in the centre |
| Weighting.TwoActiveTwoSpeculative | BepuPhysics/Constraints/Contact/ContactConvexTypes.cs:718-736 | four contacts, the first two active: the centre is the midpoint of the two active offsets |
| Weighting.SingleContactCenter | BepuPhysics/Constraints/Contact/ContactConvexTypes.cs:119-123 | for one contact the general rule gives that contact's offset, which is what the one-contact prestep uses directly |
| Weighting.ComputeFrictionCenter2 | BepuPhysics/Constraints/Contact/ContactConvexTypes.cs:284-302 | the two-contact computation, with its fallback constant 2, equals the general rule for N = 2 |
| Weighting.ComputeFrictionCenter3 | BepuPhysics/Constraints/Contact/ContactConvexTypes.cs:489-511 | the three-contact computation, with its fallback constant 3, equals the general rule for N = 3 |
| Weighting.ComputeFrictionCenter4 | BepuPhysics/Constraints/Contact/ContactConvexTypes.cs:711-737 | the four-contact computation, pairwise summed, equals the general rule for N = 4 |
| TypeProcessors.ConstraintTypeId | BepuPhysics/Constraints/Contact/ContactConvexTypes.cs:64-68 | a description's type id is its processor's `BatchTypeId`: 4, 5, 6 or 7, with id − 3 equal to the contact count |
| TypeProcessors.TypeIdsDistinct | BepuPhysics/Constraints/Contact/ContactConvexTypes.cs:165-170 | distinct contact counts have distinct type ids |
| Descriptions.Layout.SlotCount | BepuPhysics/Constraints/Contact/ContactConvexTypes.cs:660-680 | rows per bundle of `ContactNPrestepData`: 3N offset rows, 3 + 1 + 3 shared rows, S spring rows, 1 recovery row, N depth rows |
| Descriptions.Layout.OffsetASlot | BepuPhysics/Constraints/Contact/ContactConvexTypes.cs:665-668 | OffsetA_j component c is row 3j + c, the first fields of the struct |
| Descriptions.Layout.OffsetBSlot | BepuPhysics/Constraints/Contact/ContactConvexTypes.cs:669-669 | OffsetB component c is row 3N + c |
| Descriptions.Layout.FrictionSlot | BepuPhysics/Constraints/Contact/ContactConvexTypes.cs:670-670 | the friction coefficient is row 3N + 3 |
| Descriptions.Layout.NormalSlot | BepuPhysics/Constraints/Contact/ContactConvexTypes.cs:672-672 | normal component c is row 3N + 4 + c |
| Descriptions.Layout.SpringSlot | BepuPhysics/Constraints/Contact/ContactConvexTypes.cs:674-674 | spring value k is row 3N + 7 + k |
| Descriptions.Layout.MaximumRecoveryVelocitySlot | BepuPhysics/Constraints/Contact/ContactConvexTypes.cs:675-675 | the maximum recovery velocity is row 3N + 7 + S |
| Descriptions.Layout.DepthSlot | BepuPhysics/Constraints/Contact/ContactConvexTypes.cs:676-679 | PenetrationDepth_j is row 3N + 8 + S + j, the last fields of the struct |
| Descriptions.Layout.Address | BepuPhysics/Constraints/Contact/ContactConvexTypes.cs:597-597 | `Buffer<T>.Get(bundleIndex)` then `GetOffsetInstance(innerIndex)`: position (bundle × rows + row) × W + lane, which lies inside its bundle's block of the buffer |
| Descriptions.Layout.InLane | BepuPhysics/Constraints/Contact/ContactConvexTypes.cs:597-597 | a buffer position belongs to lane innerIndex of bundle bundleIndex exactly when its lane and bundle match |
| Descriptions.Layout.FourContact | BepuPhysics/Constraints/Contact/ContactConvexTypes.cs:40-40 | the four-contact layout with the same spring width and lane count, the layout Contact1..3 read through |
| Descriptions.TypeBatch.constructor | BepuPhysics/Constraints/Contact/ContactConvexTypes.cs:22-23 | a type batch holds its type id and its prestep buffer |
| Descriptions.LaneImage | BepuPhysics/Constraints/Contact/ContactConvexTypes.cs:594-615 | the values `ApplyDescription` stores in one lane, row by row in struct field order; `LaneImageSlots` states where each field lands |
| Descriptions.Decode | BepuPhysics/Constraints/Contact/ContactConvexTypes.cs:617-638 | reads each field from its row; `DecodeLaneImage` and `LaneImageDecode` make it the inverse of `LaneImage` |
| Descriptions.Gather | BepuPhysics/Constraints/Contact/ContactConvexTypes.cs:617-638 | the values of one lane of one bundle, row k taken from `Address(bundle, k, lane)`: what `BuildDescription` reads |
| Descriptions.Scatter | BepuPhysics/Constraints/Contact/ContactConvexTypes.cs:594-615 | the buffer after storing a lane: positions of that lane take the values of their rows, every other position keeps its value; `GatherScatter` and `ScatterKeepsOtherLanes` state both halves |
| Descriptions.WriteEachContact | BepuPhysics/Constraints/Contact/ContactConvexTypes.cs:598-605 | stores each contact's offset, then its depth, into its rows, as far as the partial store of the first N contacts |
| Descriptions.WriteFrame | BepuPhysics/Constraints/Contact/ContactConvexTypes.cs:607-611 | stores OffsetB, the friction coefficient and the normal into their rows |
| Descriptions.WriteSprings | BepuPhysics/Constraints/Contact/ContactConvexTypes.cs:613-614 | stores the spring settings row by row, then the maximum recovery velocity |
| Descriptions.LaneImageSlots | BepuPhysics/Constraints/Contact/ContactConvexTypes.cs:660-680 | each field of a description lands in the row its struct field order gives it: offsets, OffsetB, friction, normal, spring settings, recovery velocity, then the depths |
| Descriptions.DecodeLaneImage | BepuPhysics/Constraints/Contact/ContactConvexTypes.cs:442-460 | reading a lane's rows back gives the description stored there |
| Descriptions.LaneImageDecode | BepuPhysics/Constraints/Contact/ContactConvexTypes.cs:241-257 | every row of a lane belongs to exactly one field, so storing a decoded lane reproduces it |
| Descriptions.AddressInjective | BepuPhysics/Constraints/Contact/ContactConvexTypes.cs:23-23 | distinct (bundle, row, lane) positions of the buffer never overlap |
| Descriptions.ScatterKeepsOtherLanes | BepuPhysics/Constraints/Contact/ContactConvexTypes.cs:183-200 | storing into one lane of one bundle leaves every other lane of every bundle as it was |
| Descriptions.GatherScatter | BepuPhysics/Constraints/Contact/ContactConvexTypes.cs:380-399 | reading a lane right after storing into it returns exactly what was stored |
| Descriptions.ApplyDescription | BepuPhysics/Constraints/Contact/ContactConvexTypes.cs:594-615 | given a batch of the description's type, the new buffer is the old one with lane innerIndex of bundle bundleIndex replaced by the description's rows and nothing else changed |
| Descriptions.BuildDescription | BepuPhysics/Constraints/Contact/ContactConvexTypes.cs:617-638 | read-only; returns the description of the right shape whose rows are exactly those of the lane |
| Descriptions.RoundTrip | BepuPhysics/Constraints/Contact/ContactConvexTypes.cs:594-638 | reading a lane back with the layout it was written with reproduces the stored description, for every N |
| Descriptions.ApplyKeepsOtherDescriptions | BepuPhysics/Constraints/Contact/ContactConvexTypes.cs:20-35 | storing a description changes the description read from no other lane or bundle |
| Descriptions.BuildDescriptionAsWritten | BepuPhysics/Constraints/Contact/ContactConvexTypes.cs:37-52 | the read as the engine writes it for every N goes through the four-contact layout; contact j's depth comes from row DepthSlot(j) of that layout |
| Descriptions.FourContactReadAsWritten | BepuPhysics/Constraints/Contact/ContactConvexTypes.cs:617-620 | for Contact4 the read as written is the read with its own layout, so its round trip holds |
| Descriptions.AsWrittenReadsStaleDepth | BepuPhysics/Constraints/Contact/ContactConvexTypes.cs:202-207 | for N < 4, after storing a description, the depth read back as written is the buffer's old value at a position the store never touches |
| Descriptions.AsWrittenRoundTripFails | BepuPhysics/Constraints/Contact/ContactConvexTypes.cs:401-406 | for N < 4 the round trip as written fails whenever that stale position differs from the stored first depth |
| Descriptions.AsWrittenContact1MisreadsOffsetB | BepuPhysics/Constraints/Contact/ContactConvexTypes.cs:40-44 | for Contact1 with two spring rows, in bundle 0 and any lane, OffsetB.X read back as written is the stored maximum recovery velocity |
| Descriptions.AsWrittenContact1Counterexample | BepuPhysics/Constraints/Contact/ContactConvexTypes.cs:37-44 | a Contact1 with depth 1 and recovery velocity 2 stored into a zeroed buffer of 104 values (four lanes, two spring rows) reads back with depth 0 and OffsetB.X = 2 |
| Descriptions.CopyManifoldWideProperties | BepuPhysics/Constraints/Contact/ContactConvexTypes.cs:641-648 | sets OffsetB, the normal and the three material fields, and leaves the contacts untouched |
| ContactSolve.MaximumTangentImpulse | BepuPhysics/Constraints/Contact/ContactConvexTypes.cs:779-780 | the tangent bound: premultiplied coefficient × the sum of the accumulated penetration impulses (also 146-147, 340-341, 551-552) |
| ContactSolve.MaximumTwistImpulse | BepuPhysics/Constraints/Contact/ContactConvexTypes.cs:791-795 | the twist bound: premultiplied coefficient × Σ penetration impulse × lever arm (also 155-156, 350-352, 562-565) |
| ContactSolve.LeverWeightedSum | BepuPhysics/Constraints/Contact/ContactConvexTypes.cs:792-795 | Σ impulse_j × lever arm_j over the contacts |
| ContactSolve.ManifoldCenter | BepuPhysics/Constraints/Contact/ContactConvexTypes.cs:745-746 | the offset to the manifold centre the prestep computes (contact 0 for one contact, `ComputeFrictionCenter` otherwise) is the general friction centre |
| ContactSolve.PremultipliedFrictionCoefficient | BepuPhysics/Constraints/Contact/ContactConvexTypes.cs:747-747 | the premultiplied coefficient is the coefficient shared out over N contacts: N times it is the coefficient |
| ContactSolve.Prestep | BepuPhysics/Constraints/Contact/ContactConvexTypes.cs:739-758 | tangent friction is set up at the friction centre seen from A and at centre − OffsetB from B; lever arm j is the distance from contact j to the centre; the coefficient is premultiplied; inertias and normal are passed through |
| ContactSolve.SingleContactPrestep | BepuPhysics/Constraints/Contact/ContactConvexTypes.cs:113-129 | for one contact tangent friction acts at OffsetA0, the coefficient is unscaled, the lever arm is exactly 0 and so is the twist budget |
| ContactSolve.LeverArmsNonNegative | BepuPhysics/Constraints/Contact/ContactConvexTypes.cs:753-756 | every lever arm is a distance, hence non-negative |
| ContactSolve.WarmStart | BepuPhysics/Constraints/Contact/ContactConvexTypes.cs:761-773 | the velocities are updated by the tangent, then the penetration, then the twist warm start; with primitives whose warm starts are neutral at zero impulse, all-zero accumulated impulses leave the velocities unchanged |
| ContactSolve.WrittenOutTangentBudget | BepuPhysics/Constraints/Contact/ContactConvexTypes.cs:779-780 | the per-size bound premult × (Penetration0 + ..) is premult × the sum of the penetration impulses |
| ContactSolve.WrittenOutTwistBudget | BepuPhysics/Constraints/Contact/ContactConvexTypes.cs:791-795 | the per-size bound premult × (Penetration0 × LeverArm0 + ..) is premult × Σ impulse × lever arm |
| ContactSolve.Solve | BepuPhysics/Constraints/Contact/ContactConvexTypes.cs:776-797 | tangent friction is bounded by the penetration impulses from before the penetration solve, twist friction by those after it; the new impulses and velocities are the composition of the three primitive solves in that order; with clamping primitives the new tangent and twist impulses lie within their bounds, and both vanish at zero friction |
| ContactSolve.TangentBudgetIsCoefficientTimesMean | BepuPhysics/Constraints/Contact/ContactConvexTypes.cs:551-552 | N times the tangent bound is the friction coefficient times the summed penetration impulse: the bound is coefficient × mean impulse |
| ContactSolve.ZeroFrictionZeroBudgets | BepuPhysics/Constraints/Contact/ContactConvexTypes.cs:340-352 | with a friction coefficient of 0 both bounds are 0 |
| ContactSolve.TwistBudgetBounded | BepuPhysics/Constraints/Contact/ContactConvexTypes.cs:562-565 | with non-negative impulses and coefficient and arms in [0, L], the twist bound is non-negative and at most L × the tangent bound of the same impulses |

## Left out

- Primitive constraints: the numerics of `TangentFriction`, `PenetrationLimitN` and `TwistFriction` (prestep, warm start, solve) are not in this file. They are function values, with predicates for what the contact code relies on (the penetration solve keeps the impulse count; clamping; impulses stay non-negative).
- `Helpers.BuildOrthnormalBasis` is not part of this model: it is a function value.
- `Vector3Wide.Distance` needs a square root: it is a function value, assumed non-negative and zero from a point to itself where a lemma needs it.
- `BodyInertias`, `BodyVelocities`, `Bodies`, `TwoBodyReferences`: inertias and velocities are opaque values passed through; bodies and body references are unused by this code.
- SIMD and floating point: one lane at a time, over the reals; no IEEE rounding, no `ConditionalSelect` masks.
- `GatherScatter.GetOffsetInstance` / `GetFirst` and the `Vector3Wide` / `SpringSettingsWide` write and read helpers are not part of this model: they address lane innerIndex of each field row. `Vector3Wide` is taken as three rows X, Y, Z and `SpringSettingsWide` as S rows.
- `TypeBatch` allocation, `TwoBodyTypeProcessor` batching, the scheduler and multithreading: infrastructure outside this file. `TypeBatch` keeps only its type id and prestep buffer.
- `BatchType` (a reflection `Type` handle) carries no behaviour to model.
- The `Debug.Assert` on the batch type is a precondition of `Descriptions.ApplyDescription` and `Descriptions.BuildDescription`.
- `Descriptions.BuildDescriptionAsWritten` requires the whole four-contact bundle to lie inside the buffer; an engine read past the end of the buffer is not modelled.
- ContactSolve.Solve: at zero friction the new tangent impulse is stated as lying in the disc of radius 0 (its squared length is at most 0), not as an equation with the zero vector.

## Findings

| source | as written | input that shows it | evidently intended | confidence | as-written member | corrected member |
|---|---|---|---|---|---|---|
| BepuPhysics/Constraints/Contact/ContactConvexTypes.cs:40 | `Contact1`/`Contact2`/`Contact3.BuildDescription` read the bundle as `Contact4PrestepData` (also lines 205 and 404), while `ApplyDescription` writes it as `ContactNPrestepData`: bundle stride and every row after the offsets differ (proved here for the depths and for OffsetB.X) | Contact1, S = 2, four lanes, bundle 0, lane 0, zeroed buffer of 104 floats, contact depth 1, recovery velocity 2: the depth read back is 0 (the untouched position 88) and OffsetB.X read back is 2 | read through the N-contact layout, so that reading back what was written returns it | not executed | `Descriptions.AsWrittenContact1Counterexample` | `Descriptions.BuildDescription` |
