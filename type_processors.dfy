/**
  The type processors of the four convex contact constraints and the type identifiers they
  register with the solver's batches. A description's `ConstraintTypeId` is its processor's
  `BatchTypeId`; the outer solver stores these numbers, so they are fixed.
 */
module TypeProcessors {

  const Contact1BatchTypeId: int := 4
  const Contact2BatchTypeId: int := 5
  const Contact3BatchTypeId: int := 6
  const Contact4BatchTypeId: int := 7

  /** `ContactN.ConstraintTypeId`, which returns `ContactNTypeProcessor.BatchTypeId`. */
  function ConstraintTypeId(contactCount: nat): (id: int)
    requires 1 <= contactCount <= 4
    ensures 4 <= id <= 7
    ensures id - 3 == contactCount
  {
    if contactCount == 1 then Contact1BatchTypeId
    else if contactCount == 2 then Contact2BatchTypeId
    else if contactCount == 3 then Contact3BatchTypeId
    else Contact4BatchTypeId
  }

  /** Distinct sizes have distinct identifiers, so a batch's id determines its contact count. */
  lemma TypeIdsDistinct(n: nat, m: nat)
    requires 1 <= n <= 4 && 1 <= m <= 4
    ensures ConstraintTypeId(n) == ConstraintTypeId(m) <==> n == m
  {
  }
}
