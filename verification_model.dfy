/** The verification records of `models/verification.py`. */
module VerificationModel {
  import opened Wrappers
  import opened Uuids
  import opened ClaimModel

  datatype VerificationStatus = PENDING | IN_PROGRESS | COMPLETED | FAILED

  datatype VerificationOutcome = APPROVED | REJECTED | NEEDS_REVIEW | INCONCLUSIVE

  datatype ConfidenceLevel = HIGH | MEDIUM | LOW | VERY_LOW

  /** An independently verified range; unlike the claimant's range it may
      be negative. */
  datatype VerifiedCarbonImpact = VerifiedCarbonImpact(
    minTonnes: real,
    maxTonnes: real,
    pointEstimate: Option<real>,
    confidence: ConfidenceLevel,
    deviationPercent: Option<real>)

  datatype ImpactError = VerifiedMinAboveMax

  /** Pydantic's construction of a `VerifiedCarbonImpact`: only a lower
      bound above the upper bound is refused. */
  function NewVerifiedCarbonImpact(minTonnes: real, maxTonnes: real, point: Option<real>,
                                   confidence: ConfidenceLevel, deviation: Option<real>): (r: Result<VerifiedCarbonImpact, ImpactError>)
    ensures r.Success? <==> minTonnes <= maxTonnes
    ensures r.Success? ==> r.value == VerifiedCarbonImpact(minTonnes, maxTonnes, point, confidence, deviation)
  {
    if minTonnes > maxTonnes then Failure(VerifiedMinAboveMax)
    else Success(VerifiedCarbonImpact(minTonnes, maxTonnes, point, confidence, deviation))
  }

  datatype VerificationResult = VerificationResult(
    id: Uuid,
    claimId: Uuid,
    status: VerificationStatus,
    outcome: Option<VerificationOutcome>,
    verifiedImpact: Option<VerifiedCarbonImpact>,
    overallConfidence: ConfidenceLevel,
    createdAt: Time,
    completedAt: Option<Time>,
    verifierId: Option<string>)

  /** A verification built with the model's defaults: PENDING, no outcome,
      no impact yet and MEDIUM overall confidence. */
  function NewVerificationResult(id: Uuid, claimId: Uuid, now: Time): (r: VerificationResult)
    ensures r.status == PENDING && r.outcome.None? && r.verifiedImpact.None?
    ensures r.overallConfidence == MEDIUM && r.completedAt.None?
    ensures r.id == id && r.claimId == claimId
  {
    VerificationResult(id, claimId, PENDING, None, None, MEDIUM, now, None, None)
  }
}
