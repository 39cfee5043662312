/** The consistency verdict records of `models/ai_verdict.py`. */
module AiVerdictModel {
  import opened Wrappers
  import opened Uuids
  import opened ClaimModel

  datatype AIVerdict = STRONGLY_SUPPORTS | PARTIALLY_SUPPORTS | CONTRADICTS

  datatype AIConsistencyResult = AIConsistencyResult(
    claimId: Uuid,
    claimedMin: real,
    claimedMax: real,
    estimatedMin: real,
    estimatedMax: real,
    deviationPercent: real,
    verdict: AIVerdict,
    confidenceScore: real,
    explanation: string,
    createdAt: Time)

  datatype ResultFieldError = NegativeBound | ConfidenceOutOfRange | ExplanationTooShort

  /** The field constraints of a consistency result: all four range bounds
      non-negative, a confidence score within [0, 1] and an explanation of at
      least ten characters. */
  predicate ValidConsistencyResult(r: AIConsistencyResult) {
    && r.claimedMin >= 0.0 && r.claimedMax >= 0.0
    && r.estimatedMin >= 0.0 && r.estimatedMax >= 0.0
    && 0.0 <= r.confidenceScore <= 1.0
    && |r.explanation| >= 10
  }

  /** Pydantic's construction of an `AIConsistencyResult`. */
  function NewConsistencyResult(r: AIConsistencyResult): (res: Result<AIConsistencyResult, ResultFieldError>)
    ensures res.Success? <==> ValidConsistencyResult(r)
    ensures res.Success? ==> res.value == r
  {
    if r.claimedMin < 0.0 || r.claimedMax < 0.0 || r.estimatedMin < 0.0 || r.estimatedMax < 0.0 then
      Failure(NegativeBound)
    else if !(0.0 <= r.confidenceScore <= 1.0) then Failure(ConfidenceOutOfRange)
    else if |r.explanation| < 10 then Failure(ExplanationTooShort)
    else Success(r)
  }
}
