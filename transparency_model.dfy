/** The public transparency records of `models/transparency.py`. */
module TransparencyModel {
  import opened Wrappers
  import opened Uuids
  import opened ClaimModel
  import opened AiVerdictModel

  /** One entry of a claim's public timeline; `source` is "AI",
      "Authority", "Community" or "System". */
  datatype TimelineEvent = TimelineEvent(
    timestamp: Time,
    eventType: string,
    title: string,
    description: string,
    source: string)

  /** The public form of a consistency verdict. The two ranges are shown as
      formatted text in the source; here they keep their numbers. */
  datatype AIVerdictSummary = AIVerdictSummary(
    verdict: AIVerdict,
    claimedMin: real,
    claimedMax: real,
    aiMin: real,
    aiMax: real,
    deviationPercent: real,
    confidenceScore: real,
    explanation: string)

  datatype SummaryError = SummaryConfidenceOutOfRange

  /** Pydantic's construction of an `AIVerdictSummary`: the confidence
      score must lie within [0, 1]. */
  function NewAIVerdictSummary(s: AIVerdictSummary): (r: Result<AIVerdictSummary, SummaryError>)
    ensures r.Success? <==> 0.0 <= s.confidenceScore <= 1.0
    ensures r.Success? ==> r.value == s
  {
    if 0.0 <= s.confidenceScore <= 1.0 then Success(s) else Failure(SummaryConfidenceOutOfRange)
  }

  datatype HealthStatus = HEALTHY | DEGRADED | INVALIDATED

  /** Why a health status was given: the reason text of the source is
      built from these values. */
  datatype HealthReason =
    | FullyBurned
    | Degradation(remainingPercent: real, remaining: real, amount: real)
    | ActiveCredit

  datatype CreditHealthStatus = CreditHealthStatus(status: HealthStatus, reason: HealthReason)

  datatype TransparencyReport = TransparencyReport(
    claimId: Uuid,
    timeline: seq<TimelineEvent>,
    aiVerdict: Option<AIVerdictSummary>,
    creditHealth: Option<CreditHealthStatus>)

  /** A report with the defaults of the record: an empty timeline, no
      verdict and no credit health. */
  function EmptyReport(claimId: Uuid): (r: TransparencyReport)
    ensures r.claimId == claimId && r.timeline == [] && r.aiVerdict.None? && r.creditHealth.None?
  {
    TransparencyReport(claimId, [], None, None)
  }
}
