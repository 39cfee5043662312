/** `services/verification_service.py`: the satellite MRV verification of a
    claim once its NDVI readings are known. The readings, the preview image
    path and the formatted texts are inputs; the decision, the stored
    verification, the claim's new status and the evidence trail are
    modelled. */
module VerificationService {
  import opened Wrappers
  import opened Uuids
  import opened ClaimModel
  import opened VerificationModel
  import opened AiVerdictModel
  import opened CarbonEstimation
  import opened AiConsistencyService
  import opened ClaimService
  import opened EvidenceService
  import opened Strings

  /** The NDVI means and their change for the baseline and monitoring
      periods; `None` stands for a missing, non-numeric or NaN reading. */
  datatype NdviReadings = NdviReadings(baseline: Option<real>, monitoring: Option<real>, delta: Option<real>)

  /** The reasons `verify_claim` raises. */
  datatype VerifyError =
    | NoLocation
    | NoGeometry
    | UnsupportedGeometry
    | InsufficientNdvi
    | InvalidArea
    | ConsistencyFailed(cause: ConsistencyError)

  /** The decision of one verification: the raw AI estimate, the outcome,
      the verified impact, the confidence bucket and the claim's new status. */
  datatype Assessment = Assessment(
    aiMin: real, aiMax: real, delta: real, area: real,
    outcome: VerificationOutcome, impact: VerifiedCarbonImpact,
    confidence: ConfidenceLevel, newStatus: ClaimStatus)

  /** The texts the service formats from the numbers: the MRV analysis, the
      rejection reason, the consistency explanation and the consistency
      evidence description. */
  datatype Narrative = Narrative(
    mrvAnalysis: string, failureReason: string, consistencyExplanation: string, consistencyDescription: string)

  /** Fresh `uuid4()` values for the records one verification creates. */
  datatype FreshIds = FreshIds(verificationId: Uuid, mrvEvidenceId: Uuid, consistencyEvidenceId: Uuid)

  const VerifierId := "system-satellite-mrv"
  const ConsistencyTitle := "AI Claim Consistency Verdict"
  const ConsistencyRefPrefix := "ai-consistency://claim-"

  function AbsReal(x: real): real { if x < 0.0 then -x else x }

  /** The confidence bucket of an NDVI change, the same in both branches. */
  function ConfidenceFor(delta: real): (c: ConfidenceLevel)
    ensures c == HIGH <==> AbsReal(delta) > 0.15
    ensures c == MEDIUM <==> 0.05 < AbsReal(delta) <= 0.15
    ensures c == LOW <==> AbsReal(delta) <= 0.05
  {
    if AbsReal(delta) > 0.15 then HIGH
    else if AbsReal(delta) > 0.05 then MEDIUM
    else LOW
  }

  datatype ArithmeticError = DivisionByZero

  /** The deviation of the verified point estimate from the claim's
      midpoint, in percent, as written: the division by the midpoint is
      unguarded and raises when the claimed bounds sum to zero. */
  function DeviationAsWritten(point: real, cMin: real, cMax: real): (r: Result<real, ArithmeticError>)
    ensures r.Failure? <==> cMin + cMax == 0.0
    ensures r.Success? ==> r.value * ((cMin + cMax) / 2.0) == (point - (cMin + cMax) / 2.0) * 100.0
  {
    var mid := (cMin + cMax) / 2.0;
    if mid == 0.0 then Failure(DivisionByZero)
    else
      var d := ((point - mid) / mid) * 100.0;
      assert d * mid == (point - mid) * 100.0 by { DivMul(point - mid, mid); }
      Success(d)
  }

  lemma DivMul(x: real, y: real)
    requires y != 0.0
    ensures (x / y) * 100.0 * y == x * 100.0
  {
    assert (x / y) * y == x;
  }

  /** The corrected deviation: no figure when the claim's midpoint is zero,
      as the record's optional field allows, and otherwise the figure the
      code computes. */
  function DeviationFromClaim(point: real, cMin: real, cMax: real): (d: Option<real>)
    ensures d.None? <==> cMin + cMax == 0.0
    ensures d.Some? ==> d.value * ((cMin + cMax) / 2.0) == (point - (cMin + cMax) / 2.0) * 100.0
    ensures DeviationAsWritten(point, cMin, cMax).Success? ==> d == Some(DeviationAsWritten(point, cMin, cMax).value)
  {
    match DeviationAsWritten(point, cMin, cMax)
    case Success(v) => Some(v)
    case Failure(_) => None
  }

  /** A claimant who declares the range 0..0, or any range whose bounds sum
      to zero, makes the positive branch of the code as written raise,
      whatever the satellite shows. */
  lemma ZeroMidpointRaises(point: real, c: real)
    ensures DeviationAsWritten(point, -c, c) == Failure(DivisionByZero)
    ensures DeviationFromClaim(point, -c, c).None?
  {
  }

  function Clamp0(x: real): (r: real)
    ensures r >= 0.0 && r >= x && (x >= 0.0 ==> r == x)
  {
    if x >= 0.0 then x else 0.0
  }

  function Midpoint(x: real, y: real): real { (x + y) / 2.0 }

  /** The decision part of `verify_claim`: the checks that raise before
      anything is written, then the branch on `ai_mrv_max > 0`. */
  function Assess(claim: Claim, ndvi: NdviReadings): (r: Result<Assessment, VerifyError>)
    ensures claim.location.None? ==> r == Failure(NoLocation)
    ensures claim.location.Some? && claim.geometry.None? ==> r == Failure(NoGeometry)
    ensures r.Success? <==>
      && claim.location.Some? && claim.geometry.Some?
      && KindOf(claim.geometry.value) in {PolygonKind, MultiPolygonKind}
      && ndvi.baseline.Some? && ndvi.monitoring.Some? && ndvi.delta.Some?
      && claim.areaHectares.Some? && claim.areaHectares.value > 0.0
    ensures r.Success? ==>
      var a := r.value;
      && a.delta == ndvi.delta.value && a.area == claim.areaHectares.value
      && a.aiMin == EstimateCo2eFromNdviDelta(a.delta, a.area).minTonnes
      && a.aiMax == EstimateCo2eFromNdviDelta(a.delta, a.area).maxTonnes
      && a.confidence == ConfidenceFor(a.delta) && a.impact.confidence == a.confidence
      && (a.outcome == VerificationOutcome.APPROVED <==> a.aiMax > 0.0)
      && (a.outcome == VerificationOutcome.REJECTED <==> a.aiMax <= 0.0)
      && (a.newStatus == AI_VERIFIED <==> a.outcome == VerificationOutcome.APPROVED)
      && (a.newStatus == AI_REJECTED <==> a.outcome == VerificationOutcome.REJECTED)
      && 0.0 <= a.impact.minTonnes <= a.impact.maxTonnes
      && a.impact.pointEstimate.Some?
      && a.impact.minTonnes <= a.impact.pointEstimate.value <= a.impact.maxTonnes
    ensures r.Success? && r.value.aiMax <= 0.0 ==>
      r.value.impact == VerifiedCarbonImpact(0.0, 0.0, Some(0.0), r.value.confidence, None)
    ensures r.Success? && r.value.aiMax > 0.0 ==>
      var a := r.value;
      && a.impact.minTonnes == 0.9 * a.aiMin && a.impact.maxTonnes == 0.9 * a.aiMax
      && a.impact.pointEstimate == Some((a.impact.minTonnes + a.impact.maxTonnes) / 2.0)
      && a.impact.deviationPercent
         == DeviationFromClaim(a.impact.pointEstimate.value, claim.estimate.minTonnes, claim.estimate.maxTonnes)
  {
    if claim.location.None? then Failure(NoLocation)
    else if claim.geometry.None? then Failure(NoGeometry)
    else if KindOf(claim.geometry.value) !in {PolygonKind, MultiPolygonKind} then Failure(UnsupportedGeometry)
    else if ndvi.baseline.None? || ndvi.monitoring.None? || ndvi.delta.None? then Failure(InsufficientNdvi)
    else if claim.areaHectares.None? || claim.areaHectares.value <= 0.0 then Failure(InvalidArea)
    else
      var delta := ndvi.delta.value;
      var area := claim.areaHectares.value;
      var est := EstimateCo2eFromNdviDelta(delta, area);
      var confidence := ConfidenceFor(delta);
      EstimateSign(delta, area);
      if !(est.maxTonnes > 0.0) then
        var impact := VerifiedCarbonImpact(0.0, Clamp0(est.maxTonnes), Some(0.0), confidence, None);
        Success(Assessment(est.minTonnes, est.maxTonnes, delta, area, VerificationOutcome.REJECTED,
                           impact, confidence, AI_REJECTED))
      else
        var vMin := est.minTonnes * 0.9;
        var vMax := est.maxTonnes * 0.9;
        var point := (vMin + vMax) / 2.0;
        var deviation := DeviationFromClaim(point, claim.estimate.minTonnes, claim.estimate.maxTonnes);
        var impact :=
          if vMin < 0.0 || vMax < 0.0 then
            VerifiedCarbonImpact(Clamp0(vMin), Clamp0(vMax), Some(Midpoint(Clamp0(vMin), Clamp0(vMax))),
                                 confidence, deviation)
          else VerifiedCarbonImpact(vMin, vMax, Some(point), confidence, deviation);
        Success(Assessment(est.minTonnes, est.maxTonnes, delta, area, VerificationOutcome.APPROVED,
                           impact, confidence, AI_VERIFIED))
  }

  /** Over a positive area, a verification is approved exactly when the
      vegetation index grew, and the verified impact is positive then. */
  lemma {:induction false} ApprovedIffGrowth(claim: Claim, ndvi: NdviReadings)
    requires Assess(claim, ndvi).Success?
    ensures Assess(claim, ndvi).value.outcome == VerificationOutcome.APPROVED <==> ndvi.delta.value > 0.0
    ensures ndvi.delta.value > 0.0 ==>
      0.0 < Assess(claim, ndvi).value.impact.minTonnes < Assess(claim, ndvi).value.impact.maxTonnes
  {
    var a := Assess(claim, ndvi).value;
    EstimateSign(a.delta, a.area);
  }

  /** Where the code as written raises: a claim whose declared bounds sum to
      zero, verified over vegetation growth, is approved here with no
      deviation figure, while the unguarded division fails on the same
      point estimate. */
  lemma {:induction false} AssessAtZeroMidpoint(claim: Claim, ndvi: NdviReadings)
    requires Assess(claim, ndvi).Success? && ndvi.delta.value > 0.0
    requires claim.estimate.minTonnes + claim.estimate.maxTonnes == 0.0
    ensures Assess(claim, ndvi).value.outcome == VerificationOutcome.APPROVED
    ensures Assess(claim, ndvi).value.newStatus == AI_VERIFIED
    ensures Assess(claim, ndvi).value.impact.deviationPercent.None?
    ensures DeviationAsWritten(Assess(claim, ndvi).value.impact.pointEstimate.value,
                               claim.estimate.minTonnes, claim.estimate.maxTonnes) == Failure(DivisionByZero)
  {
    ApprovedIffGrowth(claim, ndvi);
  }

  /** `verify_claim` looks at the claim's location, geometry, area and
      estimate, never at its status: the same readings give the same
      decision whatever stage the claim has reached. */
  lemma AssessIgnoresStatus(claim: Claim, ndvi: NdviReadings, s: ClaimStatus)
    ensures Assess(claim.(status := s), ndvi) == Assess(claim, ndvi)
  {
  }

  /** With no status guard, verifying a MINTED or REJECTED claim again
      moves it back to AI_VERIFIED or AI_REJECTED, a step outside the
      governed flow and back to an earlier stage. */
  lemma ReverifyLeavesGovernedFlow(claim: Claim, ndvi: NdviReadings)
    requires claim.status == MINTED || claim.status == ClaimStatus.REJECTED
    requires Assess(claim, ndvi).Success?
    ensures Assess(claim, ndvi).value.newStatus == AI_VERIFIED || Assess(claim, ndvi).value.newStatus == AI_REJECTED
    ensures !GovernedStep(claim.status, Assess(claim, ndvi).value.newStatus)
    ensures Stage(Assess(claim, ndvi).value.newStatus) < Stage(claim.status)
  {
  }

  /** The stored record of a completed verification. */
  function VerificationRecord(id: Uuid, claimId: Uuid, a: Assessment, now: Time): (v: VerificationResult)
    ensures v.id == id && v.claimId == claimId && v.status == COMPLETED
    ensures v.outcome == Some(a.outcome) && v.verifiedImpact == Some(a.impact)
    ensures v.overallConfidence == a.confidence && v.completedAt == Some(now)
  {
    VerificationResult(id, claimId, COMPLETED, Some(a.outcome), Some(a.impact), a.confidence, now, Some(now),
                       Some(VerifierId))
  }

  /** The MRV evidence's confidence word for a bucket; a bucket outside the
      map reads as "medium". */
  function ConfidenceWord(c: ConfidenceLevel): string {
    match c
    case LOW => "low"
    case MEDIUM => "medium"
    case HIGH => "high"
    case VERY_LOW => "medium"
  }

  /** The MRV evidence's weight follows the confidence bucket: 0.4 for LOW,
      0.9 for HIGH, 0.7 otherwise. */
  lemma MrvWeightOfConfidence(c: ConfidenceLevel)
    ensures ConfidenceWeight(ConfidenceWord(c)) == (if c == LOW then 0.4 else if c == HIGH then 0.9 else 0.7)
  {
    var w := ConfidenceWord(c);
    assert AsciiLower(w) == w;
  }

  /** The consistency evidence's weight for a confidence score. */
  function ConsistencyWeight(score: real): (w: real)
    ensures w == 0.85 <==> score >= 0.7
    ensures w == 0.65 <==> 0.4 <= score < 0.7
    ensures w == 0.45 <==> score < 0.4
  {
    if score >= 0.7 then 0.85 else if score >= 0.4 then 0.65 else 0.45
  }

  /** `max(0.0, min(1.0, s))` */
  function Clamp01(s: real): (r: real)
    ensures 0.0 <= r <= 1.0
    ensures 0.0 <= s <= 1.0 ==> r == s
  {
    if s < 0.0 then 0.0 else if s > 1.0 then 1.0 else s
  }

  /** The preview image path, or the Earth Engine reference without one. */
  function MrvDataRef(claimId: Uuid, preview: Option<string>): (r: Option<string>)
    ensures r.Some?
    ensures preview.Some? && preview.value != "" ==> r == preview
  {
    if preview.Some? && preview.value != "" then preview else Some(GeeRefPrefix + UuidText(claimId))
  }

  /** The MRV record keeps the preview path, stripped and cut to 1000
      characters, when there is a non-blank one, and the claim's satellite
      reference otherwise. */
  lemma MrvRefFollowsPreview(claimId: Uuid, preview: Option<string>, analysis: string,
                             failureReason: Option<string>, ref: string, description: string)
    requires MrvFields(claimId, analysis, MrvDataRef(claimId, preview), failureReason, ref, description)
    ensures preview.Some? && Strip(preview.value, Whitespace) != "" ==>
      ref == Take(Strip(preview.value, Whitespace), MaxDataRef)
    ensures (preview.None? || Strip(preview.value, Whitespace) == "") ==> ref == GeeRefPrefix + UuidText(claimId)
  {
    var gee := GeeRefPrefix + UuidText(claimId);
    if preview.None? || preview.value == "" {
      assert MrvDataRef(claimId, preview) == Some(gee);
      var last := gee[|gee| - 1];
      assert last == UuidText(claimId)[35];
      assert HexValue(last).Some?;
      assert last !in Whitespace;
      assert gee[0] !in Whitespace;
      StripKeeps(gee, Whitespace);
    }
  }

  /** Every stored verification is completed, with an outcome and a verified
      impact whose bounds are ordered and not negative. */
  predicate SoundVerification(v: VerificationResult) {
    && v.status == COMPLETED && v.outcome.Some? && v.verifiedImpact.Some?
    && 0.0 <= v.verifiedImpact.value.minTonnes <= v.verifiedImpact.value.maxTonnes
    && v.verifiedImpact.value.pointEstimate.Some?
    && v.verifiedImpact.value.minTonnes <= v.verifiedImpact.value.pointEstimate.value <= v.verifiedImpact.value.maxTonnes
  }

  /** The writes `verify_claim` makes once the assessment `a` of claim
      `claimId` has succeeded, from the stores before (verifications `v0`,
      claims `c0`, consistency results `k0`, evidence `e0`) to the stores
      after (`v1`, `c1`, `k1`, `e1`), with `r` its answer: the verification
      is stored, the claim takes the new status and points at it, the MRV
      record is appended; a rejection stops there, an approval goes on to
      the consistency evaluation and, when that succeeds, its record. The
      MRV record's reference comes from the preview path `preview` and its
      description from the analysis text, with the rejection reason on the
      negative branch. */
  ghost predicate RecordedVerification(v0: map<Uuid, VerificationResult>, c0: map<Uuid, Claim>,
                                       k0: map<Uuid, AIConsistencyResult>, e0: seq<Evidence>,
                                       v1: map<Uuid, VerificationResult>, c1: map<Uuid, Claim>,
                                       k1: map<Uuid, AIConsistencyResult>, e1: seq<Evidence>,
                                       claimId: Uuid, a: Assessment, preview: Option<string>, texts: Narrative,
                                       ids: FreshIds, now: Time, r: Result<VerificationResult, VerifyError>)
    requires claimId in c0
  {
    var v := VerificationRecord(ids.verificationId, claimId, a, now);
    var updated := c0[claimId].(status := a.newStatus, verificationId := Some(ids.verificationId), updatedAt := now);
    var n := |e0|;
    && v1 == v0[ids.verificationId := v]
    && c1 == c0[claimId := updated]
    && |e1| > n && e1[..n] == e0
    && MrvRecord(e1[n], claimId, a, preview, texts, ids.mrvEvidenceId, now)
    && (a.outcome == VerificationOutcome.REJECTED ==> r == Success(v) && k1 == k0 && |e1| == n + 1)
    && (a.outcome == VerificationOutcome.APPROVED ==>
          var c := Evaluate(updated, a.aiMin, a.aiMax, Some(a.delta), Some(a.area), texts.consistencyExplanation, now);
          && (c.Failure? ==> r == Failure(ConsistencyFailed(c.error)) && k1 == k0 && |e1| == n + 1)
          && (c.Success? ==>
                && r == Success(v) && k1 == k0[claimId := c.value]
                && |e1| == n + 2
                && ConsistencyRecord(e1[n + 1], claimId, texts, c.value.confidenceScore, ids.consistencyEvidenceId, now)))
  }

  /** The approval branch of `RecordedVerification`, from the writes made
      in order: verification, claim, MRV record, consistency result and
      record. */
  lemma ApprovalRecorded(v0: map<Uuid, VerificationResult>, c0: map<Uuid, Claim>,
                         k0: map<Uuid, AIConsistencyResult>, e0: seq<Evidence>,
                         v1: map<Uuid, VerificationResult>, c1: map<Uuid, Claim>,
                         k1: map<Uuid, AIConsistencyResult>, e1: seq<Evidence>,
                         claimId: Uuid, a: Assessment, preview: Option<string>, texts: Narrative,
                         ids: FreshIds, now: Time, mrv: Evidence, c: AIConsistencyResult, added: Evidence)
    requires claimId in c0 && a.outcome != VerificationOutcome.REJECTED
    requires v1 == v0[ids.verificationId := VerificationRecord(ids.verificationId, claimId, a, now)]
    requires c1 == c0[claimId := c0[claimId].(status := a.newStatus, verificationId := Some(ids.verificationId), updatedAt := now)]
    requires Evaluate(c1[claimId], a.aiMin, a.aiMax, Some(a.delta), Some(a.area), texts.consistencyExplanation, now) == Success(c)
    requires k1 == k0[claimId := c]
    requires e1 == e0 + [mrv] + [added]
    requires MrvRecord(mrv, claimId, a, preview, texts, ids.mrvEvidenceId, now)
    requires ConsistencyRecord(added, claimId, texts, c.confidenceScore, ids.consistencyEvidenceId, now)
    ensures RecordedVerification(v0, c0, k0, e0, v1, c1, k1, e1, claimId, a, preview, texts, ids, now,
                                 Success(VerificationRecord(ids.verificationId, claimId, a, now)))
  {
    var n := |e0|;
    assert e1[..n] == e0 && e1[n] == mrv && e1[n + 1] == added;
  }

  /** The MRV record `verify_claim` appends for assessment `a`: a SYSTEM_AI
      record from "system" for the claim, stamped `now`, weighted by the
      confidence word, its reference taken from the preview path and its
      description from the analysis (with the rejection reason on the
      negative branch). */
  ghost predicate MrvRecord(e: Evidence, claimId: Uuid, a: Assessment, preview: Option<string>, texts: Narrative,
                            id: Uuid, now: Time)
  {
    && e.id == id && e.claimId == claimId
    && e.evType == SYSTEM_AI && e.source == "system" && e.title == MrvTitle && e.createdAt == now
    && e.confidenceWeight == ConfidenceWeight(ConfidenceWord(a.confidence))
    && MrvFields(claimId, texts.mrvAnalysis, MrvDataRef(claimId, preview),
                 if a.outcome == VerificationOutcome.REJECTED then Some(texts.failureReason) else None,
                 e.dataRef, e.description)
  }

  /** The consistency record `verify_claim` appends on the positive branch:
      a SYSTEM_AI record from "system" for the claim, stamped `now`, with
      the consistency description, the `ai-consistency://claim-<id>`
      reference and a weight from the evaluation's score. */
  ghost predicate ConsistencyRecord(e: Evidence, claimId: Uuid, texts: Narrative, score: real, id: Uuid, now: Time)
  {
    && e.id == id && e.claimId == claimId
    && e.evType == SYSTEM_AI && e.source == "system" && e.createdAt == now
    && e.description == texts.consistencyDescription
    && e.dataRef == ConsistencyRefPrefix + UuidText(claimId)
    && e.title == ConsistencyTitle
    && e.confidenceWeight == ConsistencyWeight(score)
  }

  /** The SYSTEM_AI record describing a consistency evaluation of the
      claim, weighted by the evaluation's confidence score. */
  function ConsistencyEvidence(claimId: Uuid, texts: Narrative, score: real): (sub: EvidenceSubmission)
    ensures sub.claimId == claimId && sub.evType == SYSTEM_AI && sub.source == "system"
    ensures sub.title == ConsistencyTitle && sub.confidenceWeight == ConsistencyWeight(score)
    ensures sub.description == texts.consistencyDescription
    ensures sub.dataRef == ConsistencyRefPrefix + UuidText(claimId)
  {
    EvidenceSubmission(claimId, SYSTEM_AI, "system", ConsistencyTitle, texts.consistencyDescription,
                       ConsistencyRefPrefix + UuidText(claimId), ConsistencyWeight(score))
  }

  /** `verifications_db`, keyed by verification id. */
  class VerificationStore {
    var verifications: map<Uuid, VerificationResult>

    ghost predicate Valid()
      reads this
    {
      forall id :: id in verifications ==> verifications[id].id == id && SoundVerification(verifications[id])
    }

    constructor ()
      ensures verifications == map[] && Valid()
    {
      verifications := map[];
    }

    /** `get_verification_by_id` */
    function GetVerificationById(id: Uuid): (r: Option<VerificationResult>)
      reads this
      ensures r.Some? <==> id in verifications
      ensures r.Some? ==> r.value == verifications[id]
      ensures r.Some? && Valid() ==> r.value.id == id && SoundVerification(r.value)
    {
      if id in verifications then Some(verifications[id]) else None
    }

    /** The writes both branches make first: the verification is stored
        under its id, and the claim takes the new status and points at it. */
    method RecordAssessment(claims: ClaimStore, claimId: Uuid, a: Assessment, vid: Uuid, now: Time)
      returns (v: VerificationResult, updated: Claim)
      requires Valid() && claims.Valid() && claimId in claims.claims && vid !in verifications
      requires 0.0 <= a.impact.minTonnes <= a.impact.maxTonnes && a.impact.pointEstimate.Some?
      requires a.impact.minTonnes <= a.impact.pointEstimate.value <= a.impact.maxTonnes
      modifies this, claims
      ensures Valid() && claims.Valid()
      ensures v == VerificationRecord(vid, claimId, a, now)
      ensures updated == old(claims.claims[claimId]).(status := a.newStatus, verificationId := Some(vid), updatedAt := now)
      ensures verifications == old(verifications)[vid := v]
      ensures claims.claims == old(claims.claims)[claimId := updated]
    {
      v := VerificationRecord(vid, claimId, a, now);
      verifications := verifications[vid := v];
      updated := claims.claims[claimId].(status := a.newStatus, verificationId := Some(vid), updatedAt := now);
      claims.claims := claims.claims[claimId := updated];
    }

    /** `verify_claim`, from its consistency evaluation on: the evaluation is
        stored, its score clamped into [0, 1] (which changes nothing, the
        score being in range already) and a consistency evidence record
        appended. */
    method RecordConsistency(consistency: ConsistencyStore, evidence: EvidenceStore, claim: Claim, a: Assessment,
                             texts: Narrative, evidenceId: Uuid, now: Time)
      returns (c: Result<AIConsistencyResult, ConsistencyError>)
      requires consistency.Valid() && evidence.Valid() && !evidence.HasId(evidenceId)
      modifies consistency, evidence
      ensures consistency.Valid() && evidence.Valid()
      ensures c == Evaluate(claim, a.aiMin, a.aiMax, Some(a.delta), Some(a.area), texts.consistencyExplanation, now)
      ensures c.Failure? ==> consistency.results == old(consistency.results) && evidence.records == old(evidence.records)
      ensures c.Success? ==>
        && consistency.results == old(consistency.results)[claim.id := c.value]
        && evidence.records == old(evidence.records) +
             [Stamped(ConsistencyEvidence(claim.id, texts, c.value.confidenceScore), evidenceId, now, evidence.digest)]
    {
      c := consistency.EvaluateClaimConsistency(claim, a.aiMin, a.aiMax, Some(a.delta), Some(a.area),
                                                texts.consistencyExplanation, now);
      if c.Failure? {
        return;
      }
      var result := c.value;
      var score := Clamp01(result.confidenceScore);
      result := result.(confidenceScore := score);
      consistency.results := consistency.results[claim.id := result];
      var e := evidence.CreateEvidence(ConsistencyEvidence(claim.id, texts, score), evidenceId, now);
    }

    /** `verify_claim` for the claim stored under `claimId`. Failed checks
        raise before any write. Otherwise the verification is stored, the
        claim is moved to AI_VERIFIED or AI_REJECTED and points at it, and
        the MRV evidence is appended; on the positive branch the claim is
        then evaluated for consistency (which may still raise, after those
        writes) and a consistency evidence record is appended. */
    method VerifyClaim(claims: ClaimStore, consistency: ConsistencyStore, evidence: EvidenceStore,
                       claimId: Uuid, ndvi: NdviReadings, preview: Option<string>, texts: Narrative,
                       ids: FreshIds, now: Time)
      returns (r: Result<VerificationResult, VerifyError>)
      requires Valid() && claims.Valid() && consistency.Valid() && evidence.Valid()
      requires claimId in claims.claims
      requires ids.verificationId !in verifications
      requires !evidence.HasId(ids.mrvEvidenceId) && !evidence.HasId(ids.consistencyEvidenceId)
      requires ids.mrvEvidenceId != ids.consistencyEvidenceId
      modifies this, claims, consistency, evidence
      ensures Valid() && claims.Valid() && consistency.Valid() && evidence.Valid()
      ensures Assess(old(claims.claims[claimId]), ndvi).Failure? ==>
        && r == Failure(Assess(old(claims.claims[claimId]), ndvi).error)
        && verifications == old(verifications) && claims.claims == old(claims.claims)
        && consistency.results == old(consistency.results) && evidence.records == old(evidence.records)
      ensures Assess(old(claims.claims[claimId]), ndvi).Success? ==>
        RecordedVerification(old(verifications), old(claims.claims), old(consistency.results), old(evidence.records),
                             verifications, claims.claims, consistency.results, evidence.records,
                             claimId, Assess(old(claims.claims[claimId]), ndvi).value, preview, texts, ids, now, r)
    {
      var assessed := Assess(claims.claims[claimId], ndvi);
      if assessed.Failure? {
        return Failure(assessed.error);
      }
      r := RecordVerification(claims, consistency, evidence, claimId, assessed.value, preview, texts, ids, now);
    }

    /** The writes `verify_claim` makes on both branches: the verification
        is stored, the claim moved on, and the MRV record appended. */
    method RecordMrv(claims: ClaimStore, evidence: EvidenceStore, claimId: Uuid, a: Assessment,
                     preview: Option<string>, texts: Narrative, ids: FreshIds, now: Time)
      returns (v: VerificationResult, updated: Claim, mrv: Evidence)
      requires Valid() && claims.Valid() && evidence.Valid()
      requires claimId in claims.claims
      requires ids.verificationId !in verifications
      requires !evidence.HasId(ids.mrvEvidenceId) && !evidence.HasId(ids.consistencyEvidenceId)
      requires ids.mrvEvidenceId != ids.consistencyEvidenceId
      requires 0.0 <= a.impact.minTonnes <= a.impact.maxTonnes && a.impact.pointEstimate.Some?
      requires a.impact.minTonnes <= a.impact.pointEstimate.value <= a.impact.maxTonnes
      modifies this, claims, evidence
      ensures Valid() && claims.Valid() && evidence.Valid()
      ensures v == VerificationRecord(ids.verificationId, claimId, a, now)
      ensures updated == old(claims.claims[claimId]).(status := a.newStatus, verificationId := Some(ids.verificationId), updatedAt := now)
      ensures verifications == old(verifications)[ids.verificationId := v]
      ensures claims.claims == old(claims.claims)[claimId := updated]
      ensures evidence.records == old(evidence.records) + [mrv]
      ensures MrvRecord(mrv, claimId, a, preview, texts, ids.mrvEvidenceId, now)
      ensures !evidence.HasId(ids.consistencyEvidenceId)
    {
      v, updated := RecordAssessment(claims, claimId, a, ids.verificationId, now);
      var failure := if a.outcome == VerificationOutcome.REJECTED then Some(texts.failureReason) else None;
      mrv := evidence.CreateAiMrvEvidence(claimId, texts.mrvAnalysis, ConfidenceWord(a.confidence),
                                          MrvDataRef(claimId, preview), failure, ids.mrvEvidenceId, now);
    }

    /** `verify_claim` once the assessment `a` of the stored claim has
        succeeded: the verification is stored, the claim is moved on and
        points at it, and the MRV evidence is appended; on the positive
        branch the claim is then evaluated for consistency (which may still
        raise, after those writes) and a consistency evidence record is
        appended. */
    method RecordVerification(claims: ClaimStore, consistency: ConsistencyStore, evidence: EvidenceStore,
                              claimId: Uuid, a: Assessment, preview: Option<string>, texts: Narrative,
                              ids: FreshIds, now: Time)
      returns (r: Result<VerificationResult, VerifyError>)
      requires Valid() && claims.Valid() && consistency.Valid() && evidence.Valid()
      requires claimId in claims.claims
      requires ids.verificationId !in verifications
      requires !evidence.HasId(ids.mrvEvidenceId) && !evidence.HasId(ids.consistencyEvidenceId)
      requires ids.mrvEvidenceId != ids.consistencyEvidenceId
      requires 0.0 <= a.impact.minTonnes <= a.impact.maxTonnes && a.impact.pointEstimate.Some?
      requires a.impact.minTonnes <= a.impact.pointEstimate.value <= a.impact.maxTonnes
      modifies this, claims, consistency, evidence
      ensures Valid() && claims.Valid() && consistency.Valid() && evidence.Valid()
      ensures RecordedVerification(old(verifications), old(claims.claims), old(consistency.results), old(evidence.records),
                                   verifications, claims.claims, consistency.results, evidence.records,
                                   claimId, a, preview, texts, ids, now, r)
    {
      ghost var v0, c0, k0, before := verifications, claims.claims, consistency.results, evidence.records;
      var v, updated, mrv := RecordMrv(claims, evidence, claimId, a, preview, texts, ids, now);
      if a.outcome == VerificationOutcome.REJECTED {
        return Success(v);
      }
      var c := RecordConsistency(consistency, evidence, updated, a, texts, ids.consistencyEvidenceId, now);
      if c.Failure? {
        return Failure(ConsistencyFailed(c.error));
      }
      ghost var added := Stamped(ConsistencyEvidence(claimId, texts, c.value.confidenceScore),
                                 ids.consistencyEvidenceId, now, evidence.digest);
      r := Success(v);
      ApprovalRecorded(v0, c0, k0, before, verifications, claims.claims, consistency.results, evidence.records,
                       claimId, a, preview, texts, ids, now, mrv, c.value, added);
    }
  }
}
