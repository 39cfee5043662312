/** `services/ai_consistency_service.py`: compares the claimant's CO2e range
    with the range the satellite analysis estimates, gives a verdict, a
    midpoint deviation and a heuristic confidence score, and keeps the
    latest result per claim. */
module AiConsistencyService {
  import opened Wrappers
  import opened Uuids
  import opened ClaimModel
  import opened AiVerdictModel

  function Max(x: real, y: real): real { if x >= y then x else y }
  function Min(x: real, y: real): real { if x <= y then x else y }

  /** One range lies inside the other. */
  predicate Nested(cMin: real, cMax: real, aMin: real, aMax: real) {
    (aMin <= cMin && aMax >= cMax) || (cMin <= aMin && cMax >= aMax)
  }

  /** The two ranges share at least one point. */
  predicate Intersect(cMin: real, cMax: real, aMin: real, aMax: real) {
    !(aMax < cMin || aMin > cMax)
  }

  /** Intersection length over union length, 0 when the union is a single point. */
  function OverlapRatio(cMin: real, cMax: real, aMin: real, aMax: real): real {
    var inter := Max(0.0, Min(cMax, aMax) - Max(cMin, aMin));
    var union := Max(cMax, aMax) - Min(cMin, aMin);
    if union > 0.0 then inter / union else 0.0
  }

  datatype VerdictAndRatio = VerdictAndRatio(verdict: AIVerdict, ratio: real)

  /** `_determine_verdict`: nested ranges strongly support the claim,
      intersecting ranges partially support it, disjoint ranges contradict
      it; the overlap ratio is intersection over union and lies in [0, 1]. */
  function DetermineVerdict(cMin: real, cMax: real, aMin: real, aMax: real): (v: VerdictAndRatio)
    requires cMin <= cMax && aMin <= aMax
    ensures v.verdict == STRONGLY_SUPPORTS <==> Nested(cMin, cMax, aMin, aMax)
    ensures v.verdict == PARTIALLY_SUPPORTS <==> Intersect(cMin, cMax, aMin, aMax) && !Nested(cMin, cMax, aMin, aMax)
    ensures v.verdict == CONTRADICTS <==> aMax < cMin || aMin > cMax
    ensures 0.0 <= v.ratio <= 1.0
    ensures v.verdict == CONTRADICTS ==> v.ratio == 0.0
    ensures v.verdict == PARTIALLY_SUPPORTS ==> v.ratio < 1.0
    ensures v.verdict != CONTRADICTS ==> v.ratio == OverlapRatio(cMin, cMax, aMin, aMax)
  {
    if Nested(cMin, cMax, aMin, aMax) then
      RatioBounds(cMin, cMax, aMin, aMax);
      VerdictAndRatio(STRONGLY_SUPPORTS, OverlapRatio(cMin, cMax, aMin, aMax))
    else if Intersect(cMin, cMax, aMin, aMax) then
      RatioBounds(cMin, cMax, aMin, aMax);
      VerdictAndRatio(PARTIALLY_SUPPORTS, OverlapRatio(cMin, cMax, aMin, aMax))
    else
      VerdictAndRatio(CONTRADICTS, 0.0)
  }

  /** The overlap ratio of two well-formed ranges is a fraction, and it is
      below one when neither range holds the other. */
  lemma {:induction false} RatioBounds(cMin: real, cMax: real, aMin: real, aMax: real)
    requires cMin <= cMax && aMin <= aMax
    ensures 0.0 <= OverlapRatio(cMin, cMax, aMin, aMax) <= 1.0
    ensures !Nested(cMin, cMax, aMin, aMax) ==> OverlapRatio(cMin, cMax, aMin, aMax) < 1.0
  {
    var inter := Max(0.0, Min(cMax, aMax) - Max(cMin, aMin));
    var union := Max(cMax, aMax) - Min(cMin, aMin);
    assert 0.0 <= inter <= union;
    if union > 0.0 {
      DivFraction(inter, union);
      if !Nested(cMin, cMax, aMin, aMax) {
        assert inter < union;
      }
    }
  }

  lemma DivFraction(x: real, y: real)
    requires 0.0 <= x <= y && y > 0.0
    ensures 0.0 <= x / y <= 1.0
    ensures x < y ==> x / y < 1.0
  {
  }

  /** The verdict does not depend on which range is the claim's. */
  lemma VerdictSymmetric(cMin: real, cMax: real, aMin: real, aMax: real)
    requires cMin <= cMax && aMin <= aMax
    ensures DetermineVerdict(cMin, cMax, aMin, aMax) == DetermineVerdict(aMin, aMax, cMin, cMax)
  {
  }

  /** NDVI factor of the confidence score; None is neutral. */
  function NdviFactor(ndviDelta: Option<real>): real {
    if ndviDelta.None? then 0.2
    else if ndviDelta.value > 0.15 then 0.4
    else if ndviDelta.value >= 0.10 then 0.3
    else if ndviDelta.value >= 0.05 then 0.2
    else 0.1
  }

  /** Area factor of the confidence score; None is neutral. */
  function AreaFactor(area: Option<real>): real {
    if area.None? then 0.15
    else if area.value > 100.0 then 0.3
    else if area.value >= 50.0 then 0.2
    else if area.value >= 10.0 then 0.1
    else 0.05
  }

  /** Overlap factor of the confidence score. */
  function OverlapFactor(ratio: real): real {
    if ratio > 0.8 then 0.3
    else if ratio >= 0.5 then 0.2
    else if ratio >= 0.2 then 0.1
    else 0.05
  }

  /** `_calculate_confidence_score`: the three factors added and clamped to
      [0, 1]. The clamp never bites: the sum already lies in [0.2, 1]. */
  function ConfidenceScore(ndviDelta: Option<real>, area: Option<real>, ratio: real): (s: real)
    ensures 0.2 <= s <= 1.0
    ensures s == NdviFactor(ndviDelta) + AreaFactor(area) + OverlapFactor(ratio)
  {
    var total := NdviFactor(ndviDelta) + AreaFactor(area) + OverlapFactor(ratio);
    Max(0.0, Min(1.0, total))
  }

  /** More vegetation gain, a larger area or more overlap never lowers the score. */
  lemma ConfidenceMonotone(d1: real, d2: real, a1: real, a2: real, r1: real, r2: real)
    requires d1 <= d2 && a1 <= a2 && r1 <= r2
    ensures ConfidenceScore(Some(d1), Some(a1), r1) <= ConfidenceScore(Some(d2), Some(a2), r2)
  {
  }

  /** The score reaches 1 exactly when every factor is at its top band. */
  lemma ConfidenceTop(d: real, a: real, r: real)
    ensures ConfidenceScore(Some(d), Some(a), r) == 1.0 <==> d > 0.15 && a > 100.0 && r > 0.8
  {
  }

  /** Midpoint deviation in percent, 0 when the claim's midpoint is not positive. */
  function DeviationPercent(cMin: real, cMax: real, aMin: real, aMax: real): (d: real)
    ensures (cMin + cMax) / 2.0 <= 0.0 ==> d == 0.0
    ensures (cMin + cMax) / 2.0 > 0.0 ==> (d > 0.0 <==> aMin + aMax > cMin + cMax)
    ensures (cMin + cMax) / 2.0 > 0.0 ==> (d == 0.0 <==> aMin + aMax == cMin + cMax)
    ensures (cMin + cMax) / 2.0 > 0.0 ==> d == 100.0 * ((aMin + aMax) / (cMin + cMax) - 1.0)
    ensures (cMin + cMax) / 2.0 > 0.0 && aMin + aMax >= 0.0 ==> d >= -100.0
  {
    var claimMid := (cMin + cMax) / 2.0;
    var aiMid := (aMin + aMax) / 2.0;
    if claimMid > 0.0 then
      ShiftedQuotient(aiMid, claimMid);
      HalvesQuotient(aMin + aMax, cMin + cMax);
      (aiMid - claimMid) / claimMid * 100.0
    else 0.0
  }

  lemma ShiftedQuotient(x: real, y: real)
    requires y > 0.0
    ensures (x - y) / y == x / y - 1.0
  {
    assert (x / y) * y == x;
    assert (x / y - 1.0) * y == x - y;
    assert ((x - y) / y) * y == x - y;
    CancelFactor((x - y) / y, x / y - 1.0, y);
  }

  lemma CancelFactor(a: real, b: real, y: real)
    requires y > 0.0 && a * y == b * y
    ensures a == b
  {
    assert (a - b) * y == 0.0;
  }

  lemma HalvesQuotient(x: real, y: real)
    requires y > 0.0
    ensures (x / 2.0) / (y / 2.0) == x / y
  {
    assert (x / y) * (y / 2.0) == x / 2.0;
    assert ((x / 2.0) / (y / 2.0)) * (y / 2.0) == x / 2.0;
    CancelFactor((x / 2.0) / (y / 2.0), x / y, y / 2.0);
  }

  datatype ConsistencyError =
    | InvalidClaimRange
    | InvalidAiRange
    | InvalidResult(field: ResultFieldError)

  /** `evaluate_claim_consistency` without its storage: the ranges are
      checked, the verdict, deviation and score computed, and the record
      validated. `explanation` is the text `_generate_explanation` writes. */
  function Evaluate(claim: Claim, aMin: real, aMax: real, ndviDelta: Option<real>, area: Option<real>,
                    explanation: string, now: Time): (r: Result<AIConsistencyResult, ConsistencyError>)
    ensures claim.estimate.minTonnes > claim.estimate.maxTonnes ==> r == Failure(InvalidClaimRange)
    ensures claim.estimate.minTonnes <= claim.estimate.maxTonnes && aMin > aMax ==> r == Failure(InvalidAiRange)
    ensures r.Success? ==> ValidConsistencyResult(r.value) && r.value.claimId == claim.id
    ensures r.Success? <==>
      && claim.estimate.minTonnes <= claim.estimate.maxTonnes && aMin <= aMax
      && claim.estimate.minTonnes >= 0.0 && aMin >= 0.0 && |explanation| >= 10
    ensures r.Success? ==>
      && r.value.verdict == DetermineVerdict(claim.estimate.minTonnes, claim.estimate.maxTonnes, aMin, aMax).verdict
      && r.value.deviationPercent == DeviationPercent(claim.estimate.minTonnes, claim.estimate.maxTonnes, aMin, aMax)
      && r.value.confidenceScore == ConfidenceScore(ndviDelta, area,
           DetermineVerdict(claim.estimate.minTonnes, claim.estimate.maxTonnes, aMin, aMax).ratio)
      && r.value.claimedMin == claim.estimate.minTonnes && r.value.claimedMax == claim.estimate.maxTonnes
      && r.value.estimatedMin == aMin && r.value.estimatedMax == aMax
  {
    var cMin := claim.estimate.minTonnes;
    var cMax := claim.estimate.maxTonnes;
    if cMin > cMax then Failure(InvalidClaimRange)
    else if aMin > aMax then Failure(InvalidAiRange)
    else
      var v := DetermineVerdict(cMin, cMax, aMin, aMax);
      var score := ConfidenceScore(ndviDelta, area, v.ratio);
      var record := AIConsistencyResult(claim.id, cMin, cMax, aMin, aMax,
                                        DeviationPercent(cMin, cMax, aMin, aMax), v.verdict, score, explanation, now);
      match NewConsistencyResult(record)
      case Success(ok) => Success(ok)
      case Failure(e) => Failure(InvalidResult(e))
  }

  /** `consistency_results_db`: the latest result for each claim. */
  class ConsistencyStore {
    var results: map<Uuid, AIConsistencyResult>

    /** Every stored result passed the record's validation. */
    ghost predicate Valid()
      reads this
    {
      forall id :: id in results ==> ValidConsistencyResult(results[id]) && results[id].claimId == id
    }

    constructor ()
      ensures results == map[] && Valid()
    {
      results := map[];
    }

    /** `evaluate_claim_consistency`: evaluates and, on success, replaces
        any earlier result for the claim. */
    method EvaluateClaimConsistency(claim: Claim, aMin: real, aMax: real, ndviDelta: Option<real>,
                                    area: Option<real>, explanation: string, now: Time)
      returns (r: Result<AIConsistencyResult, ConsistencyError>)
      requires Valid()
      modifies this
      ensures Valid()
      ensures r == Evaluate(claim, aMin, aMax, ndviDelta, area, explanation, now)
      ensures r.Success? ==> results == old(results)[claim.id := r.value]
      ensures r.Failure? ==> results == old(results)
    {
      r := Evaluate(claim, aMin, aMax, ndviDelta, area, explanation, now);
      if r.Success? {
        results := results[claim.id := r.value];
      }
    }

    /** `get_consistency_result_by_claim_id` */
    function GetResultByClaimId(claimId: Uuid): (r: Option<AIConsistencyResult>)
      reads this
      ensures r.Some? <==> claimId in results
      ensures r.Some? ==> r.value == results[claimId]
    {
      if claimId in results then Some(results[claimId]) else None
    }
  }
}
