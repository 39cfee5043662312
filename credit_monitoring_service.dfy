/** `services/credit_monitoring_service.py`: post-mint monitoring. A run
    compares the claim's current NDVI with the baseline recorded at mint
    time, classifies the change with fixed thresholds, burns part or all of
    the credit on a failure, and leaves a SYSTEM_AI evidence record. */
module CreditMonitoringService {
  import opened Wrappers
  import opened Uuids
  import opened Collections
  import opened Strings
  import opened ClaimModel
  import opened ReviewModel
  import opened MonitoringModel
  import opened EvidenceService
  import ReviewService
  import ClaimService

  /** `MonitoringError`, one case per message `run_monitoring` raises with. */
  datatype MonitoringError =
    | CreditNotFound
    | CreditOfOtherClaim
    | ClaimNotFound
    | NoBaseline
    | NoLocation
    | NdviUnavailable

  /** What `_apply_burn_rules` returns: the outcome and the tonnes to burn. */
  datatype BurnDecision = BurnDecision(outcome: MonitoringOutcome, burnAmount: real)

  /** `_apply_burn_rules`: the bands of the NDVI change, checked from the top band down.
      Its answer is the documented rule applied to the remaining tonnes. */
  function ApplyBurnRules(remaining: real, delta: real): (d: BurnDecision)
    ensures d.outcome == DocumentedBurnRule(delta).outcome
    ensures d.burnAmount == remaining * DocumentedBurnRule(delta).burnFraction
    ensures remaining >= 0.0 ==> 0.0 <= d.burnAmount <= remaining
  {
    if delta >= -0.05 then BurnDecision(OK, 0.0)
    else if delta >= -0.15 then BurnDecision(WARNING, 0.0)
    else if delta >= -0.30 then
      var f := Abs(delta) / 0.30;
      ShareWithin(remaining, f);
      BurnDecision(FAILURE, remaining * f)
    else BurnDecision(FAILURE, remaining)
  }

  /** A share of at most the whole of a non-negative amount lies between
      nothing and the amount. */
  lemma ShareWithin(x: real, f: real)
    requires 0.0 <= f <= 1.0
    ensures x >= 0.0 ==> 0.0 <= x * f <= x
  {
    if x >= 0.0 {
      assert x * (1.0 - f) >= 0.0;
    }
  }

  function Max0(x: real): real {
    if x < 0.0 then 0.0 else x
  }

  /** The credit after a run with NDVI change `delta`: a burn lowers the
      remaining tonnes (never below zero) and marks the credit fully or
      partially burned; a warning puts an ACTIVE credit at risk. */
  function CreditAfterRun(c: MintedCredit, delta: real): (r: MintedCredit)
    ensures r.tokenId == c.tokenId && r.claimId == c.claimId && r.amount == c.amount
    ensures r.baselineNdvi == c.baselineNdvi && r.mintedAt == c.mintedAt
    ensures r.isSimulated == c.isSimulated && r.displayLabel == c.displayLabel
  {
    var d := ApplyBurnRules(c.remaining, delta);
    var burned :=
      if d.burnAmount > 0.0 then
        var rest := Max0(c.remaining - d.burnAmount);
        c.(remaining := rest,
           status := if rest <= 0.0 then FULLY_BURNED
                     else if c.status == ACTIVE then PARTIALLY_BURNED else c.status)
      else c;
    if d.outcome == WARNING && burned.status == ACTIVE then burned.(status := AT_RISK) else burned
  }

  /** What one run does to a sound credit, band by band: nothing at or above
      -0.05; at-risk without a burn down to -0.15; a burn of |delta| / 0.30
      of what remains down to -0.30; everything below. A run never raises
      the remaining tonnes, never makes a credit ACTIVE again and leaves a
      fully burned credit as it is. */
  lemma RunKeepsCreditSound(c: MintedCredit, delta: real)
    requires ReviewService.SoundCredit(c)
    ensures var r := CreditAfterRun(c, delta);
      && ReviewService.SoundCredit(r)
      && r.remaining <= c.remaining
      && (r.status == ACTIVE ==> c.status == ACTIVE)
      && (c.status == FULLY_BURNED ==> r == c)
      && (delta >= -0.05 ==> r == c)
      && (-0.15 <= delta < -0.05 ==>
            r == c.(status := if c.status == ACTIVE then AT_RISK else c.status))
      && (-0.30 < delta < -0.15 && c.remaining > 0.0 ==>
            && r.remaining == c.remaining * (1.0 - Abs(delta) / 0.30)
            && 0.0 < r.remaining < c.remaining
            && r.status == (if c.status == ACTIVE then PARTIALLY_BURNED else c.status))
      && (delta <= -0.30 && c.remaining > 0.0 ==> r.remaining == 0.0 && r.status == FULLY_BURNED)
  {
    var d := ApplyBurnRules(c.remaining, delta);
    if -0.30 < delta < -0.15 && c.remaining > 0.0 {
      var f := Abs(delta) / 0.30;
      assert 0.5 < f < 1.0;
      assert d.burnAmount == c.remaining * f;
      assert c.remaining - d.burnAmount == c.remaining * (1.0 - f);
      assert 0.0 < c.remaining * (1.0 - f) < c.remaining;
    }
  }

  /** The credit after a sequence of runs, in order. */
  function CreditAfterRuns(c: MintedCredit, deltas: seq<real>): (r: MintedCredit)
    ensures r.tokenId == c.tokenId && r.claimId == c.claimId && r.amount == c.amount
    decreases |deltas|
  {
    if |deltas| == 0 then c else CreditAfterRuns(CreditAfterRun(c, deltas[0]), deltas[1..])
  }

  /** However many runs follow one another, a sound credit stays sound, its
      remaining tonnes never grow back, it never returns to ACTIVE, and a
      fully burned credit stays exactly as it is. */
  lemma {:induction false} RunsNeverRestore(c: MintedCredit, deltas: seq<real>)
    requires ReviewService.SoundCredit(c)
    ensures var r := CreditAfterRuns(c, deltas);
      && ReviewService.SoundCredit(r)
      && r.remaining <= c.remaining
      && (r.status == ACTIVE ==> c.status == ACTIVE)
      && (c.status == FULLY_BURNED ==> r == c)
    decreases |deltas|
  {
    if |deltas| > 0 {
      RunKeepsCreditSound(c, deltas[0]);
      RunsNeverRestore(CreditAfterRun(c, deltas[0]), deltas[1..]);
    }
  }

  /** The first index of the credit with `tokenId`. */
  function TokenIndex(cs: seq<MintedCredit>, tokenId: Uuid): (i: nat)
    requires exists c :: c in cs && c.tokenId == tokenId
    ensures i < |cs| && cs[i].tokenId == tokenId
    decreases |cs|
  {
    if cs[0].tokenId == tokenId then 0
    else
      assert cs == [cs[0]] + cs[1..];
      1 + TokenIndex(cs[1..], tokenId)
  }

  /** How the evidence text renders numbers: `:.4f`, `:+.4f` and `:.2f`.
      Decimal formatting of floats is not part of this model. */
  datatype Formats = Formats(fixed4: real -> string, signed4: real -> string, fixed2: real -> string)

  function OutcomeText(o: MonitoringOutcome): string {
    match o
    case OK => "OK"
    case WARNING => "WARNING"
    case FAILURE => "FAILURE"
  }

  function CreditStatusText(s: CreditStatus): string {
    match s
    case ACTIVE => "active"
    case AT_RISK => "at_risk"
    case PARTIALLY_BURNED => "partially_burned"
    case FULLY_BURNED => "fully_burned"
  }

  /** The threshold sentence of the evidence text names the band the run's
      change fell in. */
  function ThresholdInfo(outcome: MonitoringOutcome, delta: real): string
    requires outcome == DocumentedBurnRule(delta).outcome
  {
    if outcome == OK then "Threshold: delta >= -0.05 (OK). "
    else if outcome == WARNING then "Threshold: -0.15 <= delta < -0.05 (WARNING). "
    else if delta >= -0.30 then "Threshold: -0.30 <= delta < -0.15 (PARTIAL BURN). "
    else "Threshold: delta < -0.30 (FULL BURN). "
  }

  /** Each threshold sentence is written for exactly its band of the change. */
  lemma ThresholdInfoBands(outcome: MonitoringOutcome, delta: real)
    requires outcome == DocumentedBurnRule(delta).outcome
    ensures var t := ThresholdInfo(outcome, delta);
      && (t == "Threshold: delta >= -0.05 (OK). " <==> delta >= -0.05)
      && (t == "Threshold: -0.15 <= delta < -0.05 (WARNING). " <==> -0.15 <= delta < -0.05)
      && (t == "Threshold: -0.30 <= delta < -0.15 (PARTIAL BURN). " <==> -0.30 <= delta < -0.15)
      && (t == "Threshold: delta < -0.30 (FULL BURN). " <==> delta < -0.30)
  {
  }

  /** The burn sentence, from the burn and the credit's new status. */
  function BurnInfo(f: Formats, burn: real, status: CreditStatus): string {
    if burn > 0.0 then
      "Burn decision: " + f.fixed2(burn) + " tCO2e burned. " +
      (if status == FULLY_BURNED then "Credit fully burned. "
       else if status == PARTIALLY_BURNED then "Credit partially burned. " else "")
    else "No burn required. "
  }

  /** The description `_create_monitoring_evidence` writes. */
  function MonitoringDescription(f: Formats, run: MonitoringRun, credit: MintedCredit, burn: real): string
    requires run.outcome == DocumentedBurnRule(run.delta).outcome
  {
    Concat([
      "Post-mint credit monitoring run. ",
      "Baseline NDVI: " + f.fixed4(run.baselineNdvi) + ". ",
      "Current NDVI: " + f.fixed4(run.currentNdvi) + ". ",
      "Delta NDVI: " + f.signed4(run.delta) + ". ",
      "Outcome: " + OutcomeText(run.outcome) + ". ",
      ThresholdInfo(run.outcome, run.delta),
      BurnInfo(f, burn, credit.status),
      "Credit status: " + CreditStatusText(credit.status) + ". ",
      "Remaining CO\U{2082}e: " + f.fixed2(credit.remaining) + " tonnes. ",
      "This monitoring run uses deterministic thresholds for burn decisions."])
  }

  const MonitoringTitle := "Credit Monitoring Run"
  const MonitoringWeight := 0.8

  function MonitoringDataRef(tokenId: Uuid, runId: Uuid): string {
    "monitoring://credit-" + UuidText(tokenId) + "/run-" + UuidText(runId)
  }

  /** A run records the change between its readings and the outcome band of
      that change. */
  predicate ConsistentRun(r: MonitoringRun) {
    r.delta == r.currentNdvi - r.baselineNdvi && r.outcome == DocumentedBurnRule(r.delta).outcome
  }

  function RunDate(r: MonitoringRun): int { r.runDate }

  /** The checks `run_monitoring` makes before it writes anything, in the
      source's order: the credit exists, belongs to the claim, the claim
      exists, the credit has a baseline NDVI, the claim has a location, and
      a current NDVI could be read. On success, the index of the credit. */
  function RunCheck(gov: ReviewService.Governance, claims: ClaimService.ClaimStore, claimId: Uuid,
                    creditId: Uuid, currentNdvi: Option<real>): (r: Result<nat, MonitoringError>)
    reads gov, claims
    ensures !gov.HasTokenId(creditId) ==> r == Failure(CreditNotFound)
    ensures gov.HasTokenId(creditId) ==>
      var credit := gov.credits[TokenIndex(gov.credits, creditId)];
      && (credit.claimId != claimId ==> r == Failure(CreditOfOtherClaim))
      && (credit.claimId == claimId && claimId !in claims.claims ==> r == Failure(ClaimNotFound))
      && (credit.claimId == claimId && claimId in claims.claims && credit.baselineNdvi.None? ==>
            r == Failure(NoBaseline))
      && ((credit.claimId == claimId && claimId in claims.claims && credit.baselineNdvi.Some? &&
           claims.claims[claimId].location.None?) ==> r == Failure(NoLocation))
      && ((credit.claimId == claimId && claimId in claims.claims && credit.baselineNdvi.Some? &&
           claims.claims[claimId].location.Some? && currentNdvi.None?) ==> r == Failure(NdviUnavailable))
      && (r.Success? <==>
            credit.claimId == claimId && claimId in claims.claims && credit.baselineNdvi.Some? &&
            claims.claims[claimId].location.Some? && currentNdvi.Some?)
    ensures r.Success? ==>
      && r.value < |gov.credits| && gov.credits[r.value].tokenId == creditId
      && gov.credits[r.value].claimId == claimId && gov.credits[r.value].baselineNdvi.Some?
      && currentNdvi.Some?
  {
    if !gov.HasTokenId(creditId) then Failure(CreditNotFound)
    else
      var i := TokenIndex(gov.credits, creditId);
      var credit := gov.credits[i];
      if credit.claimId != claimId then Failure(CreditOfOtherClaim)
      else if claimId !in claims.claims then Failure(ClaimNotFound)
      else if credit.baselineNdvi.None? then Failure(NoBaseline)
      else if claims.claims[claimId].location.None? then Failure(NoLocation)
      else if currentNdvi.None? then Failure(NdviUnavailable)
      else Success(i)
  }

  /** `monitoring_runs_db`, in insertion order. */
  class Monitor {
    var runs: seq<MonitoringRun>
    const formats: Formats

    /** Ids are unique and every run is consistent. */
    ghost predicate Valid()
      reads this
    {
      && (forall i, j :: 0 <= i < j < |runs| ==> runs[i].id != runs[j].id)
      && (forall r :: r in runs ==> ConsistentRun(r))
    }

    constructor (formats: Formats)
      ensures runs == [] && this.formats == formats && Valid()
    {
      runs := [];
      this.formats := formats;
    }

    predicate HasRunId(id: Uuid)
      reads this
    {
      exists r :: r in runs && r.id == id
    }

    /** `run_monitoring`. The checks run in the source's order: the credit
        exists, belongs to the claim, the claim exists, the credit has a
        baseline, the claim has a location, and the satellite pipeline gave a
        current NDVI (`currentNdvi`, None when it failed or found no image).
        A refused run writes nothing. Otherwise the run is appended, the
        credit is updated in place by the burn rules and one SYSTEM_AI
        evidence record describes the run. */
    method RunMonitoring(gov: ReviewService.Governance, claims: ClaimService.ClaimStore, evidence: EvidenceStore,
                         claimId: Uuid, creditId: Uuid, currentNdvi: Option<real>,
                         runId: Uuid, evidenceId: Uuid, now: Time)
      returns (r: Result<MonitoringRun, MonitoringError>)
      requires Valid() && gov.Valid() && evidence.Valid()
      requires !HasRunId(runId) && !evidence.HasId(evidenceId)
      modifies this, gov, evidence
      ensures Valid() && gov.Valid() && evidence.Valid()
      ensures gov.reviews == old(gov.reviews)
      ensures old(RunCheck(gov, claims, claimId, creditId, currentNdvi)).Failure? ==>
        && r == Failure(old(RunCheck(gov, claims, claimId, creditId, currentNdvi)).error)
        && runs == old(runs) && gov.credits == old(gov.credits) && evidence.records == old(evidence.records)
      ensures old(RunCheck(gov, claims, claimId, creditId, currentNdvi)).Success? ==>
        var i := old(RunCheck(gov, claims, claimId, creditId, currentNdvi)).value;
        var credit := old(gov.credits[i]);
        && r.Success?
        && r.value == MonitoringRun(runId, claimId, creditId, now, credit.baselineNdvi.value, currentNdvi.value,
                                    currentNdvi.value - credit.baselineNdvi.value,
                                    DocumentedBurnRule(currentNdvi.value - credit.baselineNdvi.value).outcome, now)
        && runs == old(runs) + [r.value]
        && gov.credits == old(gov.credits)[i := CreditAfterRun(credit, r.value.delta)]
        && evidence.records == old(evidence.records) +
             [Stamped(MonitoringEvidence(formats, r.value, CreditAfterRun(credit, r.value.delta),
                                         ApplyBurnRules(credit.remaining, r.value.delta).burnAmount),
                      evidenceId, now, evidence.digest)]
    {
      var check := RunCheck(gov, claims, claimId, creditId, currentNdvi);
      if check.Failure? {
        return Failure(check.error);
      }
      var i := check.value;
      var credit := gov.credits[i];
      var baseline := credit.baselineNdvi.value;
      var current := currentNdvi.value;
      var delta := current - baseline;
      var decision := ApplyBurnRules(credit.remaining, delta);
      var run := MonitoringRun(runId, claimId, creditId, now, baseline, current, delta, decision.outcome, now);
      var updated := UpdateCredit(credit, delta, decision);
      RecordRun(gov, evidence, i, run, updated, decision.burnAmount, evidenceId, now);
      r := Success(run);
    }

    /** The writes of a monitoring run: the run is stored, the credit at
        index `i` is replaced by `updated`, its state after the burn rules,
        and one evidence record describes the run. */
    method RecordRun(gov: ReviewService.Governance, evidence: EvidenceStore, i: nat, run: MonitoringRun,
                     updated: MintedCredit, burnAmount: real, evidenceId: Uuid, now: Time)
      requires Valid() && gov.Valid() && evidence.Valid()
      requires !HasRunId(run.id) && !evidence.HasId(evidenceId) && ConsistentRun(run)
      requires i < |gov.credits| && updated == CreditAfterRun(gov.credits[i], run.delta)
      modifies this, gov, evidence
      ensures Valid() && gov.Valid() && evidence.Valid()
      ensures gov.reviews == old(gov.reviews)
      ensures runs == old(runs) + [run]
      ensures gov.credits == old(gov.credits)[i := updated]
      ensures evidence.records == old(evidence.records) +
        [Stamped(MonitoringEvidence(formats, run, updated, burnAmount), evidenceId, now, evidence.digest)]
    {
      AppendRun(run);
      RunKeepsCreditSound(gov.credits[i], run.delta);
      StoreCredit(gov, i, updated);
      var e := evidence.CreateEvidence(MonitoringEvidence(formats, run, updated, burnAmount), evidenceId, now);
    }

    /** `monitoring_runs_db[run.id] = run` */
    method AppendRun(run: MonitoringRun)
      requires Valid() && !HasRunId(run.id) && ConsistentRun(run)
      modifies this
      ensures Valid() && runs == old(runs) + [run]
    {
      runs := runs + [run];
    }

    /** `get_monitoring_runs_by_credit`: exactly the credit's runs, oldest
        first; runs with the same date keep their insertion order. */
    function GetMonitoringRunsByCredit(creditId: Uuid): (r: seq<MonitoringRun>)
      reads this
      ensures forall x :: x in r <==> x in runs && x.creditId == creditId
      ensures multiset(r) == multiset(Filter(runs, (x: MonitoringRun) => x.creditId == creditId))
      ensures SortedBy(r, RunDate)
    {
      var mine := Filter(runs, (x: MonitoringRun) => x.creditId == creditId);
      SortBySorted(mine, RunDate);
      assert forall x :: x in SortBy(mine, RunDate) <==> x in multiset(mine);
      SortBy(mine, RunDate)
    }

    /** `get_monitoring_runs_by_claim`: exactly the claim's runs, oldest
        first; runs with the same date keep their insertion order. */
    function GetMonitoringRunsByClaim(claimId: Uuid): (r: seq<MonitoringRun>)
      reads this
      ensures forall x :: x in r <==> x in runs && x.claimId == claimId
      ensures multiset(r) == multiset(Filter(runs, (x: MonitoringRun) => x.claimId == claimId))
      ensures SortedBy(r, RunDate)
    {
      var mine := Filter(runs, (x: MonitoringRun) => x.claimId == claimId);
      SortBySorted(mine, RunDate);
      assert forall x :: x in SortBy(mine, RunDate) <==> x in multiset(mine);
      SortBy(mine, RunDate)
    }
  }

  /** The credit update of `run_monitoring`, one assignment at a time as the
      source makes it, given the run's change and burn decision. */
  method UpdateCredit(credit: MintedCredit, delta: real, decision: BurnDecision) returns (c: MintedCredit)
    requires decision == ApplyBurnRules(credit.remaining, delta)
    ensures c == CreditAfterRun(credit, delta)
  {
    c := credit;
    if decision.burnAmount > 0.0 {
      c := c.(remaining := Max0(c.remaining - decision.burnAmount));
      if c.remaining <= 0.0 {
        c := c.(status := FULLY_BURNED);
      } else if c.status == ACTIVE {
        c := c.(status := PARTIALLY_BURNED);
      }
    }
    if decision.outcome == WARNING && c.status == ACTIVE {
      c := c.(status := AT_RISK);
    }
  }

  /** The SYSTEM_AI evidence record that describes a monitoring run. */
  function MonitoringEvidence(formats: Formats, run: MonitoringRun, updated: MintedCredit, burnAmount: real)
    : (sub: EvidenceSubmission)
    requires ConsistentRun(run)
    ensures sub.claimId == run.claimId && sub.evType == SYSTEM_AI && sub.source == "system"
    ensures sub.title == MonitoringTitle && sub.confidenceWeight == MonitoringWeight
    ensures sub.dataRef == MonitoringDataRef(run.creditId, run.id)
  {
    EvidenceSubmission(run.claimId, SYSTEM_AI, "system", MonitoringTitle,
                       MonitoringDescription(formats, run, updated, burnAmount),
                       MonitoringDataRef(run.creditId, run.id), MonitoringWeight)
  }

  /** Writes the updated credit back at its index. */
  method StoreCredit(gov: ReviewService.Governance, i: nat, c: MintedCredit)
    requires gov.Valid() && i < |gov.credits|
    requires c.tokenId == gov.credits[i].tokenId && c.claimId == gov.credits[i].claimId
    requires ReviewService.SoundCredit(c)
    modifies gov
    ensures gov.Valid()
    ensures gov.credits == old(gov.credits)[i := c] && gov.reviews == old(gov.reviews)
  {
    gov.credits := gov.credits[i := c];
    assert forall x :: x in gov.credits ==> x == c || x in old(gov.credits);
  }
}
