/** The post-mint monitoring records of `models/monitoring.py`. */
module MonitoringModel {
  import opened Uuids
  import opened ClaimModel

  datatype MonitoringOutcome = OK | WARNING | FAILURE

  /** One monitoring run; `delta` is the current NDVI minus the baseline. */
  datatype MonitoringRun = MonitoringRun(
    id: Uuid,
    claimId: Uuid,
    creditId: Uuid,
    runDate: Time,
    baselineNdvi: real,
    currentNdvi: real,
    delta: real,
    outcome: MonitoringOutcome,
    createdAt: Time)

  /** The burn rule as the record documents it: the outcome band of an
      NDVI change, and the share of the credit a failure burns. */
  datatype BurnRule = BurnRule(outcome: MonitoringOutcome, burnFraction: real)

  function Abs(x: real): real {
    if x < 0.0 then -x else x
  }

  /** Above -0.05 is OK, down to -0.15 a WARNING, below that a FAILURE
      burning |delta| / 0.30 of the credit, capped at the whole credit. */
  function DocumentedBurnRule(delta: real): (r: BurnRule)
    ensures 0.0 <= r.burnFraction <= 1.0
    ensures r.outcome == OK <==> delta >= -0.05
    ensures r.outcome == WARNING <==> -0.15 <= delta < -0.05
    ensures r.outcome == FAILURE <==> delta < -0.15
    ensures r.outcome != FAILURE ==> r.burnFraction == 0.0
    ensures r.outcome == FAILURE ==> r.burnFraction > 0.5
    ensures delta <= -0.30 ==> r.burnFraction == 1.0
  {
    if delta >= -0.05 then BurnRule(OK, 0.0)
    else if delta >= -0.15 then BurnRule(WARNING, 0.0)
    else if Abs(delta) / 0.30 >= 1.0 then BurnRule(FAILURE, 1.0)
    else BurnRule(FAILURE, Abs(delta) / 0.30)
  }
}
