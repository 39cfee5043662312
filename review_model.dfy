/** The governance records of `models/review.py`: reviews and the simulated
    carbon credit minted once both reviews approve. */
module ReviewModel {
  import opened Wrappers
  import opened Uuids
  import opened ClaimModel

  datatype ReviewRole = AUTHORITY | COMMUNITY

  datatype ReviewDecision = APPROVE | REJECT

  datatype CreditStatus = ACTIVE | AT_RISK | PARTIALLY_BURNED | FULLY_BURNED

  /** A field constraint pydantic refuses a record for. */
  datatype FieldError = BadReviewerId | BadConfidence | BadNotes | NegativeAmount | NegativeRemaining

  datatype ReviewSubmission = ReviewSubmission(
    claimId: Uuid,
    reviewerId: string,
    decision: ReviewDecision,
    confidence: Option<real>,
    positives: seq<string>,
    concerns: seq<string>,
    notes: Option<string>)

  /** The field constraints of a review: a reviewer id of 1 to 200
      characters, an optional confidence within [0, 1] and optional notes of
      at most 5000 characters. */
  predicate ValidReviewFields(reviewerId: string, confidence: Option<real>, notes: Option<string>) {
    && 1 <= |reviewerId| <= 200
    && (confidence.Some? ==> 0.0 <= confidence.value <= 1.0)
    && (notes.Some? ==> |notes.value| <= 5000)
  }

  function CheckReviewFields(reviewerId: string, confidence: Option<real>, notes: Option<string>): (r: Option<FieldError>)
    ensures r.None? <==> ValidReviewFields(reviewerId, confidence, notes)
  {
    if !(1 <= |reviewerId| <= 200) then Some(BadReviewerId)
    else if confidence.Some? && !(0.0 <= confidence.value <= 1.0) then Some(BadConfidence)
    else if notes.Some? && |notes.value| > 5000 then Some(BadNotes)
    else None
  }

  datatype ReviewRecord = ReviewRecord(
    id: Uuid,
    claimId: Uuid,
    reviewerId: string,
    decision: ReviewDecision,
    confidence: Option<real>,
    positives: seq<string>,
    concerns: seq<string>,
    notes: Option<string>,
    role: ReviewRole,
    createdAt: Time)

  /** `ReviewRecord(**submission.model_dump(), role=...)`: the submission's
      fields are validated again and the record is stamped with its id,
      role and creation time. */
  function NewReviewRecord(sub: ReviewSubmission, id: Uuid, role: ReviewRole, now: Time): (r: Result<ReviewRecord, FieldError>)
    ensures r.Success? <==> ValidReviewFields(sub.reviewerId, sub.confidence, sub.notes)
    ensures r.Success? ==> r.value.id == id && r.value.role == role && r.value.createdAt == now
    ensures r.Success? ==> r.value.claimId == sub.claimId && r.value.decision == sub.decision
    ensures r.Success? ==> r.value.reviewerId == sub.reviewerId && r.value.notes == sub.notes
  {
    var e := CheckReviewFields(sub.reviewerId, sub.confidence, sub.notes);
    if e.Some? then Failure(e.value)
    else Success(ReviewRecord(id, sub.claimId, sub.reviewerId, sub.decision, sub.confidence,
                              sub.positives, sub.concerns, sub.notes, role, now))
  }

  datatype MintedCredit = MintedCredit(
    tokenId: Uuid,
    claimId: Uuid,
    amount: real,
    status: CreditStatus,
    remaining: real,
    baselineNdvi: Option<real>,
    mintedAt: Time,
    isSimulated: bool,
    displayLabel: string)

  const SimulatedLabel: string := "Simulated ERC-20 carbon credit (MVP)"

  /** Pydantic's construction of a `MintedCredit`: amount and remaining
      tonnes must not be negative; the credit starts ACTIVE and labelled as
      simulated. */
  function NewMintedCredit(tokenId: Uuid, claimId: Uuid, amount: real, remaining: real,
                           baselineNdvi: Option<real>, mintedAt: Time): (r: Result<MintedCredit, FieldError>)
    ensures r.Success? <==> amount >= 0.0 && remaining >= 0.0
    ensures r.Success? ==> r.value.status == ACTIVE && r.value.isSimulated
    ensures r.Success? ==> r.value.amount == amount && r.value.remaining == remaining
    ensures r.Success? ==> r.value.tokenId == tokenId && r.value.claimId == claimId
    ensures r.Success? ==> r.value.baselineNdvi == baselineNdvi && r.value.mintedAt == mintedAt
  {
    if amount < 0.0 then Failure(NegativeAmount)
    else if remaining < 0.0 then Failure(NegativeRemaining)
    else Success(MintedCredit(tokenId, claimId, amount, ACTIVE, remaining, baselineNdvi, mintedAt, true, SimulatedLabel))
  }
}
