/** `services/review_service.py`: the human governance layer. An authority
    reviews an AI-verified claim, then the community reviews it, and a claim
    both approved becomes eligible for one simulated carbon credit. */
module ReviewService {
  import opened Wrappers
  import opened Uuids
  import opened Collections
  import opened ClaimModel
  import opened ReviewModel
  import ClaimService

  datatype ReviewError =
    | ClaimNotFound
    | WrongStatus(current: ClaimStatus)
    | AlreadyReviewed(role: ReviewRole)
    | InvalidFields(field: FieldError)

  /** Why `can_mint_credits` refuses, one case per message it returns. */
  datatype Ineligibility =
    | ClaimMissing
    | NotCommunityReviewed(current: ClaimStatus)
    | NoAuthorityReview
    | AuthorityDidNotApprove
    | NoCommunityReview
    | CommunityDidNotApprove

  datatype Eligibility = Eligible | Ineligible(reason: Ineligibility)

  datatype MintError =
    | NotEligible(reason: Ineligibility)
    | AlreadyMinted
    | InvalidCredit(field: FieldError)

  /** The statuses a claim must have for a review by `role`: the AI
      analysis must be done (in any of its three spellings) before the
      authority reviews, and the authority must have approved before the
      community does. */
  function AdmittedStatuses(role: ReviewRole): set<ClaimStatus> {
    match role
    case AUTHORITY => {AI_ANALYZED, AI_VERIFIED, VERIFIED}
    case COMMUNITY => {AUTHORITY_REVIEWED}
  }

  /** The status a review leaves the claim in. */
  function StatusAfterReview(role: ReviewRole, decision: ReviewDecision): (s: ClaimStatus)
    ensures decision == REJECT <==> s == REJECTED
    ensures decision == APPROVE && role == AUTHORITY ==> s == AUTHORITY_REVIEWED
    ensures decision == APPROVE && role == COMMUNITY ==> s == COMMUNITY_REVIEWED
  {
    match decision
    case REJECT => REJECTED
    case APPROVE => if role == AUTHORITY then AUTHORITY_REVIEWED else COMMUNITY_REVIEWED
  }

  /** Every status change a review makes is a step of the governance flow. */
  lemma ReviewIsGovernedStep(role: ReviewRole, decision: ReviewDecision, from: ClaimStatus)
    requires from in AdmittedStatuses(role)
    ensures GovernedStep(from, StatusAfterReview(role, decision))
  {
  }

  /** A credit's remaining tonnes lie between zero and the amount minted,
      and a fully burned credit has nothing left. */
  predicate SoundCredit(c: MintedCredit) {
    0.0 <= c.remaining <= c.amount && (c.status == FULLY_BURNED ==> c.remaining == 0.0)
  }

  /** The reviews of one claim, optionally only those of one role. */
  predicate Matches(r: ReviewRecord, claimId: Uuid, role: Option<ReviewRole>) {
    r.claimId == claimId && (role.Some? ==> r.role == role.value)
  }

  /** The first credit of a claim, in minting order. */
  function FirstCredit(cs: seq<MintedCredit>, claimId: Uuid): (r: Option<MintedCredit>)
    ensures r.None? <==> forall c :: c in cs ==> c.claimId != claimId
    ensures r.Some? ==> exists i :: 0 <= i < |cs| && cs[i] == r.value && r.value.claimId == claimId &&
                                    forall j :: 0 <= j < i ==> cs[j].claimId != claimId
    decreases |cs|
  {
    if |cs| == 0 then None
    else if cs[0].claimId == claimId then Some(cs[0])
    else
      var rest := FirstCredit(cs[1..], claimId);
      assert forall c :: c in cs ==> c == cs[0] || c in cs[1..];
      if rest.Some? then
        ghost var i :| 0 <= i < |cs[1..]| && cs[1..][i] == rest.value && rest.value.claimId == claimId &&
                       forall j :: 0 <= j < i ==> cs[1..][j].claimId != claimId;
        assert cs[i + 1] == rest.value;
        rest
      else rest
  }

  /** `reviews_db` and `minted_credits_db`, both in insertion order. */
  class Governance {
    var reviews: seq<ReviewRecord>
    var credits: seq<MintedCredit>

    /** Ids are unique; a claim has at most one review per role and at most
        one credit; every credit is sound. */
    ghost predicate Valid()
      reads this
    {
      && (forall i, j :: 0 <= i < j < |reviews| ==> reviews[i].id != reviews[j].id)
      && (forall i, j :: 0 <= i < j < |reviews| ==>
            !(reviews[i].claimId == reviews[j].claimId && reviews[i].role == reviews[j].role))
      && (forall i, j :: 0 <= i < j < |credits| ==> credits[i].tokenId != credits[j].tokenId)
      && (forall i, j :: 0 <= i < j < |credits| ==> credits[i].claimId != credits[j].claimId)
      && (forall c :: c in credits ==> SoundCredit(c))
    }

    constructor ()
      ensures reviews == [] && credits == [] && Valid()
    {
      reviews := [];
      credits := [];
    }

    predicate HasReviewId(id: Uuid)
      reads this
    {
      exists r :: r in reviews && r.id == id
    }

    predicate HasTokenId(id: Uuid)
      reads this
    {
      exists c :: c in credits && c.tokenId == id
    }

    /** `get_reviews_by_claim`: exactly the stored reviews of the claim (and
        of the role, when one is given), in insertion order. */
    function GetReviewsByClaim(claimId: Uuid, role: Option<ReviewRole>): (r: seq<ReviewRecord>)
      reads this
      ensures forall x :: x in r <==> x in reviews && x.claimId == claimId && (role.Some? ==> x.role == role.value)
      ensures |r| <= |reviews|
    {
      Filter(reviews, (x: ReviewRecord) => Matches(x, claimId, role))
    }

    /** `get_review_by_id` */
    function GetReviewById(id: Uuid): (r: Option<ReviewRecord>)
      reads this
      ensures r.Some? <==> HasReviewId(id)
      ensures r.Some? ==> r.value in reviews && r.value.id == id
    {
      FindReview(reviews, id)
    }

    /** `submit_authority_review` (with `role` AUTHORITY) and
        `submit_community_review` (with `role` COMMUNITY). The submission's
        fields are checked first, as pydantic refuses an invalid
        `ReviewSubmission` before the service is called; then, in the
        service's order, the claim exists, its status admits the review and
        the claim has no review of this role yet. Only then is the review
        appended and the claim moved on; a refused review writes nothing. */
    method SubmitReview(claims: ClaimService.ClaimStore, sub: ReviewSubmission, role: ReviewRole, id: Uuid, now: Time)
      returns (r: Result<ReviewRecord, ReviewError>)
      requires Valid() && claims.Valid() && !HasReviewId(id)
      modifies this, claims
      ensures Valid() && claims.Valid()
      ensures credits == old(credits)
      ensures !ValidReviewFields(sub.reviewerId, sub.confidence, sub.notes) ==>
        r == Failure(InvalidFields(CheckReviewFields(sub.reviewerId, sub.confidence, sub.notes).value))
      ensures ValidReviewFields(sub.reviewerId, sub.confidence, sub.notes) && sub.claimId !in old(claims.claims) ==>
        r == Failure(ClaimNotFound)
      ensures ValidReviewFields(sub.reviewerId, sub.confidence, sub.notes) &&
              sub.claimId in old(claims.claims) && old(claims.claims[sub.claimId].status) !in AdmittedStatuses(role) ==>
        r == Failure(WrongStatus(old(claims.claims[sub.claimId].status)))
      ensures ValidReviewFields(sub.reviewerId, sub.confidence, sub.notes) &&
              sub.claimId in old(claims.claims) && old(claims.claims[sub.claimId].status) in AdmittedStatuses(role) &&
              old(GetReviewsByClaim(sub.claimId, Some(role))) != [] ==>
        r == Failure(AlreadyReviewed(role))
      ensures r.Failure? ==> reviews == old(reviews) && claims.claims == old(claims.claims)
      ensures r.Success? <==>
        && sub.claimId in old(claims.claims)
        && old(claims.claims[sub.claimId].status) in AdmittedStatuses(role)
        && old(GetReviewsByClaim(sub.claimId, Some(role))) == []
        && ValidReviewFields(sub.reviewerId, sub.confidence, sub.notes)
      ensures r.Success? ==>
        && r.value == NewReviewRecord(sub, id, role, now).value
        && reviews == old(reviews) + [r.value]
        && claims.claims == old(claims.claims)[sub.claimId :=
             old(claims.claims[sub.claimId]).(status := StatusAfterReview(role, sub.decision), updatedAt := now)]
    {
      var record := NewReviewRecord(sub, id, role, now);
      if record.Failure? {
        return Failure(InvalidFields(record.error));
      }
      if sub.claimId !in claims.claims {
        return Failure(ClaimNotFound);
      }
      var claim := claims.claims[sub.claimId];
      if claim.status !in AdmittedStatuses(role) {
        return Failure(WrongStatus(claim.status));
      }
      var existing := GetReviewsByClaim(sub.claimId, Some(role));
      if existing != [] {
        return Failure(AlreadyReviewed(role));
      }
      AppendReview(record.value);
      claims.SetStatus(sub.claimId, StatusAfterReview(role, sub.decision), now);
      r := Success(record.value);
    }

    /** `reviews_db[review.id] = review`, for a fresh id and a claim with no
        review of this role yet. */
    method AppendReview(record: ReviewRecord)
      requires Valid() && !HasReviewId(record.id)
      requires GetReviewsByClaim(record.claimId, Some(record.role)) == []
      modifies this
      ensures Valid() && reviews == old(reviews) + [record] && credits == old(credits)
    {
      assert forall i :: 0 <= i < |reviews| ==> reviews[i] in reviews;
      reviews := reviews + [record];
    }

    /** Whether the claim has an approving review by `role`. */
    predicate Approved(claimId: Uuid, role: ReviewRole)
      reads this
    {
      exists x :: x in GetReviewsByClaim(claimId, Some(role)) && x.decision == APPROVE
    }

    /** `can_mint_credits`: eligible exactly when the claim is
        COMMUNITY_REVIEWED and both an authority and a community review of
        it approve; otherwise the first failing requirement is reported. */
    function CanMintCredits(claims: ClaimService.ClaimStore, claimId: Uuid): (e: Eligibility)
      reads this, claims
      ensures e == Eligible <==>
        && claimId in claims.claims && claims.claims[claimId].status == COMMUNITY_REVIEWED
        && (exists x :: x in reviews && x.claimId == claimId && x.role == AUTHORITY && x.decision == APPROVE)
        && (exists x :: x in reviews && x.claimId == claimId && x.role == COMMUNITY && x.decision == APPROVE)
      ensures claimId !in claims.claims ==> e == Ineligible(ClaimMissing)
      ensures claimId in claims.claims && claims.claims[claimId].status != COMMUNITY_REVIEWED ==>
        e == Ineligible(NotCommunityReviewed(claims.claims[claimId].status))
      ensures claimId in claims.claims && claims.claims[claimId].status == COMMUNITY_REVIEWED ==>
        && (!(exists x :: x in reviews && x.claimId == claimId && x.role == AUTHORITY) ==>
              e == Ineligible(NoAuthorityReview))
        && ((exists x :: x in reviews && x.claimId == claimId && x.role == AUTHORITY) &&
            !(exists x :: x in reviews && x.claimId == claimId && x.role == AUTHORITY && x.decision == APPROVE) ==>
              e == Ineligible(AuthorityDidNotApprove))
      ensures claimId in claims.claims && claims.claims[claimId].status == COMMUNITY_REVIEWED &&
              (exists x :: x in reviews && x.claimId == claimId && x.role == AUTHORITY && x.decision == APPROVE) ==>
        && (!(exists x :: x in reviews && x.claimId == claimId && x.role == COMMUNITY) ==>
              e == Ineligible(NoCommunityReview))
        && ((exists x :: x in reviews && x.claimId == claimId && x.role == COMMUNITY) &&
            !(exists x :: x in reviews && x.claimId == claimId && x.role == COMMUNITY && x.decision == APPROVE) ==>
              e == Ineligible(CommunityDidNotApprove))
    {
      if claimId !in claims.claims then Ineligible(ClaimMissing)
      else if claims.claims[claimId].status != COMMUNITY_REVIEWED then
        Ineligible(NotCommunityReviewed(claims.claims[claimId].status))
      else if GetReviewsByClaim(claimId, Some(AUTHORITY)) == [] then Ineligible(NoAuthorityReview)
      else
        assert GetReviewsByClaim(claimId, Some(AUTHORITY))[0] in GetReviewsByClaim(claimId, Some(AUTHORITY));
        if !Approved(claimId, AUTHORITY) then Ineligible(AuthorityDidNotApprove)
        else if GetReviewsByClaim(claimId, Some(COMMUNITY)) == [] then Ineligible(NoCommunityReview)
        else
          assert GetReviewsByClaim(claimId, Some(COMMUNITY))[0] in GetReviewsByClaim(claimId, Some(COMMUNITY));
          if !Approved(claimId, COMMUNITY) then Ineligible(CommunityDidNotApprove)
          else Eligible
    }

    /** The spec of `get_minted_credit_by_claim`: the first credit of the
        claim in minting order. */
    function CreditOf(claimId: Uuid): (r: Option<MintedCredit>)
      reads this
      ensures r.Some? ==> r.value in credits && r.value.claimId == claimId
      ensures r.None? <==> forall c :: c in credits ==> c.claimId != claimId
    {
      FirstCredit(credits, claimId)
    }

    /** `get_minted_credit_by_claim`: a scan over the credits in minting
        order, returning the first one of the claim. */
    method GetMintedCreditByClaim(claimId: Uuid) returns (r: Option<MintedCredit>)
      ensures r == CreditOf(claimId)
    {
      var i := 0;
      while i < |credits|
        invariant 0 <= i <= |credits|
        invariant FirstCredit(credits, claimId) == FirstCredit(credits[i..], claimId)
      {
        if credits[i].claimId == claimId {
          return Some(credits[i]);
        }
        assert credits[i..][1..] == credits[i + 1..];
        i := i + 1;
      }
      return None;
    }

    /** `get_minted_credit_by_id` */
    function GetMintedCreditById(tokenId: Uuid): (r: Option<MintedCredit>)
      reads this
      ensures r.Some? <==> HasTokenId(tokenId)
      ensures r.Some? ==> r.value in credits && r.value.tokenId == tokenId
    {
      FindCredit(credits, tokenId)
    }

    /** `mint_credits`: an eligible claim without a credit gets one, ACTIVE,
        with all of `amount` remaining, and the claim becomes MINTED.
        `baseline` is the NDVI read back from the claim's latest MRV
        evidence. An ineligible claim, a second mint or a negative amount
        writes nothing. */
    method MintCredits(claims: ClaimService.ClaimStore, claimId: Uuid, amount: real, baseline: Option<real>,
                       tokenId: Uuid, now: Time)
      returns (r: Result<MintedCredit, MintError>)
      requires Valid() && claims.Valid() && !HasTokenId(tokenId)
      modifies this, claims
      ensures Valid() && claims.Valid()
      ensures reviews == old(reviews)
      ensures old(CanMintCredits(claims, claimId)).Ineligible? ==>
        r == Failure(NotEligible(old(CanMintCredits(claims, claimId)).reason))
      ensures old(CanMintCredits(claims, claimId)) == Eligible && old(CreditOf(claimId)).Some? ==>
        r == Failure(AlreadyMinted)
      ensures r.Failure? ==> credits == old(credits) && claims.claims == old(claims.claims)
      ensures r.Success? <==>
        old(CanMintCredits(claims, claimId)) == Eligible && old(CreditOf(claimId)).None? && amount >= 0.0
      ensures r.Success? ==>
        && r.value.status == ACTIVE && r.value.amount == amount && r.value.remaining == amount
        && r.value.claimId == claimId && r.value.tokenId == tokenId && r.value.baselineNdvi == baseline
        && r.value.mintedAt == now && r.value.isSimulated
        && r.value == NewMintedCredit(tokenId, claimId, amount, amount, baseline, now).value
        && credits == old(credits) + [r.value]
        && claims.claims == old(claims.claims)[claimId := old(claims.claims[claimId]).(status := MINTED, updatedAt := now)]
    {
      var eligibility := CanMintCredits(claims, claimId);
      if eligibility.Ineligible? {
        return Failure(NotEligible(eligibility.reason));
      }
      var existing := GetMintedCreditByClaim(claimId);
      if existing.Some? {
        return Failure(AlreadyMinted);
      }
      var credit := NewMintedCredit(tokenId, claimId, amount, amount, baseline, now);
      if credit.Failure? {
        return Failure(InvalidCredit(credit.error));
      }
      AppendCredit(credit.value);
      claims.SetStatus(claimId, MINTED, now);
      r := Success(credit.value);
    }

    /** `minted_credits_db[token_id] = credit`, for a fresh token and a
        claim with no credit yet. */
    method AppendCredit(credit: MintedCredit)
      requires Valid() && !HasTokenId(credit.tokenId) && CreditOf(credit.claimId).None? && SoundCredit(credit)
      modifies this
      ensures Valid() && credits == old(credits) + [credit] && reviews == old(reviews)
    {
      credits := credits + [credit];
    }
  }

  /** Minting moves a claim along the governance flow. */
  lemma MintIsGovernedStep()
    ensures GovernedStep(COMMUNITY_REVIEWED, MINTED)
  {
  }

  function FindReview(rs: seq<ReviewRecord>, id: Uuid): (r: Option<ReviewRecord>)
    ensures r.Some? <==> exists x :: x in rs && x.id == id
    ensures r.Some? ==> r.value in rs && r.value.id == id
    decreases |rs|
  {
    if |rs| == 0 then None
    else if rs[0].id == id then Some(rs[0])
    else
      assert rs == [rs[0]] + rs[1..];
      FindReview(rs[1..], id)
  }

  function FindCredit(cs: seq<MintedCredit>, tokenId: Uuid): (r: Option<MintedCredit>)
    ensures r.Some? <==> exists c :: c in cs && c.tokenId == tokenId
    ensures r.Some? ==> r.value in cs && r.value.tokenId == tokenId
    decreases |cs|
  {
    if |cs| == 0 then None
    else if cs[0].tokenId == tokenId then Some(cs[0])
    else
      assert cs == [cs[0]] + cs[1..];
      FindCredit(cs[1..], tokenId)
  }
}
