/** `services/transparency_service.py`: the public, read-only view of a
    claim. Everything here is derived from the stores; nothing is written. */
module TransparencyService {
  import opened Wrappers
  import opened Uuids
  import opened Strings
  import opened Collections
  import opened ClaimModel
  import opened ReviewModel
  import opened TransparencyModel
  import opened EvidenceService
  import ClaimService
  import ReviewService
  import AiConsistencyService
  import CreditMonitoringService
  import VerificationService

  const Sources: set<string> := {"AI", "Authority", "Community", "System"}

  /** The event types evidence records can produce. */
  const EvidenceEventTypes: set<string> :=
    {"ai_mrv_analysis", "ai_consistency_verdict", "credit_monitoring", "evidence_uploaded"}

  const SubmittedType := "claim_submitted"
  const AuthorityType := "authority_reviewed"
  const CommunityType := "community_reviewed"
  const MintedType := "credit_minted"

  function Timestamp(e: TimelineEvent): int { e.timestamp }

  function OfType(t: string): TimelineEvent -> bool {
    (e: TimelineEvent) => e.eventType == t
  }

  /** How many events of type `t` a timeline holds. */
  function CountType(s: seq<TimelineEvent>, t: string): nat
    decreases |s|
  {
    if |s| == 0 then 0
    else CountType(s[..|s| - 1], t) + (if s[|s| - 1].eventType == t then 1 else 0)
  }

  /** The count is the length of the filtered timeline. */
  lemma {:induction false} CountIsFilter(s: seq<TimelineEvent>, t: string)
    ensures CountType(s, t) == |Filter(s, OfType(t))|
    decreases |s|
  {
    if |s| > 0 {
      var p := s[..|s| - 1];
      CountIsFilter(p, t);
      FilterAppend(p, s[|s| - 1], OfType(t));
      assert p + [s[|s| - 1]] == s;
    }
  }

  /** Reordering a timeline does not change its counts. */
  lemma CountPermutation(a: seq<TimelineEvent>, b: seq<TimelineEvent>, t: string)
    requires multiset(a) == multiset(b)
    ensures CountType(a, t) == CountType(b, t)
  {
    CountIsFilter(a, t);
    CountIsFilter(b, t);
    FilterCountPermutation(a, b, OfType(t));
  }

  /** `s[:200] + "..."` */
  function Snippet(s: string): string {
    Take(s, 200) + "..."
  }

  function SubmittedEvent(c: Claim): TimelineEvent {
    TimelineEvent(c.createdAt, SubmittedType, "Claim Submitted",
                  "Claim '" + c.title + "' submitted by " + c.submitterName, "System")
  }

  /** The event one evidence record contributes to the timeline, if any.
      SYSTEM_AI evidence is recognised by its title (MRV, consistency
      verdict, monitoring) or a "monitoring" description and is otherwise
      skipped; every other record is an upload whose description is cut
      to 200 characters with "..." appended when it is longer. */
  function EvidenceEvent(e: Evidence): (r: Option<TimelineEvent>)
    ensures r.Some? ==> r.value.timestamp == e.createdAt
    ensures r.Some? ==> r.value.eventType in EvidenceEventTypes && r.value.source in Sources
    ensures e.evType == SYSTEM_AI ==>
      (r.Some? <==> Contains(e.title, "MRV") || Contains(e.title, "Satellite-based") ||
                    Contains(e.title, "Consistency Verdict") || Contains(e.title, "Monitoring") ||
                    Contains(e.description, "monitoring"))
    ensures e.evType == SYSTEM_AI && r.Some? ==> r.value.source == "AI"
    ensures e.evType != SYSTEM_AI ==>
      && r.Some? && r.value.eventType == "evidence_uploaded" && r.value.source == "System"
      && r.value.title == "Evidence Uploaded: " + e.title
      && (|e.description| <= 200 ==> r.value.description == e.description)
      && (|e.description| > 200 ==>
            |r.value.description| == 203 && r.value.description[..200] == e.description[..200] &&
            r.value.description[200..] == "...")
  {
    if e.evType == SYSTEM_AI then
      if Contains(e.title, "MRV") || Contains(e.title, "Satellite-based") then
        Some(TimelineEvent(e.createdAt, "ai_mrv_analysis", "AI MRV Analysis Complete",
                           e.title + ". " + Snippet(e.description), "AI"))
      else if Contains(e.title, "Consistency Verdict") then
        Some(TimelineEvent(e.createdAt, "ai_consistency_verdict", "AI Claim Consistency Verdict",
                           Snippet(e.description), "AI"))
      else if Contains(e.title, "Monitoring") || Contains(e.description, "monitoring") then
        Some(TimelineEvent(e.createdAt, "credit_monitoring", "Credit Monitoring Run",
                           Snippet(e.description), "AI"))
      else None
    else
      Some(TimelineEvent(e.createdAt, "evidence_uploaded", "Evidence Uploaded: " + e.title,
                         if |e.description| > 200 then e.description[..200] + "..." else e.description,
                         "System"))
  }

  /** The MRV record the verification writes shows up as an MRV event. */
  lemma MrvEvidenceEvent(e: Evidence)
    requires e.evType == SYSTEM_AI && e.title == MrvTitle
    ensures EvidenceEvent(e).Some? && EvidenceEvent(e).value.eventType == "ai_mrv_analysis"
  {
    assert e.title[0..15] == "Satellite-based";
    ContainedAt(e.title, "Satellite-based", 0);
  }

  /** Which patterns the consistency verdict's title matches. */
  lemma ConsistencyTitleMatches()
    ensures !Contains(VerificationService.ConsistencyTitle, "MRV")
    ensures !Contains(VerificationService.ConsistencyTitle, "Satellite-based")
    ensures Contains(VerificationService.ConsistencyTitle, "Consistency Verdict")
  {
    var t := VerificationService.ConsistencyTitle;
    assert 'M' !in t && 'S' !in t;
    MissingCharNotContained(t, "MRV", 0);
    MissingCharNotContained(t, "Satellite-based", 0);
    assert t[9..28] == "Consistency Verdict";
    ContainedAt(t, "Consistency Verdict", 9);
  }

  /** The consistency verdict record shows up as a verdict event. */
  lemma ConsistencyEvidenceEvent(e: Evidence)
    requires e.evType == SYSTEM_AI && e.title == VerificationService.ConsistencyTitle
    ensures EvidenceEvent(e).Some? && EvidenceEvent(e).value.eventType == "ai_consistency_verdict"
  {
    ConsistencyTitleMatches();
  }

  /** Which patterns the monitoring run's title matches. */
  lemma MonitoringTitleMatches()
    ensures !Contains(CreditMonitoringService.MonitoringTitle, "MRV")
    ensures !Contains(CreditMonitoringService.MonitoringTitle, "Satellite-based")
    ensures !Contains(CreditMonitoringService.MonitoringTitle, "Consistency Verdict")
    ensures Contains(CreditMonitoringService.MonitoringTitle, "Monitoring")
  {
    var t := CreditMonitoringService.MonitoringTitle;
    assert 'V' !in t && 'S' !in t;
    MissingCharNotContained(t, "MRV", 2);
    MissingCharNotContained(t, "Satellite-based", 0);
    MissingCharNotContained(t, "Consistency Verdict", 12);
    assert t[7..17] == "Monitoring";
    ContainedAt(t, "Monitoring", 7);
  }

  /** The monitoring record shows up as a monitoring event. */
  lemma MonitoringEvidenceEvent(e: Evidence)
    requires e.evType == SYSTEM_AI && e.title == CreditMonitoringService.MonitoringTitle
    ensures EvidenceEvent(e).Some? && EvidenceEvent(e).value.eventType == "credit_monitoring"
  {
    MonitoringTitleMatches();
  }

  function OptionToSeq(o: Option<TimelineEvent>): seq<TimelineEvent> {
    if o.Some? then [o.value] else []
  }

  /** The events of a list of evidence records, in the list's order. */
  function EvidenceEvents(es: seq<Evidence>): (r: seq<TimelineEvent>)
    ensures forall x :: x in r ==> x.eventType in EvidenceEventTypes && x.source in Sources
    decreases |es|
  {
    if |es| == 0 then []
    else EvidenceEvents(es[..|es| - 1]) + OptionToSeq(EvidenceEvent(es[|es| - 1]))
  }

  function DecisionText(d: ReviewDecision): string {
    match d
    case APPROVE => "APPROVE"
    case REJECT => "REJECT"
  }

  function ReviewEvent(r: ReviewRecord): TimelineEvent {
    match r.role
    case AUTHORITY =>
      TimelineEvent(r.createdAt, AuthorityType, "Authority Review Complete",
                    "Authority review by " + r.reviewerId + ": " + DecisionText(r.decision), "Authority")
    case COMMUNITY =>
      TimelineEvent(r.createdAt, CommunityType, "Community Review Complete",
                    "Community review by " + r.reviewerId + ": " + DecisionText(r.decision), "Community")
  }

  /** `showAmount` renders the minted amount as Python's `str(float)` does;
      decimal rendering of floats is not part of this model. */
  function MintEvent(c: MintedCredit, showAmount: real -> string): TimelineEvent {
    TimelineEvent(c.mintedAt, MintedType, "Carbon Credit Minted",
                  "Carbon credit minted: " + showAmount(c.amount) + " tonnes CO\U{2082}e (Token ID: " +
                  UuidText(c.tokenId) + ")", "System")
  }

  /** The event of the first review of `role`, if the claim has one. */
  function FirstReviewEvent(gov: ReviewService.Governance, claimId: Uuid, role: ReviewRole): (r: seq<TimelineEvent>)
    reads gov
    ensures |r| <= 1
    ensures forall x :: x in r ==> x.eventType == (if role == AUTHORITY then AuthorityType else CommunityType)
    ensures forall x :: x in r ==> x.source in Sources
  {
    var rs := gov.GetReviewsByClaim(claimId, Some(role));
    if |rs| > 0 then [ReviewEvent(rs[0])] else []
  }

  function MintEvents(gov: ReviewService.Governance, claimId: Uuid, showAmount: real -> string): (r: seq<TimelineEvent>)
    reads gov
    ensures |r| <= 1 && forall x :: x in r ==> x.eventType == MintedType && x.source in Sources
  {
    var c := gov.CreditOf(claimId);
    if c.Some? then [MintEvent(c.value, showAmount)] else []
  }

  /** The events of a known claim in the order they are collected. */
  function CollectedEvents(claims: ClaimService.ClaimStore, evidence: EvidenceStore, gov: ReviewService.Governance,
                           claimId: Uuid, showAmount: real -> string): seq<TimelineEvent>
    requires claimId in claims.claims
    reads claims, evidence, gov
  {
    [SubmittedEvent(claims.claims[claimId])]
    + EvidenceEvents(evidence.EvidenceForClaim(claimId))
    + FirstReviewEvent(gov, claimId, AUTHORITY)
    + FirstReviewEvent(gov, claimId, COMMUNITY)
    + MintEvents(gov, claimId, showAmount)
  }

  /** A timeline holds no event of type `t` when none of its events has it. */
  lemma {:induction false} CountAbsent(s: seq<TimelineEvent>, t: string)
    requires NoneOfType(s, t)
    ensures CountType(s, t) == 0
    decreases |s|
  {
    if |s| > 0 {
      assert s[|s| - 1] in s;
      assert forall x :: x in s[..|s| - 1] ==> x in s;
      CountAbsent(s[..|s| - 1], t);
    }
  }

  lemma {:induction false} CountConcat(a: seq<TimelineEvent>, b: seq<TimelineEvent>, t: string)
    ensures CountType(a + b, t) == CountType(a, t) + CountType(b, t)
    decreases |b|
  {
    if |b| == 0 {
      assert a + b == a;
    } else {
      var p := b[..|b| - 1];
      CountConcat(a, p, t);
      assert (a + b)[..|a + b| - 1] == a + p;
    }
  }

  lemma CountPieces(sub: seq<TimelineEvent>, ev: seq<TimelineEvent>, auth: seq<TimelineEvent>,
                    comm: seq<TimelineEvent>, mint: seq<TimelineEvent>, t: string)
    ensures CountType(sub + ev + auth + comm + mint, t) ==
            CountType(sub, t) + CountType(ev, t) + CountType(auth, t) + CountType(comm, t) + CountType(mint, t)
  {
    CountConcat(sub, ev, t);
    CountConcat(sub + ev, auth, t);
    CountConcat(sub + ev + auth, comm, t);
    CountConcat(sub + ev + auth + comm, mint, t);
  }

  /** A timeline of at most one event holds at most one of each type. */
  lemma CountAtMostOne(s: seq<TimelineEvent>, t: string)
    requires |s| <= 1
    ensures CountType(s, t) <= 1
  {
    if |s| == 1 {
      assert s[..0] == [];
    }
  }

  predicate NoneOfType(s: seq<TimelineEvent>, t: string) {
    forall x :: x in s ==> x.eventType != t
  }

  /** The collected events hold exactly one event of a type only the first
      piece, a single event, has. */
  lemma OnlyFirstCount(sub: seq<TimelineEvent>, ev: seq<TimelineEvent>, auth: seq<TimelineEvent>,
                       comm: seq<TimelineEvent>, mint: seq<TimelineEvent>, t: string)
    requires |sub| == 1 && sub[0].eventType == t
    requires NoneOfType(ev, t) && NoneOfType(auth, t) && NoneOfType(comm, t) && NoneOfType(mint, t)
    ensures CountType(sub + ev + auth + comm + mint, t) == 1
  {
    CountPieces(sub, ev, auth, comm, mint, t);
    assert sub[..0] == [];
    CountAbsent(ev, t);
    CountAbsent(auth, t);
    CountAbsent(comm, t);
    CountAbsent(mint, t);
  }

  /** The collected events hold at most one event of a type that only one
      piece, of at most one event, can contribute (`which` numbers the
      pieces from 0). */
  lemma OnePieceCount(sub: seq<TimelineEvent>, ev: seq<TimelineEvent>, auth: seq<TimelineEvent>,
                      comm: seq<TimelineEvent>, mint: seq<TimelineEvent>, t: string, which: nat)
    requires 2 <= which <= 4
    requires NoneOfType(sub, t) && NoneOfType(ev, t)
    requires which != 2 ==> NoneOfType(auth, t)
    requires which != 3 ==> NoneOfType(comm, t)
    requires which != 4 ==> NoneOfType(mint, t)
    requires |auth| <= 1 && |comm| <= 1 && |mint| <= 1
    ensures CountType(sub + ev + auth + comm + mint, t) <= 1
  {
    CountPieces(sub, ev, auth, comm, mint, t);
    CountAbsent(sub, t);
    CountAbsent(ev, t);
    if which == 2 { CountAtMostOne(auth, t); } else { CountAbsent(auth, t); }
    if which == 3 { CountAtMostOne(comm, t); } else { CountAbsent(comm, t); }
    if which == 4 { CountAtMostOne(mint, t); } else { CountAbsent(mint, t); }
  }

  /** Counting the collected events piece by piece: one submission event,
      none from evidence, at most one per review role and one mint event. */
  lemma CollectedCounts(sub: seq<TimelineEvent>, ev: seq<TimelineEvent>, auth: seq<TimelineEvent>,
                        comm: seq<TimelineEvent>, mint: seq<TimelineEvent>)
    requires |sub| == 1 && sub[0].eventType == SubmittedType
    requires forall x :: x in ev ==> x.eventType in EvidenceEventTypes
    requires |auth| <= 1 && forall x :: x in auth ==> x.eventType == AuthorityType
    requires |comm| <= 1 && forall x :: x in comm ==> x.eventType == CommunityType
    requires |mint| <= 1 && forall x :: x in mint ==> x.eventType == MintedType
    ensures var s := sub + ev + auth + comm + mint;
      && CountType(s, SubmittedType) == 1
      && CountType(s, AuthorityType) <= 1
      && CountType(s, CommunityType) <= 1
      && CountType(s, MintedType) <= 1
  {
    assert forall x :: x in sub ==> x == sub[0];
    assert NoneOfType(ev, SubmittedType) && NoneOfType(ev, AuthorityType);
    assert NoneOfType(ev, CommunityType) && NoneOfType(ev, MintedType);
    OnlyFirstCount(sub, ev, auth, comm, mint, SubmittedType);
    OnePieceCount(sub, ev, auth, comm, mint, AuthorityType, 2);
    OnePieceCount(sub, ev, auth, comm, mint, CommunityType, 3);
    OnePieceCount(sub, ev, auth, comm, mint, MintedType, 4);
  }

  /** The timeline of `build_timeline`: empty for an unknown claim;
      otherwise the collected events sorted by timestamp (stably, so events
      with the same timestamp keep their collection order). It starts from
      the claim's submission, holds at most one event per review role and
      one mint event, and every event comes from a known source. */
  function Timeline(claims: ClaimService.ClaimStore, evidence: EvidenceStore, gov: ReviewService.Governance,
                    claimId: Uuid, showAmount: real -> string): (t: seq<TimelineEvent>)
    reads claims, evidence, gov
    ensures claimId !in claims.claims ==> t == []
    ensures claimId in claims.claims ==>
      && SortedBy(t, Timestamp)
      && multiset(t) == multiset(CollectedEvents(claims, evidence, gov, claimId, showAmount))
      && SubmittedEvent(claims.claims[claimId]) in t
      && CountType(t, SubmittedType) == 1
      && CountType(t, AuthorityType) <= 1
      && CountType(t, CommunityType) <= 1
      && CountType(t, MintedType) <= 1
      && (forall e :: e in t ==> e.source in Sources)
  {
    if claimId !in claims.claims then []
    else
      SortedCollectedFacts(claims, evidence, gov, claimId, showAmount);
      SortBy(CollectedEvents(claims, evidence, gov, claimId, showAmount), Timestamp)
  }

  /** The facts `Timeline` promises, about the sorted collected events. */
  lemma SortedCollectedFacts(claims: ClaimService.ClaimStore, evidence: EvidenceStore, gov: ReviewService.Governance,
                             claimId: Uuid, showAmount: real -> string)
    requires claimId in claims.claims
    ensures var s := CollectedEvents(claims, evidence, gov, claimId, showAmount);
      var t := SortBy(s, Timestamp);
      && SortedBy(t, Timestamp)
      && multiset(t) == multiset(s)
      && SubmittedEvent(claims.claims[claimId]) in t
      && CountType(t, SubmittedType) == 1
      && CountType(t, AuthorityType) <= 1
      && CountType(t, CommunityType) <= 1
      && CountType(t, MintedType) <= 1
      && (forall e :: e in t ==> e.source in Sources)
  {
    var s := CollectedEvents(claims, evidence, gov, claimId, showAmount);
    CollectedEventsFacts(claims, evidence, gov, claimId, showAmount);
    SortedKeepsCounts(s);
  }

  /** The collected events, before sorting: the submission first, the
      counts of `CollectedCounts`, and known sources only. */
  lemma CollectedEventsFacts(claims: ClaimService.ClaimStore, evidence: EvidenceStore, gov: ReviewService.Governance,
                             claimId: Uuid, showAmount: real -> string)
    requires claimId in claims.claims
    ensures var s := CollectedEvents(claims, evidence, gov, claimId, showAmount);
      && s[0] == SubmittedEvent(claims.claims[claimId])
      && CountType(s, SubmittedType) == 1
      && CountType(s, AuthorityType) <= 1
      && CountType(s, CommunityType) <= 1
      && CountType(s, MintedType) <= 1
      && (forall e :: e in s ==> e.source in Sources)
  {
    CollectedCounts([SubmittedEvent(claims.claims[claimId])], EvidenceEvents(evidence.EvidenceForClaim(claimId)),
                    FirstReviewEvent(gov, claimId, AUTHORITY), FirstReviewEvent(gov, claimId, COMMUNITY),
                    MintEvents(gov, claimId, showAmount));
  }

  /** Sorting keeps the events, so it keeps every count and every source. */
  lemma SortedKeepsCounts(s: seq<TimelineEvent>)
    requires |s| > 0
    ensures var t := SortBy(s, Timestamp);
      && SortedBy(t, Timestamp)
      && multiset(t) == multiset(s)
      && s[0] in t
      && CountType(t, SubmittedType) == CountType(s, SubmittedType)
      && CountType(t, AuthorityType) == CountType(s, AuthorityType)
      && CountType(t, CommunityType) == CountType(s, CommunityType)
      && CountType(t, MintedType) == CountType(s, MintedType)
      && (forall e :: e in t ==> e in s)
  {
    SortBySorted(s, Timestamp);
    var t := SortBy(s, Timestamp);
    CountPermutation(t, s, SubmittedType);
    CountPermutation(t, s, AuthorityType);
    CountPermutation(t, s, CommunityType);
    CountPermutation(t, s, MintedType);
    assert s[0] in multiset(t);
    assert forall e :: e in t ==> e in multiset(s);
  }

  /** The loop of `build_timeline` over the claim's evidence, appending
      the event of each record that has one. */
  method AppendEvidenceEvents(events: seq<TimelineEvent>, evs: seq<Evidence>) returns (r: seq<TimelineEvent>)
    ensures r == events + EvidenceEvents(evs)
  {
    r := events;
    var i := 0;
    while i < |evs|
      invariant 0 <= i <= |evs|
      invariant r == events + EvidenceEvents(evs[..i])
    {
      var ev := EvidenceEvent(evs[i]);
      if ev.Some? {
        r := r + [ev.value];
      }
      assert evs[..i + 1][..i] == evs[..i];
      i := i + 1;
    }
    assert evs[..i] == evs;
  }

  /** Appends the event of the first of `reviews`, the claim's reviews of
      `role`, if there is one. */
  method AppendFirstReview(events: seq<TimelineEvent>, reviews: seq<ReviewRecord>,
                           gov: ReviewService.Governance, claimId: Uuid, role: ReviewRole)
    returns (r: seq<TimelineEvent>)
    requires reviews == gov.GetReviewsByClaim(claimId, Some(role))
    ensures r == events + FirstReviewEvent(gov, claimId, role)
  {
    r := events;
    if |reviews| > 0 {
      r := r + [ReviewEvent(reviews[0])];
    }
  }

  /** `build_timeline`: the submission event, then one event per matching
      evidence record in a loop, the first review of each role and the
      mint, sorted by timestamp at the end. */
  method BuildTimeline(claims: ClaimService.ClaimStore, evidence: EvidenceStore, gov: ReviewService.Governance,
                       claimId: Uuid, showAmount: real -> string)
    returns (timeline: seq<TimelineEvent>)
    ensures timeline == Timeline(claims, evidence, gov, claimId, showAmount)
  {
    if claimId !in claims.claims {
      return [];
    }
    timeline := [SubmittedEvent(claims.claims[claimId])];
    timeline := AppendEvidenceEvents(timeline, evidence.EvidenceForClaim(claimId));
    var authority := gov.GetReviewsByClaim(claimId, Some(AUTHORITY));
    timeline := AppendFirstReview(timeline, authority, gov, claimId, AUTHORITY);
    var community := gov.GetReviewsByClaim(claimId, Some(COMMUNITY));
    timeline := AppendFirstReview(timeline, community, gov, claimId, COMMUNITY);
    var credit := gov.GetMintedCreditByClaim(claimId);
    if credit.Some? {
      timeline := timeline + [MintEvent(credit.value, showAmount)];
    }
    assert timeline == CollectedEvents(claims, evidence, gov, claimId, showAmount);
    timeline := SortBy(timeline, Timestamp);
  }

  /** `build_ai_verdict_summary`: None when the claim has no consistency
      result, otherwise the stored result's verdict, ranges, deviation,
      confidence and explanation. */
  function BuildAiVerdictSummary(consistency: AiConsistencyService.ConsistencyStore, claimId: Uuid)
    : (r: Option<AIVerdictSummary>)
    requires consistency.Valid()
    reads consistency
    ensures r.None? <==> claimId !in consistency.results
    ensures r.Some? ==>
      var c := consistency.results[claimId];
      && r.value.verdict == c.verdict
      && r.value.claimedMin == c.claimedMin && r.value.claimedMax == c.claimedMax
      && r.value.aiMin == c.estimatedMin && r.value.aiMax == c.estimatedMax
      && r.value.deviationPercent == c.deviationPercent
      && r.value.confidenceScore == c.confidenceScore
      && r.value.explanation == c.explanation
      && 0.0 <= r.value.confidenceScore <= 1.0
  {
    match consistency.GetResultByClaimId(claimId)
    case None => None
    case Some(c) =>
      var s := NewAIVerdictSummary(AIVerdictSummary(c.verdict, c.claimedMin, c.claimedMax, c.estimatedMin,
                                                    c.estimatedMax, c.deviationPercent, c.confidenceScore,
                                                    c.explanation));
      Some(s.value)
  }

  /** The health of a credit: fully burned is INVALIDATED, partially burned
      or at risk is DEGRADED with the share of the amount that remains (0
      for a credit of no tonnes), and an active credit is HEALTHY. */
  function CreditHealth(c: MintedCredit): (h: CreditHealthStatus)
    ensures h.status == INVALIDATED <==> c.status == FULLY_BURNED
    ensures h.status == DEGRADED <==> c.status == PARTIALLY_BURNED || c.status == AT_RISK
    ensures h.status == HEALTHY <==> c.status == ACTIVE
    ensures h.status == DEGRADED ==>
      && h.reason.Degradation? && h.reason.remaining == c.remaining && h.reason.amount == c.amount
      && (c.amount <= 0.0 ==> h.reason.remainingPercent == 0.0)
      && (c.amount > 0.0 ==> h.reason.remainingPercent * c.amount == c.remaining * 100.0)
  {
    match c.status
    case FULLY_BURNED => CreditHealthStatus(INVALIDATED, FullyBurned)
    case PARTIALLY_BURNED | AT_RISK =>
      var pct := if c.amount > 0.0 then (c.remaining / c.amount) * 100.0 else 0.0;
      CreditHealthStatus(DEGRADED, Degradation(pct, c.remaining, c.amount))
    case ACTIVE => CreditHealthStatus(HEALTHY, ActiveCredit)
  }

  /** For a sound credit the remaining share lies within [0, 100] percent. */
  lemma HealthPercentBounds(c: MintedCredit)
    requires ReviewService.SoundCredit(c)
    requires CreditHealth(c).status == DEGRADED
    ensures 0.0 <= CreditHealth(c).reason.remainingPercent <= 100.0
  {
    if c.amount > 0.0 {
      var q := c.remaining / c.amount;
      assert q * c.amount == c.remaining;
      assert (1.0 - q) * c.amount == c.amount - c.remaining;
      assert CreditHealth(c).reason.remainingPercent == q * 100.0;
    }
  }

  /** A monitoring run that finds the NDVI fell by more than 0.05 leaves a
      credit with tonnes remaining no longer healthy. */
  lemma DeclineEndsHealth(c: MintedCredit, delta: real)
    requires ReviewService.SoundCredit(c) && c.remaining > 0.0 && delta < -0.05
    ensures CreditHealth(CreditMonitoringService.CreditAfterRun(c, delta)).status != HEALTHY
  {
    CreditMonitoringService.RunKeepsCreditSound(c, delta);
  }

  /** `compute_credit_health`: None when the claim has no credit, otherwise
      the health of its first credit. */
  function ComputeCreditHealth(gov: ReviewService.Governance, claimId: Uuid): (r: Option<CreditHealthStatus>)
    reads gov
    ensures r.None? <==> gov.CreditOf(claimId).None?
    ensures r.Some? ==> r.value == CreditHealth(gov.CreditOf(claimId).value)
  {
    match gov.CreditOf(claimId)
    case None => None
    case Some(c) => Some(CreditHealth(c))
  }

  datatype ReportError = UnknownClaim

  /** `build_transparency_report`: an unknown claim is refused; otherwise
      the report carries the claim's timeline, verdict summary and credit
      health. */
  method BuildTransparencyReport(claims: ClaimService.ClaimStore, evidence: EvidenceStore,
                                 gov: ReviewService.Governance, consistency: AiConsistencyService.ConsistencyStore,
                                 claimId: Uuid, showAmount: real -> string)
    returns (r: Result<TransparencyReport, ReportError>)
    requires consistency.Valid()
    ensures r.Failure? <==> claimId !in claims.claims
    ensures r.Success? ==>
      && r.value.claimId == claimId
      && r.value.timeline == Timeline(claims, evidence, gov, claimId, showAmount)
      && r.value.timeline != []
      && r.value.aiVerdict == BuildAiVerdictSummary(consistency, claimId)
      && r.value.creditHealth == ComputeCreditHealth(gov, claimId)
  {
    if claimId !in claims.claims {
      return Failure(UnknownClaim);
    }
    var timeline := BuildTimeline(claims, evidence, gov, claimId, showAmount);
    var verdict := BuildAiVerdictSummary(consistency, claimId);
    var health := ComputeCreditHealth(gov, claimId);
    r := Success(TransparencyReport(claimId, timeline, verdict, health));
  }
}
