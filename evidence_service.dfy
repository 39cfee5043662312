/** `services/evidence_service.py`: the append-only evidence store. A record
    is hashed when it is created and is never updated or deleted; anyone can
    recompute the hash to check that a record is unchanged. */
module EvidenceService {
  import opened Wrappers
  import opened Uuids
  import opened Strings
  import opened Collections
  import opened ClaimModel

  /** The kinds of evidence the services write (the enumeration itself lives
      in `models/evidence.py`, which is not part of this model). */
  datatype EvidenceType = SYSTEM_AI | USER_UPLOAD | DOCUMENT | COMMUNITY_REPORT

  /** What a caller submits. */
  datatype EvidenceSubmission = EvidenceSubmission(
    claimId: Uuid, evType: EvidenceType, source: string, title: string,
    description: string, dataRef: string, confidenceWeight: real)

  /** The fields the hash covers: everything but the hash itself. */
  datatype EvidenceContent = EvidenceContent(
    id: Uuid, claimId: Uuid, evType: EvidenceType, source: string, title: string,
    description: string, dataRef: string, confidenceWeight: real, createdAt: Time)

  /** A stored evidence record. */
  datatype Evidence = Evidence(
    id: Uuid, claimId: Uuid, evType: EvidenceType, source: string, title: string,
    description: string, dataRef: string, confidenceWeight: real, hash: string, createdAt: Time)

  function ContentOf(e: Evidence): EvidenceContent {
    EvidenceContent(e.id, e.claimId, e.evType, e.source, e.title, e.description, e.dataRef,
                    e.confidenceWeight, e.createdAt)
  }

  /** The sort key of `get_evidence_for_claim`. */
  function CreatedAt(e: Evidence): int { e.createdAt }

  /** The record `create_evidence` stores for a submission: the fresh id,
      the clock's time and the hash of the content. */
  function Stamped(sub: EvidenceSubmission, id: Uuid, now: Time, digest: EvidenceContent -> string): (e: Evidence)
    ensures e.id == id && e.createdAt == now && e.claimId == sub.claimId && e.evType == sub.evType
    ensures e.source == sub.source && e.title == sub.title && e.description == sub.description
    ensures e.dataRef == sub.dataRef && e.confidenceWeight == sub.confidenceWeight
    ensures e.hash == digest(ContentOf(e))
  {
    var content := EvidenceContent(id, sub.claimId, sub.evType, sub.source, sub.title, sub.description,
                                   sub.dataRef, sub.confidenceWeight, now);
    Evidence(id, sub.claimId, sub.evType, sub.source, sub.title, sub.description,
             sub.dataRef, sub.confidenceWeight, digest(content), now)
  }

  /** The public, lightweight view of a record. */
  datatype EvidenceSummary = EvidenceSummary(
    id: Uuid, evType: EvidenceType, source: string, title: string, confidenceWeight: real,
    hash: string, createdAt: Time, dataRef: string)

  function SummaryOf(e: Evidence): EvidenceSummary {
    EvidenceSummary(e.id, e.evType, e.source, e.title, e.confidenceWeight, e.hash, e.createdAt, e.dataRef)
  }

  /** The answer of `verify_evidence_integrity`: validity and message. */
  datatype IntegrityCheck = IntegrityCheck(valid: bool, message: string)

  const NotFoundMessage := "Evidence not found"
  const MatchMessage := "Evidence integrity verified - hash matches"
  const MismatchMessage := "INTEGRITY FAILURE - hash mismatch detected"

  const MrvTitle := "Satellite-based MRV (Sentinel-2)"
  const GeeRefPrefix := "gee://sentinel2/ndvi/claim-"
  const MaxDataRef := 1000
  const MinDescription := 10
  const MaxDescription := 10000

  /** The weight of an MRV record for its stated confidence, matched after
      lower-casing: low 0.4, medium 0.7, high 0.9, anything else 0.7. */
  function ConfidenceWeight(confidence: string): (w: real)
    ensures AsciiLower(confidence) == "low" ==> w == 0.4
    ensures AsciiLower(confidence) == "high" ==> w == 0.9
    ensures AsciiLower(confidence) != "low" && AsciiLower(confidence) != "high" ==> w == 0.7
  {
    var c := AsciiLower(confidence);
    if c == "low" then 0.4 else if c == "medium" then 0.7 else if c == "high" then 0.9 else 0.7
  }

  /** `" " * n` */
  function Spaces(n: nat): (r: string)
    ensures |r| == n && forall i :: 0 <= i < n ==> r[i] == ' '
  {
    seq(n, i => ' ')
  }

  /** The field normalisation of `create_ai_mrv_evidence`, reassigning its
      locals one step at a time as the source does. `analysis` is the
      formatted analysis text, `failureReason` the optional rejection reason,
      `dataRef` the optional preview path. */
  method NormalizeMrvFields(claimId: Uuid, analysis: string, confidence: string,
                            dataRef: Option<string>, failureReason: Option<string>)
    returns (weight: real, ref: string, description: string)
    ensures weight == ConfidenceWeight(confidence)
    ensures 0 < |ref| <= MaxDataRef
    ensures dataRef.Some? && Strip(dataRef.value, Whitespace) != "" ==>
      ref == Take(Strip(dataRef.value, Whitespace), MaxDataRef)
    ensures (dataRef.None? || Strip(dataRef.value, Whitespace) == "") ==>
      ref == GeeRefPrefix + UuidText(claimId)
    ensures MinDescription <= |description| <= MaxDescription
    ensures var full := if failureReason.Some? && failureReason.value != ""
                        then analysis + " Result: " + failureReason.value else analysis;
      if |full| >= MinDescription then description == Take(full, MaxDescription)
      else description == full + Spaces(MinDescription - |full|)
  {
    description := analysis;
    if failureReason.Some? && failureReason.value != "" {
      description := description + " Result: " + failureReason.value;
    }
    weight := ConfidenceWeight(confidence);
    ref := NormalizeDataRef(claimId, dataRef);
    description := FitDescription(description);
  }

  /** The data reference: the stripped preview path when there is one,
      otherwise the claim's satellite reference, cut to 1000 characters. */
  method NormalizeDataRef(claimId: Uuid, dataRef: Option<string>) returns (ref: string)
    ensures 0 < |ref| <= MaxDataRef
    ensures dataRef.Some? && Strip(dataRef.value, Whitespace) != "" ==>
      ref == Take(Strip(dataRef.value, Whitespace), MaxDataRef)
    ensures (dataRef.None? || Strip(dataRef.value, Whitespace) == "") ==>
      ref == GeeRefPrefix + UuidText(claimId)
  {
    if dataRef.Some? && Strip(dataRef.value, Whitespace) != "" {
      ref := Strip(dataRef.value, Whitespace);
    } else {
      ref := GeeRefPrefix + UuidText(claimId);
    }
    if |ref| > MaxDataRef {
      ref := ref[..MaxDataRef];
    }
  }

  /** The description, padded with spaces to 10 characters and cut to
      10000. */
  method FitDescription(full: string) returns (description: string)
    ensures MinDescription <= |description| <= MaxDescription
    ensures |full| >= MinDescription ==> description == Take(full, MaxDescription)
    ensures |full| < MinDescription ==> description == full + Spaces(MinDescription - |full|)
  {
    description := full;
    if |description| < MinDescription {
      description := description + Spaces(MinDescription - |description|);
    }
    if |description| > MaxDescription {
      description := description[..MaxDescription];
    }
  }

  /** `ref` and `description` are what `create_ai_mrv_evidence` stores for
      the given claim, analysis text, optional reference and optional
      rejection reason: the stripped reference cut to 1000 characters, or
      the claim's satellite reference; the analysis with the reason after
      " Result: ", padded to 10 and cut to 10000 characters. */
  ghost predicate MrvFields(claimId: Uuid, analysis: string, dataRef: Option<string>, failureReason: Option<string>,
                            ref: string, description: string)
  {
    && (dataRef.Some? && Strip(dataRef.value, Whitespace) != "" ==>
          ref == Take(Strip(dataRef.value, Whitespace), MaxDataRef))
    && ((dataRef.None? || Strip(dataRef.value, Whitespace) == "") ==>
          ref == GeeRefPrefix + UuidText(claimId))
    && var full := if failureReason.Some? && failureReason.value != ""
                   then analysis + " Result: " + failureReason.value else analysis;
       if |full| >= MinDescription then description == Take(full, MaxDescription)
       else description == full + Spaces(MinDescription - |full|)
  }

  /** `evidence_db`, in insertion order. `digest` is the record hash, over
      every field but the hash itself. */
  class EvidenceStore {
    var records: seq<Evidence>
    const digest: EvidenceContent -> string

    /** Ids are unique, and every record carries the hash of its content,
        as it did when it was created. */
    ghost predicate Valid()
      reads this
    {
      && (forall i, j :: 0 <= i < j < |records| ==> records[i].id != records[j].id)
      && (forall e :: e in records ==> e.hash == digest(ContentOf(e)))
    }

    predicate HasId(id: Uuid)
      reads this
    {
      exists e :: e in records && e.id == id
    }

    constructor (digest: EvidenceContent -> string)
      ensures records == [] && this.digest == digest && Valid()
    {
      records := [];
      this.digest := digest;
    }

    /** `create_evidence`: the record gets the fresh `id`, the clock's `now`
        and the hash of its content, and is appended; nothing already stored
        changes. */
    method CreateEvidence(sub: EvidenceSubmission, id: Uuid, now: Time) returns (e: Evidence)
      requires Valid() && !HasId(id)
      modifies this
      ensures Valid()
      ensures e == Stamped(sub, id, now, digest)
      ensures records == old(records) + [e]
    {
      e := Stamped(sub, id, now, digest);
      records := records + [e];
    }

    /** `get_evidence_by_id` */
    function GetEvidenceById(id: Uuid): (r: Option<Evidence>)
      reads this
      ensures r.Some? <==> HasId(id)
      ensures r.Some? ==> r.value in records && r.value.id == id
    {
      FindId(records, id)
    }

    /** `get_evidence_for_claim`: exactly the claim's records, oldest first;
        records with the same timestamp keep their insertion order. */
    function EvidenceForClaim(claimId: Uuid): (r: seq<Evidence>)
      reads this
      ensures forall e :: e in r <==> e in records && e.claimId == claimId
      ensures multiset(r) == multiset(Filter(records, (e: Evidence) => e.claimId == claimId))
      ensures SortedBy(r, CreatedAt)
    {
      var mine := Filter(records, (e: Evidence) => e.claimId == claimId);
      var sorted := SortBy(mine, CreatedAt);
      SortBySorted(mine, CreatedAt);
      assert forall e :: e in sorted <==> e in multiset(mine);
      sorted
    }

    /** `get_evidence_summaries_for_claim`: one summary per record of the
        claim, in the same order, with the record's id, hash and reference. */
    function SummariesForClaim(claimId: Uuid): (r: seq<EvidenceSummary>)
      reads this
      ensures |r| == |EvidenceForClaim(claimId)|
      ensures forall i :: 0 <= i < |r| ==>
        var e := EvidenceForClaim(claimId)[i];
        r[i].id == e.id && r[i].hash == e.hash && r[i].dataRef == e.dataRef && r[i].createdAt == e.createdAt
    {
      var es := EvidenceForClaim(claimId);
      seq(|es|, i requires 0 <= i < |es| => SummaryOf(es[i]))
    }

    /** `verify_evidence_integrity`: an unknown id is reported as not found;
        otherwise the record is valid exactly when its stored hash is the
        hash of its content. */
    function VerifyEvidenceIntegrity(id: Uuid): (r: IntegrityCheck)
      reads this
      ensures !HasId(id) ==> r == IntegrityCheck(false, NotFoundMessage)
      ensures HasId(id) ==>
        var e := GetEvidenceById(id).value;
        r.valid == (e.hash == digest(ContentOf(e))) &&
        r.message == (if r.valid then MatchMessage else MismatchMessage)
    {
      match GetEvidenceById(id)
      case None => IntegrityCheck(false, NotFoundMessage)
      case Some(e) =>
        if e.hash == digest(ContentOf(e)) then IntegrityCheck(true, MatchMessage)
        else IntegrityCheck(false, MismatchMessage)
    }

    /** `create_ai_mrv_evidence`: a SYSTEM_AI record from the "system" source
        with the normalised weight, reference and description. */
    method CreateAiMrvEvidence(claimId: Uuid, analysis: string, confidence: string,
                               dataRef: Option<string>, failureReason: Option<string>, id: Uuid, now: Time)
      returns (e: Evidence)
      requires Valid() && !HasId(id)
      modifies this
      ensures Valid()
      ensures records == old(records) + [e]
      ensures e.id == id && e.claimId == claimId && e.createdAt == now
      ensures e.evType == SYSTEM_AI && e.source == "system" && e.title == MrvTitle
      ensures e.confidenceWeight == ConfidenceWeight(confidence)
      ensures 0 < |e.dataRef| <= MaxDataRef
      ensures MinDescription <= |e.description| <= MaxDescription
      ensures MrvFields(claimId, analysis, dataRef, failureReason, e.dataRef, e.description)
    {
      var weight, ref, description := NormalizeMrvFields(claimId, analysis, confidence, dataRef, failureReason);
      e := CreateEvidence(EvidenceSubmission(claimId, SYSTEM_AI, "system", MrvTitle, description, ref, weight), id, now);
    }
  }

  /** The first record with the given id (`dict.get` on unique ids). */
  function FindId(rs: seq<Evidence>, id: Uuid): (r: Option<Evidence>)
    ensures r.Some? <==> exists e :: e in rs && e.id == id
    ensures r.Some? ==> r.value in rs && r.value.id == id
    decreases |rs|
  {
    if |rs| == 0 then None
    else if rs[0].id == id then Some(rs[0])
    else
      assert rs == [rs[0]] + rs[1..];
      FindId(rs[1..], id)
  }

  /** Since records are only ever appended, hashed as they are created,
      every record in the store passes the integrity check. */
  lemma StoredRecordsVerify(store: EvidenceStore, id: Uuid)
    requires store.Valid() && store.HasId(id)
    ensures store.VerifyEvidenceIntegrity(id).valid
    ensures store.VerifyEvidenceIntegrity(id).message == MatchMessage
  {
  }
}
