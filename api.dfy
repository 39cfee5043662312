/** `main.py`: the parts of the HTTP layer that decide something on their
    own. These are the upload name checks (`_sanitize_filename`,
    `_ext_allowed`, `_is_video` and the name a stored upload gets), the
    status a claim is left in by the creation endpoint, and the background
    trigger that runs the satellite verification. Routing, the response
    models, the file streaming and the task scheduling are not modelled. */
module Api {
  import opened Wrappers
  import opened Uuids
  import opened Strings
  import opened ClaimModel
  import opened ClaimService
  import opened EvidenceService
  import opened VerificationModel
  import AiConsistencyService
  import VS = VerificationService

  const AllowedImageExts: set<string> := {"jpg", "jpeg", "png", "webp"}
  const AllowedVideoExts: set<string> := {"mp4", "mov", "webm"}
  const AllowedExts: set<string> := AllowedImageExts + AllowedVideoExts

  /** The characters `_sanitize_filename` keeps besides the alphanumerics. */
  const SafePunctuation: set<char> := {'-', '_', '.', ' '}

  /** The characters an output of `_sanitize_filename` is made of besides
      the alphanumerics. */
  const NamePunctuation: set<char> := {'-', '_', '.'}

  /** What the model needs to know of `str.isalnum`, which is given as the
      parameter `alnum`: it holds for the ASCII letters and digits and for
      no other ASCII character, and never for a whitespace character. */
  predicate PythonAlnum(alnum: char -> bool) {
    && (forall c :: IsAsciiAlnum(c) ==> alnum(c))
    && (forall c :: c as int < 128 && !IsAsciiAlnum(c) ==> !alnum(c))
    && (forall c :: c in Whitespace ==> !alnum(c))
  }

  /** The text after the last `sep` of `s`, or all of `s` without one. */
  function AfterLast(s: string, sep: char): (r: string)
    ensures sep !in r
    ensures |r| <= |s| && r == s[|s| - |r|..]
    ensures |r| < |s| ==> s[|s| - |r| - 1] == sep
    decreases |s|
  {
    if |s| == 0 || s[|s| - 1] == sep then "" else AfterLast(s[..|s| - 1], sep) + [s[|s| - 1]]
  }

  /** `r` is a whole `/`-separated component of `s`, starting at `k`. */
  predicate ComponentAt(s: string, r: string, k: nat) {
    && k + |r| <= |s| && s[k..k + |r|] == r
    && (k == 0 || s[k - 1] == '/')
    && (k + |r| == |s| || s[k + |r|] == '/')
  }

  /** A component `Path` drops: empty or `.`. */
  predicate Trivial(c: string) {
    |c| == 0 || (|c| == 1 && c[0] == '.')
  }

  /** `Path(s).name` for a POSIX path: the last component that is neither
      empty nor `.`, or the empty string when there is none. */
  function PathName(s: string): (r: string)
    ensures '/' !in r && (r == "" || !Trivial(r))
    decreases |s|
  {
    var seg := AfterLast(s, '/');
    if !Trivial(seg) then seg
    else if |seg| == |s| then ""
    else PathName(s[..|s| - |seg| - 1])
  }

  /** The path with its last component and the `/` before it removed. */
  function Parent(s: string): (h: string)
    requires |AfterLast(s, '/')| < |s|
    ensures |h| + 1 + |AfterLast(s, '/')| == |s|
    ensures s == h + "/" + AfterLast(s, '/')
  {
    var seg := AfterLast(s, '/');
    var h := s[..|s| - |seg| - 1];
    assert s == h + [s[|h|]] + s[|h| + 1..];
    h
  }

  /** When the last component is trivial, the name comes from the parent. */
  lemma PathNameOfTrivialTail(s: string)
    requires Trivial(AfterLast(s, '/')) && |AfterLast(s, '/')| < |s|
    ensures PathName(s) == PathName(Parent(s))
  {
  }

  lemma ComponentOfParent(s: string, n: string, k: nat)
    requires |AfterLast(s, '/')| < |s|
    requires ComponentAt(Parent(s), n, k)
    ensures ComponentAt(s, n, k)
  {
    var head := Parent(s);
    assert s[..|head|] == head;
    assert s[k..k + |n|] == head[k..k + |n|];
    assert s[|head|] == '/';
  }

  lemma LastComponent(s: string)
    ensures ComponentAt(s, AfterLast(s, '/'), |s| - |AfterLast(s, '/')|)
  {
  }

  /** The name is a whole component of the path, starting at `k`. */
  lemma {:induction false} PathNameIsComponent(s: string) returns (k: nat)
    ensures PathName(s) != "" ==> ComponentAt(s, PathName(s), k)
    decreases |s|
  {
    var seg := AfterLast(s, '/');
    k := 0;
    if !Trivial(seg) {
      k := |s| - |seg|;
      LastComponent(s);
    } else if |seg| < |s| {
      var head := Parent(s);
      PathNameOfTrivialTail(s);
      k := PathNameIsComponent(head);
      if PathName(head) != "" {
        ComponentOfParent(s, PathName(head), k);
      }
    }
  }

  /** A name without `/` other than `.` is its own `Path(...).name`. */
  lemma PathNameOfPlainName(s: string)
    requires '/' !in s && s != "."
    ensures PathName(s) == s
  {
    var seg := AfterLast(s, '/');
    assert |seg| == |s|;
  }

  lemma {:induction false} AfterLastAfterSeparator(p: string, q: string)
    ensures AfterLast(p + "/" + q, '/') == AfterLast(q, '/')
    decreases |q|
  {
    if |q| > 0 && q[|q| - 1] != '/' {
      assert (p + "/" + q)[..|p + "/" + q| - 1] == p + "/" + q[..|q| - 1];
      AfterLastAfterSeparator(p, q[..|q| - 1]);
    }
  }

  lemma PathNameOfNonTrivialTail(s: string)
    requires !Trivial(AfterLast(s, '/'))
    ensures PathName(s) == AfterLast(s, '/')
  {
  }

  lemma PathNameOfTrivialWhole(s: string)
    requires Trivial(AfterLast(s, '/')) && |AfterLast(s, '/')| == |s|
    ensures PathName(s) == ""
  {
  }

  /** Cutting the last component of `h/t` leaves `h` when `t` is that
      component. */
  lemma ParentOfJoin(h: string, t: string)
    requires AfterLast(h + "/" + t, '/') == t
    ensures Parent(h + "/" + t) == h
  {
    var s := h + "/" + t;
    assert Parent(s) == s[..|h|];
  }

  lemma JoinWholeTrivial(p: string, q: string)
    requires AfterLast(p + "/" + q, '/') == AfterLast(q, '/')
    requires Trivial(AfterLast(q, '/')) && |AfterLast(q, '/')| == |q|
    ensures PathName(q) == "" && PathName(p + "/" + q) == PathName(p)
  {
    PathNameOfTrivialTail(p + "/" + q);
    PathNameOfTrivialWhole(q);
    ParentOfJoin(p, q);
  }

  lemma JoinAssoc(p: string, a: string, b: string)
    ensures p + "/" + (a + "/" + b) == (p + "/" + a) + "/" + b
  {
  }

  lemma JoinTrivialTail(p: string, q: string) returns (q': string)
    requires AfterLast(p + "/" + q, '/') == AfterLast(q, '/')
    requires Trivial(AfterLast(q, '/')) && |AfterLast(q, '/')| < |q|
    ensures |q'| < |q|
    ensures PathName(q) == PathName(q') && PathName(p + "/" + q) == PathName(p + "/" + q')
  {
    var seg := AfterLast(q, '/');
    q' := Parent(q);
    PathNameOfTrivialTail(q);
    var s := p + "/" + q;
    assert q == q' + "/" + seg;
    JoinAssoc(p, q', seg);
    var t := (p + "/" + q') + "/" + seg;
    assert s == t;
    assert AfterLast(t, '/') == seg;
    ParentOfJoin(p + "/" + q', seg);
    PathNameOfTrivialTail(t);
  }

  /** Only the final component counts: the name of `p/q` is the name of `q`
      when `q` has one, and otherwise (`q` empty, `.` or made of such
      components) the name of `p`. */
  lemma {:induction false} PathNameOfJoin(p: string, q: string)
    ensures PathName(q) != "" ==> PathName(p + "/" + q) == PathName(q)
    ensures PathName(q) == "" ==> PathName(p + "/" + q) == PathName(p)
    decreases |q|
  {
    var seg := AfterLast(q, '/');
    AfterLastAfterSeparator(p, q);
    if !Trivial(seg) {
      PathNameOfNonTrivialTail(p + "/" + q);
      PathNameOfNonTrivialTail(q);
    } else if |seg| == |q| {
      JoinWholeTrivial(p, q);
    } else {
      var q' := JoinTrivialTail(p, q);
      PathNameOfJoin(p, q');
    }
  }

  /** The comprehension of `_sanitize_filename`: the characters that are
      alphanumeric or one of `-`, `_`, `.` and space, in order. */
  function KeepSafe(s: string, alnum: char -> bool): (r: string)
    ensures forall i :: 0 <= i < |r| ==> alnum(r[i]) || r[i] in SafePunctuation
    ensures forall c :: c in r ==> c in s
    decreases |s|
  {
    if |s| == 0 then ""
    else if alnum(s[0]) || s[0] in SafePunctuation then [s[0]] + KeepSafe(s[1..], alnum)
    else KeepSafe(s[1..], alnum)
  }

  /** The comprehension keeps a text made of safe characters whole. */
  lemma {:induction false} KeepSafeKeepsSafe(s: string, alnum: char -> bool)
    requires forall i :: 0 <= i < |s| ==> alnum(s[i]) || s[i] in SafePunctuation
    ensures KeepSafe(s, alnum) == s
    decreases |s|
  {
    if |s| > 0 {
      KeepSafeKeepsSafe(s[1..], alnum);
      assert [s[0]] + s[1..] == s;
    }
  }

  /** `s.replace(" ", "_")` */
  function Underscored(s: string): (r: string)
    ensures |r| == |s|
    ensures forall i :: 0 <= i < |s| ==> r[i] == (if s[i] == ' ' then '_' else s[i])
  {
    seq(|s|, i requires 0 <= i < |s| => if s[i] == ' ' then '_' else s[i])
  }

  /** What stripping and underscoring keep of the comprehension's output:
      safe characters other than the space, each taken from the name or
      an underscore. */
  lemma SafeTail(name: string, alnum: char -> bool, cs: set<char>)
    ensures var safe := Underscored(Strip(KeepSafe(name, alnum), cs));
      && (forall i :: 0 <= i < |safe| ==> alnum(safe[i]) || safe[i] in NamePunctuation)
      && (forall i :: 0 <= i < |safe| ==> safe[i] != ' ' && (safe[i] in name || safe[i] == '_'))
  {
    var kept := KeepSafe(name, alnum);
    var stripped := Strip(kept, cs);
    var safe := Underscored(stripped);
    var k := StripSlice(kept, cs);
    forall i | 0 <= i < |safe|
      ensures alnum(safe[i]) || safe[i] in NamePunctuation
      ensures safe[i] != ' ' && (safe[i] in name || safe[i] == '_')
    {
      assert stripped[i] == kept[k + i];
      assert kept[k + i] in kept;
    }
  }

  /** Stripping with a set that holds the space leaves ends outside it,
      and underscoring does not change them. */
  lemma SafeEnds(kept: string, cs: set<char>)
    requires ' ' in cs
    ensures var safe := Underscored(Strip(kept, cs));
      |safe| > 0 ==> safe[0] !in cs && safe[|safe| - 1] !in cs
  {
    var k := StripSlice(kept, cs);
  }

  /** The name `_sanitize_filename` falls back to. */
  const Fallback: string := "upload"

  lemma FallbackFacts()
    ensures forall i :: 0 <= i < |Fallback| ==> IsAsciiAlnum(Fallback[i])
    ensures Fallback[0] !in Whitespace && Fallback[|Fallback| - 1] !in Whitespace
    ensures '/' !in Fallback && '.' !in Fallback
  {
  }

  /** The comprehension stripped of whitespace with spaces turned into
      underscores. */
  function SafePart(name: string, alnum: char -> bool): (safe: string)
    ensures forall i :: 0 <= i < |safe| ==> alnum(safe[i]) || safe[i] in NamePunctuation
    ensures forall i :: 0 <= i < |safe| ==> safe[i] != ' ' && (safe[i] in name || safe[i] == '_')
    ensures |safe| > 0 ==> safe[0] !in Whitespace && safe[|safe| - 1] !in Whitespace
    ensures safe == "" <==> Strip(KeepSafe(name, alnum), Whitespace) == ""
  {
    SafeTail(name, alnum, Whitespace);
    SafeEnds(KeepSafe(name, alnum), Whitespace);
    Underscored(Strip(KeepSafe(name, alnum), Whitespace))
  }

  /** `_sanitize_filename(filename)`, with `str.isalnum` given as `alnum`:
      the result is never empty, is made of alphanumerics (or the ASCII
      letters of "upload"), `-`, `_` and `.` only, carries no `/` and no
      space, and does not start or end with whitespace; "upload" stands in
      when nothing is left. */
  function SanitizeFilename(filename: string, alnum: char -> bool): (r: string)
    ensures r != ""
    ensures forall i :: 0 <= i < |r| ==> alnum(r[i]) || IsAsciiAlnum(r[i]) || r[i] in NamePunctuation
    ensures forall i :: 0 <= i < |r| ==> r[i] != '/' && r[i] != ' '
    ensures r[0] !in Whitespace && r[|r| - 1] !in Whitespace
    ensures Strip(KeepSafe(PathName(filename), alnum), Whitespace) == "" ==> r == Fallback
  {
    var safe := SafePart(PathName(filename), alnum);
    FallbackFacts();
    if safe == "" then Fallback else safe
  }

  /** A name that already meets every promise of `_sanitize_filename`
      comes back unchanged. */
  lemma SafeNameUnchanged(name: string, alnum: char -> bool)
    requires name != "" && name != "."
    requires forall i :: 0 <= i < |name| ==> alnum(name[i]) || name[i] in NamePunctuation
    requires forall i :: 0 <= i < |name| ==> name[i] != '/' && name[i] != ' '
    requires name[0] !in Whitespace && name[|name| - 1] !in Whitespace
    ensures SanitizeFilename(name, alnum) == name
  {
    assert '/' !in name;
    PathNameOfPlainName(name);
    KeepSafeKeepsSafe(name, alnum);
    StripKeeps(name, Whitespace);
    assert Underscored(name) == name;
  }

  /** Every character of a sanitised name is alphanumeric for Python. */
  lemma SanitizedIsAlnum(filename: string, alnum: char -> bool)
    requires PythonAlnum(alnum)
    ensures var r := SanitizeFilename(filename, alnum);
      forall i :: 0 <= i < |r| ==> alnum(r[i]) || r[i] in NamePunctuation
  {
  }

  /** Sanitising twice is sanitising once, except for a result of `.`,
      which the second pass reads as the current directory. */
  lemma SanitizeIdempotent(filename: string, alnum: char -> bool)
    requires PythonAlnum(alnum)
    requires SanitizeFilename(filename, alnum) != "."
    ensures SanitizeFilename(SanitizeFilename(filename, alnum), alnum) == SanitizeFilename(filename, alnum)
  {
    var r := SanitizeFilename(filename, alnum);
    SanitizedIsAlnum(filename, alnum);
    SafeNameUnchanged(r, alnum);
  }

  /** The exception to idempotence: a name reduced to `.` becomes "upload"
      on a second pass. */
  lemma SanitizeDotTwice(alnum: char -> bool)
    requires !alnum('?') && !alnum('.')
    ensures SanitizeFilename("?.", alnum) == "."
    ensures SanitizeFilename(".", alnum) == "upload"
  {
    PathNameOfPlainName("?.");
    assert KeepSafe("?.", alnum) == ".";
    StripKeeps(".", Whitespace);
    assert Underscored(".") == ".";
    assert AfterLast(".", '/') == ".";
    assert PathName(".") == "";
    assert KeepSafe("", alnum) == "";
    assert Strip("", Whitespace) == "";
  }

  /** The extension `_ext_allowed` and `_is_video` look at: the text after
      the last `.`, lower-cased, or the empty string for a name without a
      `.`. */
  function ExtOf(filename: string): (r: string)
    ensures '.' !in filename ==> r == ""
    ensures '.' in filename ==>
      && |r| < |filename| && filename[|filename| - |r| - 1] == '.'
      && '.' !in filename[|filename| - |r|..]
      && r == AsciiLower(filename[|filename| - |r|..])
  {
    if '.' in filename then
      AsciiLower(AfterLast(filename, '.'))
    else ""
  }

  /** `_ext_allowed(filename)` */
  predicate ExtAllowed(filename: string) {
    ExtOf(filename) in AllowedExts
  }

  /** `_is_video(filename)` */
  predicate IsVideo(filename: string) {
    ExtOf(filename) in AllowedVideoExts
  }

  /** The extension of `p.e` is `e` lower-cased whenever `e` has no `.`,
      whatever `p` holds. */
  lemma ExtOfJoinedName(p: string, e: string)
    requires '.' !in e
    ensures ExtOf(p + "." + e) == AsciiLower(e)
  {
    var f := p + "." + e;
    assert f[|p|] == '.';
    var r := ExtOf(f);
    assert f[|f| - |r|..] == e;
  }

  /** A name without `.` is never accepted, and every video name is an
      accepted name. */
  lemma ExtensionRules(filename: string)
    ensures '.' !in filename ==> !ExtAllowed(filename) && !IsVideo(filename)
    ensures IsVideo(filename) ==> ExtAllowed(filename)
  {
  }

  datatype UploadError = FileTypeNotAllowed

  /** `upload.filename or "upload"` */
  function NameOrUpload(filename: Option<string>): string {
    if filename.None? || filename.value == "" then Fallback else filename.value
  }

  /** The stand-in name "upload" keeps no `.` through sanitising. */
  lemma SanitizedUploadHasNoDot(alnum: char -> bool)
    ensures forall i :: 0 <= i < |SanitizeFilename(Fallback, alnum)| ==> SanitizeFilename(Fallback, alnum)[i] != '.'
  {
    FallbackFacts();
    PlainNameKeepsNoDot(Fallback, alnum);
  }

  /** A name with neither `/` nor `.` sanitises to a name without `.`. */
  lemma PlainNameKeepsNoDot(name: string, alnum: char -> bool)
    requires '/' !in name && '.' !in name
    ensures '.' !in SanitizeFilename(name, alnum)
  {
    PathNameOfPlainName(name);
    FallbackFacts();
    SafePartKeepsDotOut(name, alnum);
  }

  /** Sanitising takes no `.` into a name that has none. */
  lemma SafePartKeepsDotOut(name: string, alnum: char -> bool)
    requires '.' !in name
    ensures '.' !in SafePart(name, alnum)
  {
    var safe := SafePart(name, alnum);
    forall i | 0 <= i < |safe| ensures safe[i] != '.' {
      assert safe[i] in name || safe[i] == '_';
    }
  }

  /** A name without `.` has no extension and is refused. */
  lemma NoDotRefused(f: string)
    requires forall i :: 0 <= i < |f| ==> f[i] != '.'
    ensures !ExtAllowed(f)
  {
  }

  /** A file without a name is refused. */
  lemma FallbackRefused(alnum: char -> bool)
    ensures !ExtAllowed(SanitizeFilename(Fallback, alnum))
  {
    SanitizedUploadHasNoDot(alnum);
    NoDotRefused(SanitizeFilename(Fallback, alnum));
  }

  /** An accepted name holds a `.`. */
  lemma AcceptedHasDot(f: string)
    requires ExtAllowed(f)
    ensures '.' in f
  {
  }

  /** The per-file guard of the upload endpoint: the sanitised name is
      accepted when its extension is allowed; a file without a name is
      sanitised as "upload", which has no extension, and is refused. */
  function UploadCheck(filename: Option<string>, alnum: char -> bool): (r: Result<string, UploadError>)
    ensures r.Success? <==> ExtAllowed(SanitizeFilename(NameOrUpload(filename), alnum))
    ensures r.Success? ==> r.value == SanitizeFilename(NameOrUpload(filename), alnum)
    ensures r.Success? ==> '/' !in r.value && '.' in r.value
    ensures NameOrUpload(filename) == Fallback ==> r == Failure(FileTypeNotAllowed)
  {
    var safe := SanitizeFilename(NameOrUpload(filename), alnum);
    FallbackRefused(alnum);
    if safe == "" || !ExtAllowed(safe) then Failure(FileTypeNotAllowed)
    else
      AcceptedHasDot(safe);
      Success(safe)
  }

  /** `f"{uuid4()}_{safe_name}"`: the name an upload is stored under. */
  function StoredName(prefix: Uuid, safeName: string): (r: string)
    ensures |r| == 37 + |safeName| && r[..36] == UuidText(prefix)
  {
    UuidText(prefix) + "_" + safeName
  }

  /** A stored name is a single path component other than `.` and `..`,
      so the file lands inside the claim's directory, and two uploads with
      different prefixes never share a name. */
  lemma StoredNameRules(prefix: Uuid, other: Uuid, safeName: string, otherName: string)
    requires '/' !in safeName
    ensures '/' !in StoredName(prefix, safeName)
    ensures StoredName(prefix, safeName) != "." && StoredName(prefix, safeName) != ".."
    ensures prefix != other ==> StoredName(prefix, safeName) != StoredName(other, otherName)
  {
    var r := StoredName(prefix, safeName);
    var t := UuidText(prefix);
    forall i | 0 <= i < |r| ensures r[i] != '/' {
      if i < 36 {
        assert r[i] == t[i];
        assert t[i] == '-' || HexValue(t[i]).Some?;
      } else if i > 36 {
        assert r[i] == safeName[i - 37];
      }
    }
    if StoredName(prefix, safeName) == StoredName(other, otherName) {
      UuidTextInjective(prefix, other);
    }
  }

  /** The USER_UPLOAD record the endpoint creates for one accepted file. */
  function UploadSubmission(claimId: Uuid, prefix: Uuid, safeName: string): (sub: EvidenceSubmission)
    ensures sub.claimId == claimId && sub.evType == USER_UPLOAD && sub.source == "claimant"
    ensures sub.confidenceWeight == 0.6
    ensures sub.title == (if IsVideo(safeName) then "Claimant-uploaded video" else "Claimant-uploaded photo")
    ensures sub.dataRef == "/uploads/claims/" + UuidText(claimId) + "/" + StoredName(prefix, safeName)
  {
    EvidenceSubmission(claimId, USER_UPLOAD, "claimant",
                       if IsVideo(safeName) then "Claimant-uploaded video" else "Claimant-uploaded photo",
                       "User-submitted visual evidence for claim verification",
                       "/uploads/claims/" + UuidText(claimId) + "/" + StoredName(prefix, safeName), 0.6)
  }

  /** The creation endpoint: the claim is created as `create_claim` does and
      then left in AI_ANALYSIS_PENDING, stamped at `later`; a rejected
      submission changes nothing. */
  method CreateClaimEndpoint(claims: ClaimStore, sub: ClaimSubmission, id: Uuid, now: Time, later: Time)
    returns (r: Result<Claim, ClaimError>)
    requires claims.Valid() && id !in claims.claims
    modifies claims
    ensures claims.Valid()
    ensures BuildClaim(sub, id, now).Failure? ==>
      r == BuildClaim(sub, id, now) && claims.claims == old(claims.claims)
    ensures BuildClaim(sub, id, now).Success? ==>
      && r == Success(BuildClaim(sub, id, now).value.(status := AI_ANALYSIS_PENDING, updatedAt := later))
      && claims.claims == old(claims.claims)[id := r.value]
  {
    r := claims.CreateClaim(sub, id, now);
    if r.Success? {
      claims.SetStatus(id, AI_ANALYSIS_PENDING, later);
      r := Success(claims.claims[id]);
    }
  }

  /** The statuses from which the trigger starts a verification. */
  predicate Triggerable(s: ClaimStatus) {
    s == SUBMITTED || s == AI_ANALYSIS_PENDING || s == AI_ANALYSIS_IN_PROGRESS
  }

  /** The statuses that end the AI analysis stage. */
  predicate Settled(s: ClaimStatus) {
    s == AI_VERIFIED || s == AI_REJECTED
  }

  /** Every status the trigger writes under its guard is a governed step:
      from the triggerable status into AI_ANALYSIS_IN_PROGRESS, and from
      there to the settled status. */
  lemma TriggerStepsGoverned(from: ClaimStatus, to: ClaimStatus)
    requires Triggerable(from) && Settled(to)
    ensures GovernedStep(from, AI_ANALYSIS_IN_PROGRESS) && GovernedStep(AI_ANALYSIS_IN_PROGRESS, to)
    ensures GovernedPath([from, AI_ANALYSIS_IN_PROGRESS, to])
  {
  }

  /** `_trigger_ai_verification(claim_id)`. A missing claim or one outside
      SUBMITTED, AI_ANALYSIS_PENDING and AI_ANALYSIS_IN_PROGRESS is left
      alone and `None` is answered. Otherwise the claim is moved to
      AI_ANALYSIS_IN_PROGRESS and verified, and the answer is what
      `verify_claim` gave. A verification that raised before deciding
      leaves the claim AI_REJECTED; every other path leaves it where
      `verify_claim` put it. Either way the claim ends AI_VERIFIED or
      AI_REJECTED. */
  method TriggerAiVerification(verifier: VS.VerificationStore, claims: ClaimStore, consistency: AiConsistencyService.ConsistencyStore,
                               evidence: EvidenceStore, claimId: Uuid, ndvi: VS.NdviReadings,
                               preview: Option<string>, texts: VS.Narrative, ids: VS.FreshIds, now: Time)
    returns (r: Option<Result<VerificationResult, VS.VerifyError>>)
    requires verifier.Valid() && claims.Valid() && consistency.Valid() && evidence.Valid()
    requires ids.verificationId !in verifier.verifications
    requires !evidence.HasId(ids.mrvEvidenceId) && !evidence.HasId(ids.consistencyEvidenceId)
    requires ids.mrvEvidenceId != ids.consistencyEvidenceId
    modifies verifier, claims, consistency, evidence
    ensures verifier.Valid() && claims.Valid() && consistency.Valid() && evidence.Valid()
    ensures claimId !in old(claims.claims) || !Triggerable(old(claims.claims[claimId].status)) ==>
      && r.None?
      && verifier.verifications == old(verifier.verifications) && claims.claims == old(claims.claims)
      && consistency.results == old(consistency.results) && evidence.records == old(evidence.records)
    ensures claimId in old(claims.claims) && Triggerable(old(claims.claims[claimId].status)) ==>
      && r.Some? && claimId in claims.claims && Settled(claims.claims[claimId].status)
      && GovernedPath([old(claims.claims[claimId].status), AI_ANALYSIS_IN_PROGRESS, claims.claims[claimId].status])
    ensures claimId in old(claims.claims) && Triggerable(old(claims.claims[claimId].status)) ==>
      var started := old(claims.claims[claimId]).(status := AI_ANALYSIS_IN_PROGRESS, updatedAt := now);
      var a := VS.Assess(started, ndvi);
      && (a.Failure? ==>
            && r == Some(Failure(a.error))
            && claims.claims == old(claims.claims)[claimId := started.(status := AI_REJECTED)]
            && verifier.verifications == old(verifier.verifications)
            && consistency.results == old(consistency.results) && evidence.records == old(evidence.records))
      && (a.Success? ==>
            VS.RecordedVerification(old(verifier.verifications), old(claims.claims)[claimId := started],
                                    old(consistency.results), old(evidence.records),
                                    verifier.verifications, claims.claims, consistency.results, evidence.records,
                                    claimId, a.value, preview, texts, ids, now, r.value))
  {
    var found := claims.GetClaimById(claimId);
    if found.None? || !Triggerable(found.value.status) {
      return None;
    }
    claims.SetStatus(claimId, AI_ANALYSIS_IN_PROGRESS, now);
    var v := verifier.VerifyClaim(claims, consistency, evidence, claimId, ndvi, preview, texts, ids, now);
    r := Some(v);
    var status := claims.claims[claimId].status;
    if (v.Success? && !Settled(status))
       || (v.Failure? && (status == AI_ANALYSIS_PENDING || status == AI_ANALYSIS_IN_PROGRESS))
    {
      claims.SetStatus(claimId, AI_REJECTED, now);
    }
    TriggerStepsGoverned(found.value.status, claims.claims[claimId].status);
  }
}
