# Carbon-claim governance backend in Dafny

This project models the core of a carbon-credit governance backend. A
claimant submits a climate-action claim: what was done, where, and how many
tonnes of CO2e it is expected to remove. A satellite-based MRV
(measurement, reporting and verification) step estimates the real impact
from the change in a vegetation index (NDVI), and it approves or rejects
the claim. A consistency check compares the claimant's range with the AI
range. An authority review and then a community review follow. After both
approve, a simulated carbon credit is minted. Post-mint monitoring runs
burn part or all of the credit when the vegetation declines. Every step
writes append-only evidence records. A public transparency report, built
from all stores, shows the timeline, the verdict and the credit's health.

There is one Dafny module per source file. Each module-level dictionary the
services update in place is a class:

- `ClaimService.ClaimStore`: `claims_db`;
- `ReviewService.Governance`: `reviews_db` and `minted_credits_db`;
- `VerificationService.VerificationStore`: `verifications_db`;
- `AiConsistencyService.ConsistencyStore`: `consistency_results_db`;
- `EvidenceService.EvidenceStore`: `evidence_db`;
- `CreditMonitoringService.Monitor`: `monitoring_runs_db`.

Dictionaries that are only read by key are `map`s. Dictionaries that are
iterated (reviews, credits, evidence, runs) are `seq`s in insertion order,
which is Python's dictionary order. That keeps "first match" lookups and
the tie order of Python's stable `sorted` faithful. Each class keeps its
invariant in a `Valid()` predicate: ids are unique, credits are sound,
stored verifications are completed with non-negative ranges, and stored
evidence carries its own hash.

The pure decisions are functions with contracts, each paired with lemmas:

- the burn rule against the documented thresholds;
- the verdict and its overlap ratio;
- the confidence score;
- the MRV decision;
- the geometry rules;
- the filename sanitiser;
- the UUID conversions.

The methods that change state are proved against those functions. Python
floats are modelled as exact reals. `uuid4()` and `datetime.utcnow()` are
parameters (`id`, `now`). NDVI readings, shapely geometry facts and the
evidence hash are inputs or uninterpreted functions.

Helper modules: `Wrappers` (Option/Result), `Strings` (the Python string
operations used), `Collections` (list comprehensions, stable sort by key),
`Uuids` (`str(uuid)` and CPython's `UUID(text)`, with their round trip).

## Model

| member | source | states |
|---|---|---|
| ClaimModel.NewCarbonImpactEstimate | backend/app/models/claim.py:128-175 | accepted iff min <= max (equal bounds accepted, negatives accepted); fields kept; horizon defaults to 1 |
| ClaimModel.GovernedStepMovesForward | backend/app/models/claim.py:18-57 | every GovernedStep (the steps the trigger, the reviews and minting make) moves to a later stage, except re-entering the analysis; no GovernedStep leaves AI_REJECTED, REJECTED, MINTED or APPROVED. The unguarded verification endpoint makes steps outside this relation, as `VerificationService.ReverifyLeavesGovernedFlow` shows |
| ClaimModel.GovernedPathStage | backend/app/models/claim.py:18-57 | along any sequence of governed steps the stage never decreases |
| ClaimModel.MintedOnlyAfterReviews | backend/app/models/claim.py:18-57 | a path from SUBMITTED to MINTED passes AUTHORITY_REVIEWED and then COMMUNITY_REVIEWED just before minting |
| ReviewModel.CheckReviewFields | backend/app/models/review.py:61-100 | no error iff reviewer id has 1..200 chars, confidence is None or in [0, 1], and notes have at most 5000 chars |
| ReviewModel.NewReviewRecord | backend/app/models/review.py:103-142 | a record exists iff the submission's fields are valid; it carries the id, role, time, claim, decision, reviewer and notes |
| ReviewModel.NewMintedCredit | backend/app/models/review.py:145-191 | accepted iff amount >= 0 and remaining >= 0; starts ACTIVE and simulated, other fields kept |
| VerificationModel.NewVerifiedCarbonImpact | backend/app/models/verification.py:77-129 | accepted iff min <= max (negative bounds allowed); fields kept |
| VerificationModel.NewVerificationResult | backend/app/models/verification.py:202-260 | defaults: PENDING, no outcome, no impact, MEDIUM confidence, not completed |
| AiVerdictModel.NewConsistencyResult | backend/app/models/ai_verdict.py:61-130 | accepted iff all four bounds >= 0, confidence in [0, 1] and explanation >= 10 chars; value kept |
| MonitoringModel.DocumentedBurnRule | backend/app/models/monitoring.py:38-48 | OK iff delta >= -0.05, WARNING iff -0.15 <= delta < -0.05, FAILURE below; burn fraction \|delta\|/0.30 capped at 1, zero unless FAILURE |
| TransparencyModel.NewAIVerdictSummary | backend/app/models/transparency.py:69-100 | accepted iff confidence score in [0, 1]; value kept |
| TransparencyModel.EmptyReport | backend/app/models/transparency.py:147-174 | report defaults: empty timeline, no verdict, no credit health |
| CarbonEstimation.EstimateCo2eFromNdviDelta | backend/app/mrv/carbon_estimation.py:22-78 | min = delta·area·5·0.47·44/12, max = 3·min |
| CarbonEstimation.EstimateSign | backend/app/mrv/carbon_estimation.py:41-65 | positive delta and area give 0 < min < max; negative delta gives max < min < 0; zero gives 0 and 0; max > 0 iff delta > 0 |
| CarbonEstimation.EstimateAdditiveInArea | backend/app/mrv/carbon_estimation.py:56-65 | both bounds are additive in the area |
| CarbonEstimation.EstimateMonotoneInDelta | backend/app/mrv/carbon_estimation.py:56-65 | both bounds are non-decreasing in delta over a positive area |
| ClaimService.RadiusKmForClaimType | backend/app/services/claim_service.py:81-96 | 2.0 km iff forest, wetland, mangrove or avoided-deforestation type; 1.0 iff solar or wind; 3.0 iff OTHER |
| ClaimService.ValidatePolygon | backend/app/services/claim_service.py:113-122 | accepted iff shape readable, Polygon/MultiPolygon, non-empty, valid and of non-zero area; non-polygons get the type error |
| ClaimService.EnsureLocation | backend/app/services/claim_service.py:125-137 | the given point wins; otherwise the centroid |
| ClaimService.NormalizeGeometry | backend/app/services/claim_service.py:161-186 | an empty dict or one without "type" counts as no geometry; otherwise kept |
| ClaimService.NormalizeContact | backend/app/services/claim_service.py:167-168 | an empty contact becomes None, any other is kept |
| ClaimService.BuildClaim | backend/app/services/claim_service.py:140-213 | no point and no geometry is an error; a polygon gives POLYGON/USER_DRAWN with the submitted point, or the polygon's centroid when no point is given; a point alone gives a BUFFER/USER_POINT at the type's radius; the new claim keeps the submitted title, submitter, contact (empty as none), type, area and estimate, is SUBMITTED at `now`, has no verification and can be analysed |
| ClaimService.ClaimStore.CreateClaim | backend/app/services/claim_service.py:140-213 | stores the built claim under its id; a refused submission stores nothing |
| ClaimService.ClaimStore.GetClaimById | backend/app/services/claim_service.py:215-226 | Some iff the id is stored, and then the stored claim |
| ClaimService.ClaimStore.UpdateClaimGeometryAuthority | backend/app/services/claim_service.py:228-247 | unknown claim or invalid polygon changes nothing; otherwise POLYGON/AUTHORITY_DEFINED, status and an existing location kept |
| ReviewService.StatusAfterReview | backend/app/services/review_service.py:175-178 | reject iff REJECTED; an approval moves to AUTHORITY_REVIEWED or COMMUNITY_REVIEWED by role |
| ReviewService.ReviewIsGovernedStep | backend/app/services/review_service.py:147-236 | every status a review writes is a governed step from a status the review accepts |
| ReviewService.Governance.GetReviewsByClaim | backend/app/services/review_service.py:246-264 | exactly the stored reviews of the claim (and role, if given) |
| ReviewService.Governance.GetReviewById | backend/app/services/review_service.py:266-277 | Some iff a review has the id, and then that review |
| ReviewService.Governance.SubmitReview | backend/app/services/review_service.py:129-244 | invalid fields first (pydantic refuses the `ReviewSubmission` before the service runs, backend/app/models/review.py:61-101), then in the service's order: unknown claim, wrong status, duplicate review for the role; a failure writes nothing; success appends one record and sets the status by decision |
| ReviewService.Governance.CanMintCredits | backend/app/services/review_service.py:279-318 | eligible iff COMMUNITY_REVIEWED and both an approving authority and an approving community review exist; each of the six refusal reasons (claim missing, wrong status, no authority review, authority did not approve, no community review, community did not approve) exactly when every earlier check passed and its own check fails |
| ReviewService.Governance.GetMintedCreditByClaim | backend/app/services/review_service.py:378-392 | the loop returns the first credit of the claim, None iff there is none |
| ReviewService.Governance.GetMintedCreditById | backend/app/services/review_service.py:394-405 | Some iff a credit has the token id, and then that credit |
| ReviewService.Governance.MintCredits | backend/app/services/review_service.py:320-376 | ineligible claim or existing credit fails and writes nothing; otherwise one ACTIVE, simulated credit for the claim with remaining = amount, the given token id and baseline, minted at `now`, and the claim becomes MINTED (updated at `now`); at most one credit per claim |
| ReviewService.MintIsGovernedStep | backend/app/services/review_service.py:366-370 | COMMUNITY_REVIEWED to MINTED is a governed step |
| CreditMonitoringService.ApplyBurnRules | backend/app/services/credit_monitoring_service.py:217-252 | outcome is the documented band; burn = remaining · documented fraction, within [0, remaining] |
| CreditMonitoringService.RunKeepsCreditSound | backend/app/services/credit_monitoring_service.py:196-209 | band by band: no change at or above -0.05; AT_RISK for an ACTIVE credit down to -0.15; a partial burn down to -0.30; a full burn below; remaining never grows, never negative, never back to ACTIVE |
| CreditMonitoringService.RunsNeverRestore | backend/app/services/credit_monitoring_service.py:196-209 | over any sequence of runs the credit stays sound, its remaining never grows, it never returns to ACTIVE, and a fully burned credit is unchanged |
| CreditMonitoringService.ThresholdInfoBands | backend/app/services/credit_monitoring_service.py:254-316 | each threshold sentence of the evidence text is written exactly for its band |
| CreditMonitoringService.RunCheck | backend/app/services/credit_monitoring_service.py:120-168 | errors in source order: missing credit, credit of another claim, missing claim, no baseline, no location, no current NDVI |
| CreditMonitoringService.Monitor.RunMonitoring | backend/app/services/credit_monitoring_service.py:98-215 | a refused run writes nothing; otherwise one run with delta = current - baseline is appended, the credit takes its state after the burn rules, and one evidence record is appended |
| CreditMonitoringService.Monitor.GetMonitoringRunsByCredit | backend/app/services/credit_monitoring_service.py:318-332 | exactly the credit's runs, sorted by run date |
| CreditMonitoringService.Monitor.GetMonitoringRunsByClaim | backend/app/services/credit_monitoring_service.py:334-347 | exactly the claim's runs, sorted by run date |
| CreditMonitoringService.UpdateCredit | backend/app/services/credit_monitoring_service.py:196-209 | the step-by-step update equals the credit after the run |
| CreditMonitoringService.MonitoringEvidence | backend/app/services/credit_monitoring_service.py:254-316 | a SYSTEM_AI record from "system" titled as a monitoring run, weight 0.8, referencing the credit and the run |
| AiConsistencyService.DetermineVerdict | backend/app/services/ai_consistency_service.py:152-200 | STRONGLY_SUPPORTS iff one closed range contains the other; PARTIALLY_SUPPORTS iff they meet without containment; CONTRADICTS iff disjoint, with ratio 0; ratio in [0, 1] |
| AiConsistencyService.RatioBounds | backend/app/services/ai_consistency_service.py:166-196 | intersection/union lies in [0, 1] and is below 1 without containment |
| AiConsistencyService.VerdictSymmetric | backend/app/services/ai_consistency_service.py:152-200 | swapping the claimed and the AI range gives the same verdict and ratio |
| AiConsistencyService.ConfidenceScore | backend/app/services/ai_consistency_service.py:202-280 | the sum of the NDVI, area and overlap factors, within [0.2, 1] |
| AiConsistencyService.ConfidenceMonotone | backend/app/services/ai_consistency_service.py:239-279 | non-decreasing in NDVI change, area and overlap ratio |
| AiConsistencyService.ConfidenceTop | backend/app/services/ai_consistency_service.py:239-279 | the score is 1 iff delta > 0.15, area > 100 ha and ratio > 0.8 |
| AiConsistencyService.DeviationPercent | backend/app/services/ai_consistency_service.py:107-114 | 0 when the claimed midpoint is not positive; otherwise 100·(AI midpoint / claimed midpoint - 1), positive iff the AI midpoint is larger |
| AiConsistencyService.Evaluate | backend/app/services/ai_consistency_service.py:57-150 | inverted claimed or AI range is an error; otherwise a valid result for the claim with the verdict, ratio, deviation and score above |
| AiConsistencyService.ConsistencyStore.EvaluateClaimConsistency | backend/app/services/ai_consistency_service.py:57-150 | the result is stored under the claim id, replacing an earlier one; a failure stores nothing |
| AiConsistencyService.ConsistencyStore.GetResultByClaimId | backend/app/services/ai_consistency_service.py:372-382 | Some iff a result is stored for the claim, and then the latest one |
| VerificationService.ConfidenceFor | backend/app/services/verification_service.py:262-267 | HIGH iff \|delta\| > 0.15, MEDIUM iff 0.05 < \|delta\| <= 0.15, LOW otherwise |
| VerificationService.DeviationAsWritten | backend/app/services/verification_service.py:373-375 | as written: raises iff the claimed bounds sum to zero; otherwise deviation · midpoint = (point - midpoint) · 100 |
| VerificationService.ZeroMidpointRaises | backend/app/services/verification_service.py:373-375 | a claimed range -c..c (0..0 included) makes the as-written division raise; the corrected one gives None |
| VerificationService.DeviationFromClaim | backend/app/services/verification_service.py:373-375 | corrected: None iff the claimed midpoint is zero, else the as-written figure |
| VerificationService.Assess | backend/app/services/verification_service.py:132-436 | errors before any write (no location, no geometry, unsupported geometry, missing NDVI, area <= 0); APPROVED/AI_VERIFIED iff AI max > 0 with verified range 0.9·AI range and midpoint, and the deviation of the corrected `DeviationFromClaim` (the source raises at a zero claimed midpoint; see "## Left out"); otherwise REJECTED/AI_REJECTED with 0..0 and no deviation; bounds never negative |
| VerificationService.AssessAtZeroMidpoint | backend/app/services/verification_service.py:373-375 | where the model departs from the code: a claim whose bounds sum to zero, verified over growth, is approved with no deviation, while the as-written division fails on the same point estimate |
| VerificationService.AssessIgnoresStatus | backend/app/services/verification_service.py:98-436 | the decision does not depend on the claim's status: `verify_claim` has no status guard |
| VerificationService.ReverifyLeavesGovernedFlow | backend/app/main.py:482-511 | POST /verify on a MINTED or REJECTED claim writes AI_VERIFIED or AI_REJECTED (what `VerifyClaim` stores), which is no GovernedStep and goes back to an earlier stage |
| VerificationService.MrvRefFollowsPreview | backend/app/services/verification_service.py:640 | the MRV record keeps the non-blank preview path, stripped and cut to 1000 characters, and the claim's satellite reference otherwise |
| VerificationService.ApprovedIffGrowth | backend/app/services/verification_service.py:241-436 | approved iff the NDVI grew, and then 0 < verified min < verified max |
| VerificationService.MrvWeightOfConfidence | backend/app/services/verification_service.py:630-635 | the MRV evidence weight is 0.4 for LOW, 0.9 for HIGH, 0.7 otherwise |
| VerificationService.ConsistencyWeight | backend/app/services/verification_service.py:698-704 | 0.85 iff score >= 0.7, 0.65 iff 0.4 <= score < 0.7, 0.45 below |
| VerificationService.Clamp01 | backend/app/services/verification_service.py:495-498 | the score is clamped into [0, 1] and kept when already inside |
| VerificationService.MrvDataRef | backend/app/services/verification_service.py:640 | the preview path when there is one, otherwise the Earth Engine reference |
| VerificationService.ConsistencyEvidence | backend/app/services/verification_service.py:663-717 | a SYSTEM_AI record titled as the verdict, weighted by the score, referencing the claim |
| VerificationService.VerificationStore.GetVerificationById | backend/app/services/verification_service.py:719-729 | Some iff stored, and then a completed verification with ordered, non-negative bounds |
| VerificationService.VerificationStore.VerifyClaim | backend/app/services/verification_service.py:98-520 | a failed assessment writes nothing; otherwise the verification is stored under its id, the claim takes the new status and its verification id, a SYSTEM_AI MRV record from "system" for the claim, stamped `now`, is appended with the reference taken from the preview and the analysis (plus the rejection reason) as description, and only an approval runs and records the consistency evaluation, appending a SYSTEM_AI record from "system" for the claim with the consistency description, the `ai-consistency://claim-<id>` reference, a weight from the score and time `now`; it takes the corrected deviation, as `Assess` does |
| EvidenceService.ConfidenceWeight | backend/app/services/evidence_service.py:279-284 | low 0.4, high 0.9, anything else 0.7, after lower-casing |
| EvidenceService.NormalizeDataRef | backend/app/services/evidence_service.py:286-295 | the stripped path if non-blank, else the claim's Earth Engine reference; 1..1000 chars |
| EvidenceService.FitDescription | backend/app/services/evidence_service.py:297-303 | padded with spaces to 10 and cut to 10000 chars |
| EvidenceService.NormalizeMrvFields | backend/app/services/evidence_service.py:216-303 | the failure reason is appended after " Result: "; weight, reference and description as above |
| EvidenceService.EvidenceStore.CreateEvidence | backend/app/services/evidence_service.py:96-121 | appends one record with the fresh id, the time and the content's hash; nothing stored changes |
| EvidenceService.EvidenceStore.GetEvidenceById | backend/app/services/evidence_service.py:138-149 | Some iff a record has the id, and then that record |
| EvidenceService.EvidenceStore.EvidenceForClaim | backend/app/services/evidence_service.py:151-165 | exactly the claim's records, as a permutation, sorted by creation time |
| Collections.SortByStable | backend/app/services/evidence_service.py:164 | the sort by key is stable, as Python's `sorted` is: the elements sharing any one key value come out in their input order |
| EvidenceService.EvidenceStore.SummariesForClaim | backend/app/services/evidence_service.py:167-191 | one summary per record, same order, same id, hash, reference and time |
| EvidenceService.EvidenceStore.VerifyEvidenceIntegrity | backend/app/services/evidence_service.py:193-213 | unknown id gives (False, "Evidence not found"); otherwise valid iff the stored hash equals the content's hash |
| EvidenceService.EvidenceStore.CreateAiMrvEvidence | backend/app/services/evidence_service.py:216-325 | appends a SYSTEM_AI record from "system" with the normalised weight, reference and description: the stripped reference cut to 1000 characters or the claim's satellite reference, and the analysis with the reason after " Result: ", padded to 10 and cut to 10000 characters |
| EvidenceService.StoredRecordsVerify | backend/app/services/evidence_service.py:96-121 | every record in the append-only store passes the integrity check |
| TransparencyService.EvidenceEvent | backend/app/services/transparency_service.py:78-113 | SYSTEM_AI evidence gives an event iff its title or description matches the MRV, consistency or monitoring patterns; other evidence gives evidence_uploaded with the description cut to 200 chars plus "..." |
| TransparencyService.MrvEvidenceEvent | backend/app/services/transparency_service.py:79-88 | the MRV record the verification writes shows up as an MRV event |
| TransparencyService.ConsistencyEvidenceEvent | backend/app/services/transparency_service.py:89-96 | the verdict record shows up as a verdict event |
| TransparencyService.MonitoringEvidenceEvent | backend/app/services/transparency_service.py:97-104 | the monitoring record shows up as a monitoring event |
| TransparencyService.CollectedCounts | backend/app/services/transparency_service.py:63-152 | one submission event, at most one authority, community and mint event |
| TransparencyService.SortedKeepsCounts | backend/app/services/transparency_service.py:155 | sorting keeps every event and every count |
| TransparencyService.Timeline | backend/app/services/transparency_service.py:41-158 | empty for an unknown claim; otherwise sorted by timestamp, a permutation of the collected events, holding the submission event once and at most one event per review role and per mint |
| TransparencyService.BuildTimeline | backend/app/services/transparency_service.py:41-158 | the loop and the final sort give exactly the timeline above |
| TransparencyService.BuildAiVerdictSummary | backend/app/services/transparency_service.py:160-192 | None iff no consistency result; otherwise its verdict, ranges, deviation, score in [0, 1] and explanation |
| TransparencyService.CreditHealth | backend/app/services/transparency_service.py:213-236 | INVALIDATED iff FULLY_BURNED, DEGRADED iff PARTIALLY_BURNED or AT_RISK, HEALTHY iff ACTIVE; remaining percent 0 when the amount is 0 |
| TransparencyService.HealthPercentBounds | backend/app/services/transparency_service.py:224-229 | a sound credit's remaining percent is within [0, 100] |
| TransparencyService.DeclineEndsHealth | backend/app/services/transparency_service.py:213-236 | a run finding a fall of more than 0.05 leaves a credit with tonnes no longer HEALTHY |
| TransparencyService.ComputeCreditHealth | backend/app/services/transparency_service.py:194-237 | None iff the claim has no credit, else the health of its first credit |
| TransparencyService.BuildTransparencyReport | backend/app/services/transparency_service.py:239-279 | unknown claim fails; otherwise the non-empty timeline, the verdict summary and the credit health |
| Api.PathNameIsComponent | backend/app/main.py:309 | `Path(f).name` is a whole path component without `/` |
| Api.PathNameOfJoin | backend/app/main.py:309 | only the final path component counts |
| Api.SanitizeFilename | backend/app/main.py:307-312 | never empty; only alphanumerics and `-`, `_`, `.`; no `/` or space; no outer whitespace; "upload" when nothing safe is left |
| Api.SafeNameUnchanged | backend/app/main.py:307-312 | a name already meeting those rules is returned unchanged |
| Api.SanitizedIsAlnum | backend/app/main.py:307-312 | with Python's isalnum, every kept letter or digit is alphanumeric |
| Api.SanitizeIdempotent | backend/app/main.py:307-312 | sanitising twice equals once, unless the result is "." |
| Api.SanitizeDotTwice | backend/app/main.py:307-312 | the exception: "?." gives ".", and "." gives "upload" |
| Api.ExtOfJoinedName | backend/app/main.py:315-322 | the extension of `p.e` is `e` lower-cased |
| Api.ExtensionRules | backend/app/main.py:69-71 | a name without `.` is never allowed; every video name is allowed |
| Api.UploadCheck | backend/app/main.py:382-387 | a file is accepted iff its sanitised name has an allowed extension; a nameless file is refused |
| Api.StoredNameRules | backend/app/main.py:389-390 | a stored name is one path component and differs for different prefixes |
| Api.UploadSubmission | backend/app/main.py:394-407 | a USER_UPLOAD record from "claimant", weight 0.6, titled video or photo by extension, referencing the stored file |
| Api.CreateClaimEndpoint | backend/app/main.py:207-215 | a created claim is left AI_ANALYSIS_PENDING; a refused submission changes nothing |
| Api.TriggerAiVerification | backend/app/main.py:238-303 | does nothing unless SUBMITTED, PENDING or IN_PROGRESS; sets IN_PROGRESS, verifies (with the MRV and consistency records `VerifyClaim` states: SYSTEM_AI, from "system", for the claim, stamped `now`, the consistency one with its description and `ai-consistency://claim-<id>` reference), and always leaves the claim AI_VERIFIED or AI_REJECTED, through governed steps only; it takes the corrected deviation, as `Assess` does |
| Api.TriggerStepsGoverned | backend/app/main.py:238-303 | each status the trigger writes under its guard (into IN_PROGRESS, then to AI_VERIFIED or AI_REJECTED) is a GovernedStep |
| Storage.UuidToStrRemovesUuids | backend/app/storage/__init__.py:73-92 | the output holds no UUID |
| Storage.UuidToStrKeepsShape | backend/app/storage/__init__.py:85-92 | same keys, list and tuple lengths and order; other leaves unchanged |
| Storage.UuidToStrIdempotent | backend/app/storage/__init__.py:73-92 | converting twice equals converting once |
| Storage.StrToUuidWith | backend/app/storage/__init__.py:95-109 | None selects the default field list |
| Storage.ConvertsField | backend/app/storage/__init__.py:114-124 | a string under a listed key or `id` becomes a UUID when it parses, else stays |
| Storage.RoundTrip | backend/app/storage/__init__.py:73-133 | reading back what was written gives the tree back when its UUIDs sit under converting keys |
| Storage.ListedUuidStaysText | backend/app/storage/__init__.py:125-132 | a UUID in a list is read back as text |
| Uuids.ParseUuidText | backend/app/storage/__init__.py:114-116 | `UUID(str(u)) == u` |

## Left out

- Google Earth Engine (`earth_engine/*`): NDVI readings are inputs (`NdviReadings`, `currentNdvi`), None when the remote call fails or finds no image.
- `_generate_and_save_mrv_preview`: an HTTP download and a file write; its result is the input `preview`.
- JSON persistence (`_load_*`, `_save_*`, `atomic_write_json`, `read_json`, `storage/persistence.py`): file I/O; the stores are the source of truth.
- FastAPI plumbing: routes, HTTP error mapping, CORS, static files and background scheduling. The upload endpoint's claim-existence and empty-list checks and its loop over files are left out too. `_persist_upload` is a chunked file write.
- shapely and pyproj: `shape()`, validity, area and centroid are fields of the input `Shape`; a buffer is the value `Buffer(center, radius)`.
- The evidence hash (`compute_hash`/`verify_hash` of `models/evidence.py`, which is not part of this model) is the uninterpreted function `digest`.
- `_get_baseline_ndvi_for_mint`: a regex over free text; its result is the input `baseline` of `MintCredits`.
- Human-readable text: explanations, summaries, methodology strings and log prints. Number formatting is the parameter `Formats` or `showAmount`. The consistency explanation and evidence description are the inputs in `Narrative`.
- Timestamps and `uuid4()` are parameters, fresh where the source relies on freshness.
- Concurrency: the code has no locking, and races between background tasks are not modelled.
- Floats are exact reals: no rounding, NaN or infinity. NaN checks are not modelled.
- `VerificationSummary.data_quality_flag_count` and the other record types that no modelled operation builds are left out.
- `Api.SanitizeFilename`: the "only alphanumerics" clause is stated as "isalnum or an ASCII letter or digit". With `str.isalnum` as an arbitrary parameter, the "upload" fallback's letters need not satisfy it. `Api.SanitizedIsAlnum` closes the gap for any `isalnum` that agrees with Python on ASCII.
- `Api.ExtOf`: `str.lower()` is modelled on ASCII letters only. Full Unicode case mapping is out of scope; every allowed extension is ASCII.
- `EvidenceService.ConfidenceWeight`: `str.lower()` is modelled on ASCII letters only, for the same reason.
- `Uuids.ParseUuid` follows CPython's `UUID(hex)` except `int(…, 16)`'s leniencies (surrounding whitespace, `+`, `_`), which such strings rarely hit.
- `VerificationService.Assess`, and with it `VerificationService.VerificationStore.VerifyClaim` and `Api.TriggerAiVerification`, take the corrected deviation `DeviationFromClaim`. For a claim whose bounds sum to zero (0..0 among them), verified over growth, the code raises ZeroDivisionError before any write, and the trigger then leaves the claim AI_REJECTED. The model instead approves it (AI_VERIFIED), with no deviation figure, and writes the records. `VerificationService.AssessAtZeroMidpoint` states this departure; "## Findings" records it.
- `CreditMonitoringService.RunCheck`: a claim without a location raises AttributeError in the source; the model reports it as the error `NoLocation`, before any write, as the source does.

Where the code and its documentation disagree, the model follows the code
(the zero-midpoint division above is the one place where it models the
corrected behaviour instead):

- APPROVED and AI_ANALYZED are never written.
- Minting goes straight from COMMUNITY_REVIEWED to MINTED.
- The minted amount is not bounded by the verified range.
- `verify_claim` has no status guard, so the verification endpoint can re-run it on any claim.

## Findings

| source | as written | input that shows it | evidently intended | confidence | as-written member | corrected member |
|---|---|---|---|---|---|---|
| backend/app/services/verification_service.py:373-375 | the deviation divides by the claimed midpoint without a guard | a claim with carbon range 0..0 (allowed by `validate_carbon_range`) and a positive NDVI change: ZeroDivisionError after the NDVI work, so the trigger marks the claim AI_REJECTED although the satellite shows growth | no deviation figure (the field is optional) when the claimed midpoint is zero, as `ai_consistency_service.py:107-114` guards | not executed | VerificationService.ZeroMidpointRaises | VerificationService.DeviationFromClaim |
