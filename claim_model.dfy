/** The claim records of `models/claim.py`: statuses, claim types, geometry
    descriptors, the claimant's carbon estimate and the stored claim. */
module ClaimModel {
  import opened Wrappers
  import opened Uuids

  /** A `datetime.utcnow()` reading, as an instant on an integer time line. */
  type Time = int

  datatype ClaimStatus =
    | SUBMITTED
    | AI_ANALYSIS_PENDING
    | AI_ANALYSIS_IN_PROGRESS
    | VERIFIED
    | AI_VERIFIED
    | AI_REJECTED
    | AI_ANALYZED
    | AUTHORITY_REVIEWED
    | COMMUNITY_REVIEWED
    | APPROVED
    | REJECTED
    | MINTED

  datatype ClaimType =
    | MANGROVE_RESTORATION
    | SOLAR_INSTALLATION
    | WIND_INSTALLATION
    | REFORESTATION
    | WETLAND_RESTORATION
    | AVOIDED_DEFORESTATION
    | OTHER

  datatype GeometryType = POINT | BUFFER | POLYGON

  datatype GeometrySource = USER_POINT | USER_DRAWN | AUTHORITY_DEFINED

  datatype GeoLocation = GeoLocation(latitude: real, longitude: real)

  /** The geometry types shapely reports that the backend distinguishes. */
  datatype GeomKind = PointKind | PolygonKind | MultiPolygonKind | OtherKind

  /** What shapely's `shape(geojson)` tells the backend about a geometry. */
  datatype Shape = Shape(kind: GeomKind, isEmpty: bool, isValid: bool, area: real, centroid: GeoLocation)

  /** A GeoJSON dictionary as submitted: how many keys it has, its "type"
      entry, and the geometry shapely reads from it (None when `shape()`
      raises on it). */
  datatype GeoJson = GeoJson(keyCount: nat, typeField: Option<string>, parsed: Option<Shape>)

  /** A stored claim geometry: a polygon that was drawn and validated, or the
      circle pyproj buffers around a point. */
  datatype Geometry =
    | Drawn(shape: Shape)
    | Buffer(center: GeoLocation, radiusKm: real)

  /** The geometry type shapely reports for a stored geometry; a buffer is a Polygon. */
  function KindOf(g: Geometry): GeomKind {
    match g
    case Drawn(s) => s.kind
    case Buffer(_, _) => PolygonKind
  }

  datatype CarbonImpactEstimate = CarbonImpactEstimate(
    minTonnes: real,
    maxTonnes: real,
    timeHorizonYears: int)

  datatype ModelError = MinAboveMax

  /** Pydantic's construction of a `CarbonImpactEstimate`: any sign is
      accepted, the horizon defaults to one year, and a lower bound above
      the upper bound is refused. */
  function NewCarbonImpactEstimate(minTonnes: real, maxTonnes: real, horizon: Option<int>): (r: Result<CarbonImpactEstimate, ModelError>)
    ensures r.Success? <==> minTonnes <= maxTonnes
    ensures r.Success? ==> r.value.minTonnes == minTonnes && r.value.maxTonnes == maxTonnes
    ensures r.Success? && horizon.None? ==> r.value.timeHorizonYears == 1
    ensures r.Success? && horizon.Some? ==> r.value.timeHorizonYears == horizon.value
  {
    if minTonnes > maxTonnes then Failure(MinAboveMax)
    else Success(CarbonImpactEstimate(minTonnes, maxTonnes, if horizon.Some? then horizon.value else 1))
  }

  datatype ClaimSubmission = ClaimSubmission(
    claimType: ClaimType,
    title: string,
    submitterName: string,
    submitterContact: Option<string>,
    location: Option<GeoLocation>,
    geometry: Option<GeoJson>,
    areaHectares: Option<real>,
    estimate: CarbonImpactEstimate)

  datatype Claim = Claim(
    id: Uuid,
    claimType: ClaimType,
    title: string,
    submitterName: string,
    submitterContact: Option<string>,
    location: Option<GeoLocation>,
    geometry: Option<Geometry>,
    geometryType: Option<GeometryType>,
    geometrySource: Option<GeometrySource>,
    areaHectares: Option<real>,
    estimate: CarbonImpactEstimate,
    status: ClaimStatus,
    createdAt: Time,
    updatedAt: Time,
    verificationId: Option<Uuid>)

  /** The status changes the services make along the governance flow:
      queueing and running the AI analysis, its verdict, the authority and
      community reviews, and minting. */
  predicate GovernedStep(from: ClaimStatus, to: ClaimStatus) {
    match from
    case SUBMITTED => to in {AI_ANALYSIS_PENDING, AI_ANALYSIS_IN_PROGRESS}
    case AI_ANALYSIS_PENDING => to in {AI_ANALYSIS_IN_PROGRESS, AI_REJECTED}
    case AI_ANALYSIS_IN_PROGRESS => to in {AI_ANALYSIS_IN_PROGRESS, AI_VERIFIED, AI_REJECTED}
    case AI_ANALYZED => to in {AUTHORITY_REVIEWED, REJECTED}
    case AI_VERIFIED => to in {AUTHORITY_REVIEWED, REJECTED}
    case VERIFIED => to in {AUTHORITY_REVIEWED, REJECTED}
    case AUTHORITY_REVIEWED => to in {COMMUNITY_REVIEWED, REJECTED}
    case COMMUNITY_REVIEWED => to == MINTED
    case _ => false
  }

  /** How far along the flow a status is. */
  function Stage(s: ClaimStatus): nat {
    match s
    case SUBMITTED => 0
    case AI_ANALYSIS_PENDING => 1
    case AI_ANALYSIS_IN_PROGRESS => 2
    case VERIFIED => 3
    case AI_VERIFIED => 3
    case AI_ANALYZED => 3
    case AI_REJECTED => 3
    case AUTHORITY_REVIEWED => 4
    case COMMUNITY_REVIEWED => 5
    case APPROVED => 6
    case REJECTED => 7
    case MINTED => 7
  }

  /** The flow never goes back: every step other than re-entering the
      analysis moves to a later stage, and nothing leaves AI_REJECTED,
      REJECTED or MINTED. */
  lemma GovernedStepMovesForward(from: ClaimStatus, to: ClaimStatus)
    requires GovernedStep(from, to)
    ensures from == to ==> from == AI_ANALYSIS_IN_PROGRESS
    ensures from != to ==> Stage(from) < Stage(to)
    ensures from !in {AI_REJECTED, REJECTED, MINTED, APPROVED}
  {
  }

  /** A sequence of statuses each reached from the previous one by a governed step. */
  ghost predicate GovernedPath(path: seq<ClaimStatus>) {
    forall i :: 0 <= i < |path| - 1 ==> GovernedStep(path[i], path[i + 1])
  }

  /** Along a governed path the stage never decreases. */
  lemma {:induction false} GovernedPathStage(path: seq<ClaimStatus>)
    requires |path| > 0 && GovernedPath(path)
    ensures Stage(path[0]) <= Stage(path[|path| - 1])
    decreases |path|
  {
    if |path| > 1 {
      GovernedPathStage(path[1..]);
      GovernedStepMovesForward(path[0], path[1]);
    }
  }

  /** A claim reaches MINTED only through an authority review and then a
      community review. */
  lemma {:induction false} MintedOnlyAfterReviews(path: seq<ClaimStatus>)
    requires |path| > 0 && GovernedPath(path)
    requires path[0] == SUBMITTED && path[|path| - 1] == MINTED
    ensures |path| >= 3
    ensures path[|path| - 2] == COMMUNITY_REVIEWED && path[|path| - 3] == AUTHORITY_REVIEWED
  {
    var n := |path|;
    assert GovernedStep(path[n - 2], path[n - 1]);
    assert path[n - 2] == COMMUNITY_REVIEWED;
    assert GovernedStep(path[n - 3], path[n - 2]);
  }
}
