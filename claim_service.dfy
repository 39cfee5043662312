/** `services/claim_service.py`: creating claims from submissions with the
    deterministic geometry rules, looking them up, and the authority's
    replacement of a claim's geometry. */
module ClaimService {
  import opened Wrappers
  import opened Uuids
  import opened ClaimModel

  const ForestTypes: set<ClaimType> :=
    {MANGROVE_RESTORATION, REFORESTATION, WETLAND_RESTORATION, AVOIDED_DEFORESTATION}
  const EnergyTypes: set<ClaimType> := {SOLAR_INSTALLATION, WIND_INSTALLATION}

  /** `_radius_km_for_claim_type`: 2 km around forest-like actions, 1 km
      around energy installations, 3 km otherwise. */
  function RadiusKmForClaimType(t: ClaimType): (r: real)
    ensures r == 2.0 <==> t in ForestTypes
    ensures r == 1.0 <==> t in EnergyTypes
    ensures r == 3.0 <==> t == OTHER
  {
    if t in ForestTypes then 2.0
    else if t in EnergyTypes then 1.0
    else
      assert t.OTHER? by {
        assert !t.MANGROVE_RESTORATION? && !t.REFORESTATION? && !t.WETLAND_RESTORATION? && !t.AVOIDED_DEFORESTATION?;
        assert !t.SOLAR_INSTALLATION? && !t.WIND_INSTALLATION?;
      }
      3.0
  }

  datatype ClaimError =
    | GeometryUnreadable
    | GeometryNotPolygon
    | GeometryInvalidOrEmpty
    | GeometryZeroArea
    | NoLocationOrGeometry
    | ClaimNotFound

  /** `_validate_polygon_geojson`: the geometry must read as a Polygon or
      MultiPolygon, be non-empty and valid, and have non-zero area. */
  function ValidatePolygon(g: GeoJson): (r: Result<Shape, ClaimError>)
    ensures r.Success? <==>
      && g.parsed.Some?
      && g.parsed.value.kind in {PolygonKind, MultiPolygonKind}
      && !g.parsed.value.isEmpty && g.parsed.value.isValid
      && g.parsed.value.area != 0.0
    ensures r.Success? ==> r.value == g.parsed.value
    ensures g.parsed.Some? && g.parsed.value.kind !in {PolygonKind, MultiPolygonKind} ==> r == Failure(GeometryNotPolygon)
  {
    if g.parsed.None? then Failure(GeometryUnreadable)
    else
      var s := g.parsed.value;
      if s.kind !in {PolygonKind, MultiPolygonKind} then Failure(GeometryNotPolygon)
      else if s.isEmpty || !s.isValid then Failure(GeometryInvalidOrEmpty)
      else if s.area == 0.0 then Failure(GeometryZeroArea)
      else Success(s)
  }

  /** `_ensure_location_from_geometry`: an explicit point wins over the centroid. */
  function EnsureLocation(s: Shape, fallback: Option<GeoLocation>): (loc: GeoLocation)
    ensures fallback.Some? ==> loc == fallback.value
    ensures fallback.None? ==> loc == s.centroid
  {
    if fallback.Some? then fallback.value else s.centroid
  }

  /** The null handling at the start of `create_claim`: an empty dictionary,
      or one without a "type" entry, counts as no geometry. */
  function NormalizeGeometry(g: Option<GeoJson>): (r: Option<GeoJson>)
    ensures r.Some? <==> g.Some? && g.value.keyCount > 0 && g.value.typeField.Some?
    ensures r.Some? ==> r == g
  {
    if g.None? || g.value.keyCount == 0 || g.value.typeField.None? then None else g
  }

  /** `submitter_contact == ""` becomes None. */
  function NormalizeContact(c: Option<string>): (r: Option<string>)
    ensures r.Some? ==> r == c && r.value != ""
    ensures c.Some? && c.value != "" ==> r == c
  {
    if c == Some("") then None else c
  }

  /** A claim the satellite analysis can run on: it has a point location
      and a polygonal geometry. */
  predicate Locatable(c: Claim) {
    c.location.Some? && c.geometry.Some? && KindOf(c.geometry.value) in {PolygonKind, MultiPolygonKind}
  }

  /** The claim `create_claim` builds from a submission, or the error it raises. */
  function BuildClaim(sub: ClaimSubmission, id: Uuid, now: Time): (r: Result<Claim, ClaimError>)
    ensures NormalizeGeometry(sub.geometry).None? && sub.location.None? ==> r == Failure(NoLocationOrGeometry)
    ensures NormalizeGeometry(sub.geometry).Some? ==>
      (r.Success? <==> ValidatePolygon(NormalizeGeometry(sub.geometry).value).Success?)
    ensures r.Success? ==> Locatable(r.value)
    ensures r.Success? ==>
      && r.value.id == id && r.value.status == SUBMITTED && r.value.verificationId.None?
      && r.value.createdAt == now && r.value.updatedAt == now
      && r.value.claimType == sub.claimType && r.value.estimate == sub.estimate
      && r.value.areaHectares == sub.areaHectares
      && r.value.title == sub.title && r.value.submitterName == sub.submitterName
      && r.value.submitterContact == NormalizeContact(sub.submitterContact)
    ensures r.Success? && NormalizeGeometry(sub.geometry).Some? ==>
      && r.value.geometryType == Some(POLYGON) && r.value.geometrySource == Some(USER_DRAWN)
      && r.value.geometry == Some(Drawn(NormalizeGeometry(sub.geometry).value.parsed.value))
      && (sub.location.Some? ==> r.value.location == sub.location)
      && (sub.location.None? ==> r.value.location == Some(NormalizeGeometry(sub.geometry).value.parsed.value.centroid))
    ensures NormalizeGeometry(sub.geometry).None? && sub.location.Some? ==>
      && r.Success?
      && r.value.geometryType == Some(BUFFER) && r.value.geometrySource == Some(USER_POINT)
      && r.value.geometry == Some(Buffer(sub.location.value, RadiusKmForClaimType(sub.claimType)))
      && r.value.location == sub.location
  {
    var geo := NormalizeGeometry(sub.geometry);
    if geo.None? && sub.location.None? then Failure(NoLocationOrGeometry)
    else if geo.Some? then
      match ValidatePolygon(geo.value)
      case Failure(e) => Failure(e)
      case Success(shape) =>
        Success(Claim(id, sub.claimType, sub.title, sub.submitterName, NormalizeContact(sub.submitterContact),
                      Some(EnsureLocation(shape, sub.location)), Some(Drawn(shape)), Some(POLYGON), Some(USER_DRAWN),
                      sub.areaHectares, sub.estimate, SUBMITTED, now, now, None))
    else
      var loc := sub.location.value;
      Success(Claim(id, sub.claimType, sub.title, sub.submitterName, NormalizeContact(sub.submitterContact),
                    Some(loc), Some(Buffer(loc, RadiusKmForClaimType(sub.claimType))), Some(BUFFER), Some(USER_POINT),
                    sub.areaHectares, sub.estimate, SUBMITTED, now, now, None))
  }

  /** `claims_db`, keyed by claim id. */
  class ClaimStore {
    var claims: map<Uuid, Claim>

    /** Each claim is filed under its own id and can be analysed. */
    ghost predicate Valid()
      reads this
    {
      forall id :: id in claims ==> claims[id].id == id && Locatable(claims[id])
    }

    constructor ()
      ensures claims == map[] && Valid()
    {
      claims := map[];
    }

    /** `create_claim`; `id` is the fresh `uuid4()` and `now` the clock. */
    method CreateClaim(sub: ClaimSubmission, id: Uuid, now: Time) returns (r: Result<Claim, ClaimError>)
      requires Valid() && id !in claims
      modifies this
      ensures Valid()
      ensures r == BuildClaim(sub, id, now)
      ensures r.Success? ==> claims == old(claims)[id := r.value]
      ensures r.Failure? ==> claims == old(claims)
    {
      r := BuildClaim(sub, id, now);
      if r.Success? {
        claims := claims[id := r.value];
      }
    }

    /** The services' in-place status change: `claim.status = status` and
        `claim.updated_at = now` on the stored claim. */
    method SetStatus(id: Uuid, status: ClaimStatus, now: Time)
      requires Valid() && id in claims
      modifies this
      ensures Valid()
      ensures claims == old(claims)[id := old(claims[id]).(status := status, updatedAt := now)]
    {
      claims := claims[id := claims[id].(status := status, updatedAt := now)];
    }

    /** `get_claim_by_id` */
    function GetClaimById(id: Uuid): (r: Option<Claim>)
      reads this
      ensures r.Some? <==> id in claims
      ensures r.Some? ==> r.value == claims[id]
    {
      if id in claims then Some(claims[id]) else None
    }

    /** `update_claim_geometry_authority`: a validated polygon replaces the
        geometry and is marked as authority-defined; the claim's point is
        kept; nothing else about the claim, not even its status, changes. */
    method UpdateClaimGeometryAuthority(id: Uuid, g: GeoJson) returns (r: Result<Claim, ClaimError>)
      requires Valid()
      modifies this
      ensures Valid()
      ensures id !in old(claims) ==> r == Failure(ClaimNotFound) && claims == old(claims)
      ensures id in old(claims) && ValidatePolygon(g).Failure? ==> r == Failure(ValidatePolygon(g).error) && claims == old(claims)
      ensures id in old(claims) && ValidatePolygon(g).Success? ==>
        && r.Success?
        && r.value == old(claims)[id].(geometry := Some(Drawn(g.parsed.value)), geometryType := Some(POLYGON),
                                       geometrySource := Some(AUTHORITY_DEFINED),
                                       location := Some(EnsureLocation(g.parsed.value, old(claims)[id].location)))
        && claims == old(claims)[id := r.value]
      ensures r.Success? ==> r.value.status == old(claims)[id].status && r.value.location == old(claims)[id].location
    {
      if id !in claims {
        return Failure(ClaimNotFound);
      }
      var claim := claims[id];
      var v := ValidatePolygon(g);
      if v.Failure? {
        return Failure(v.error);
      }
      var loc := EnsureLocation(v.value, claim.location);
      var updated := claim.(geometry := Some(Drawn(v.value)), geometryType := Some(POLYGON),
                            geometrySource := Some(AUTHORITY_DEFINED), location := Some(loc));
      claims := claims[id := updated];
      r := Success(updated);
    }
  }
}
