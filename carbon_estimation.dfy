/** `mrv/carbon_estimation.py`: the linear conversion of an NDVI change over
    an area into a range of tonnes of CO2 equivalent. */
module CarbonEstimation {
  /** Tonnes of dry biomass per hectare per unit of NDVI change. */
  const MinBiomassFactor: real := 5.0
  const MaxBiomassFactor: real := 15.0
  /** Carbon share of dry biomass (IPCC default). */
  const CarbonFraction: real := 0.47
  /** Molecular weight of CO2 over that of carbon. */
  const Co2ToCarbonRatio: real := 44.0 / 12.0

  /** Tonnes of CO2e per hectare per unit of NDVI change at the low factor:
      5 * 0.47 * 44 / 12. */
  const MinCo2ePerUnit: real := 517.0 / 60.0

  datatype Co2eEstimate = Co2eEstimate(minTonnes: real, maxTonnes: real, assumptions: seq<string>)

  const Assumptions: seq<string> := [
    "MVP estimation model using simplified linear NDVI-to-biomass conversion",
    "Biomass factor range: 5.0-15.0 tonnes dry biomass/ha per unit NDVI",
    "Carbon fraction of biomass: 0.47 (IPCC default)",
    "CO₂ to carbon ratio: 3.67 (molecular weight 44/12)",
    "Values are conservative estimates intended for transparency, not precision claims",
    "Model does not account for soil carbon, root biomass, or species-specific factors"
  ]

  /** NDVI change -> biomass -> carbon -> CO2e, for both factors. */
  function EstimateCo2eFromNdviDelta(delta: real, area: real): (e: Co2eEstimate)
    ensures e.minTonnes == MinCo2ePerUnit * (delta * area)
    ensures e.maxTonnes == 3.0 * e.minTonnes
    ensures e.assumptions == Assumptions
  {
    var minBiomass := delta * MinBiomassFactor * area;
    var maxBiomass := delta * MaxBiomassFactor * area;
    var minCarbon := minBiomass * CarbonFraction;
    var maxCarbon := maxBiomass * CarbonFraction;
    Co2eEstimate(minCarbon * Co2ToCarbonRatio, maxCarbon * Co2ToCarbonRatio, Assumptions)
  }

  /** Over a positive area the sign of the estimate is the sign of the NDVI
      change: growth gives 0 < min < max, decline gives max < min < 0. */
  lemma {:induction false} EstimateSign(delta: real, area: real)
    requires area > 0.0
    ensures delta > 0.0 ==> 0.0 < EstimateCo2eFromNdviDelta(delta, area).minTonnes < EstimateCo2eFromNdviDelta(delta, area).maxTonnes
    ensures delta < 0.0 ==> EstimateCo2eFromNdviDelta(delta, area).maxTonnes < EstimateCo2eFromNdviDelta(delta, area).minTonnes < 0.0
    ensures delta == 0.0 ==> EstimateCo2eFromNdviDelta(delta, area).minTonnes == 0.0 == EstimateCo2eFromNdviDelta(delta, area).maxTonnes
    ensures EstimateCo2eFromNdviDelta(delta, area).maxTonnes > 0.0 <==> delta > 0.0
  {
    var e := EstimateCo2eFromNdviDelta(delta, area);
    if delta > 0.0 {
      assert delta * area > 0.0;
    } else if delta < 0.0 {
      assert delta * area < 0.0;
    }
  }

  /** The estimate is additive in the area: two parcels estimated apart sum
      to the estimate of their union. */
  lemma {:induction false} EstimateAdditiveInArea(delta: real, a1: real, a2: real)
    ensures EstimateCo2eFromNdviDelta(delta, a1 + a2).minTonnes
         == EstimateCo2eFromNdviDelta(delta, a1).minTonnes + EstimateCo2eFromNdviDelta(delta, a2).minTonnes
    ensures EstimateCo2eFromNdviDelta(delta, a1 + a2).maxTonnes
         == EstimateCo2eFromNdviDelta(delta, a1).maxTonnes + EstimateCo2eFromNdviDelta(delta, a2).maxTonnes
  {
    assert delta * (a1 + a2) == delta * a1 + delta * a2;
  }

  /** A larger NDVI gain over the same positive area never lowers the estimate. */
  lemma {:induction false} EstimateMonotoneInDelta(d1: real, d2: real, area: real)
    requires area > 0.0 && d1 <= d2
    ensures EstimateCo2eFromNdviDelta(d1, area).minTonnes <= EstimateCo2eFromNdviDelta(d2, area).minTonnes
    ensures EstimateCo2eFromNdviDelta(d1, area).maxTonnes <= EstimateCo2eFromNdviDelta(d2, area).maxTonnes
  {
    assert d2 * area - d1 * area == (d2 - d1) * area;
    assert (d2 - d1) * area >= 0.0;
  }
}
