// The environmental calculator: emissions, water and land per technology,
// air pollutants and their health effect, biodiversity, water quality, waste,
// circular-economy potential, the benefits of displacing gas generation and
// a weighted impact score. Every result dictionary is kept as an association
// list in the order the source builds it.

module EnvironmentalModel {
  import opened Common

  /** Per-unit factors by technology; a caller may replace any table. */
  datatype EnvironmentalConfig = EnvironmentalConfig(
    emissionFactors: map<string, real>,   // kg CO2e per kWh
    waterFactors: map<string, real>,      // m3 per MWh
    landUseFactors: map<string, real>)    // m2 per MW

  function DefaultEnvironmentalConfig(): EnvironmentalConfig
  {
    EnvironmentalConfig(
      map["natural_gas" := 0.5, "coal" := 1.0, "oil" := 0.8, "biomass" := 0.1,
          "solar_pv" := 0.05, "wind" := 0.02, "battery_storage" := 0.1],
      map["natural_gas" := 0.5, "coal" := 1.5, "oil" := 0.8, "biomass" := 0.3,
          "solar_pv" := 0.1, "wind" := 0.0, "battery_storage" := 0.0],
      map["solar_pv" := 2000.0, "wind" := 5000.0, "biomass" := 1000.0, "battery_storage" := 100.0])
  }

  /** Every factor of a table is non-negative. */
  predicate NonNegativeFactors(table: map<string, real>)
  {
    forall t :: t in table ==> table[t] >= 0.0
  }

  // ---------------------------------------------------------------------
  // Scalar footprints

  /** A quantity times the technology's factor; an unknown technology has
      no footprint and raises nothing. */
  function Footprint(table: map<string, real>, technology: string, quantity: real): (r: real)
    ensures technology !in table ==> r == 0.0
    ensures NonNegativeFactors(table) && quantity >= 0.0 ==> r >= 0.0
  {
    if technology in table then quantity * table[technology] else 0.0
  }

  /** A footprint is proportional to its quantity. */
  lemma FootprintLinear(table: map<string, real>, technology: string, quantity: real, k: real)
    ensures Footprint(table, technology, k * quantity) == k * Footprint(table, technology, quantity)
  {
  }

  /** A footprint of a sum is the sum of the footprints. */
  lemma FootprintAdditive(table: map<string, real>, technology: string, a: real, b: real)
    ensures Footprint(table, technology, a + b) == Footprint(table, technology, a) + Footprint(table, technology, b)
  {
  }

  /** CO2 in kg: the generation in MWh is converted to kWh. */
  function CalculateEmissions(c: EnvironmentalConfig, technology: string, generationMwh: real): real
  {
    Footprint(c.emissionFactors, technology, generationMwh * 1000.0)
  }

  function CalculateWaterUse(c: EnvironmentalConfig, technology: string, generationMwh: real): real
  {
    Footprint(c.waterFactors, technology, generationMwh)
  }

  function CalculateLandUse(c: EnvironmentalConfig, technology: string, capacityMw: real): real
  {
    Footprint(c.landUseFactors, technology, capacityMw)
  }

  /** Emissions are 1000 times the factor per MWh, and nothing for an unknown
      technology. */
  lemma EmissionsPerMwh(c: EnvironmentalConfig, technology: string, generationMwh: real)
    ensures technology in c.emissionFactors ==>
              CalculateEmissions(c, technology, generationMwh) == 1000.0 * c.emissionFactors[technology] * generationMwh
    ensures technology !in c.emissionFactors ==> CalculateEmissions(c, technology, generationMwh) == 0.0
  {
  }

  /** With the default tables: 1000 MWh of gas emits 500 t (500000 kg) of
      CO2, 1000 MWh of coal uses 1500 m3 of water and 1000 MW of solar
      covers 2 km2, while gas and coal plants occupy no land at all, having
      no land factor. */
  lemma DefaultFootprints(capacityMw: real)
    ensures CalculateEmissions(DefaultEnvironmentalConfig(), "natural_gas", 1000.0) == 500000.0
    ensures CalculateWaterUse(DefaultEnvironmentalConfig(), "coal", 1000.0) == 1500.0
    ensures CalculateLandUse(DefaultEnvironmentalConfig(), "solar_pv", 1000.0) == 2000000.0
    ensures CalculateLandUse(DefaultEnvironmentalConfig(), "natural_gas", capacityMw) == 0.0
    ensures CalculateLandUse(DefaultEnvironmentalConfig(), "coal", capacityMw) == 0.0
  {
    assert "natural_gas" !in DefaultEnvironmentalConfig().landUseFactors;
    assert "coal" !in DefaultEnvironmentalConfig().landUseFactors;
  }

  // ---------------------------------------------------------------------
  // Factor dictionaries

  /** `{key: quantity * factor for key, factor in factors.items()}`. */
  function ScaleEntries(factors: seq<(string, real)>, quantity: real): (r: seq<(string, real)>)
    ensures Keys(r) == Keys(factors)
    ensures forall i :: 0 <= i < |r| ==> r[i].1 == quantity * factors[i].1
  {
    seq(|factors|, i requires 0 <= i < |factors| => (factors[i].0, quantity * factors[i].1))
  }

  /** The technology's factor dictionary scaled by a quantity, or the
      fallback dictionary when the technology has none. */
  function ScaledFactors(tables: map<string, seq<(string, real)>>, technology: string, quantity: real,
                         fallback: seq<(string, real)>): seq<(string, real)>
  {
    if technology in tables then ScaleEntries(tables[technology], quantity) else fallback
  }

  /** Pollutant emissions in kg per MWh. */
  function PollutantFactors(): map<string, seq<(string, real)>>
  {
    map["natural_gas" := [("SO2", 0.001), ("NOx", 0.5), ("PM2.5", 0.01)],
        "coal" := [("SO2", 2.0), ("NOx", 1.5), ("PM2.5", 0.5)],
        "oil" := [("SO2", 1.0), ("NOx", 1.0), ("PM2.5", 0.1)],
        "biomass" := [("SO2", 0.1), ("NOx", 0.8), ("PM2.5", 0.2)]]
  }

  function Pollutants(): seq<string> { ["SO2", "NOx", "PM2.5"] }

  function CalculateAirPollutants(technology: string, generationMwh: real): seq<(string, real)>
  {
    ScaledFactors(PollutantFactors(), technology, generationMwh, [("SO2", 0.0), ("NOx", 0.0), ("PM2.5", 0.0)])
  }

  /** Every technology reports the same three pollutants: a listed one its
      factors times the generation, any other zero. */
  lemma AirPollutantsShape(technology: string, generationMwh: real)
    ensures Keys(CalculateAirPollutants(technology, generationMwh)) == Pollutants()
    ensures forall i :: 0 <= i < 3 ==>
              CalculateAirPollutants(technology, generationMwh)[i].1 ==
              if technology in PollutantFactors() then generationMwh * PollutantFactors()[technology][i].1 else 0.0
  {
    if technology in PollutantFactors() {
      assert Keys(PollutantFactors()[technology]) == Pollutants();
    } else {
      assert Keys([("SO2", 0.0), ("NOx", 0.0), ("PM2.5", 0.0)]) == Pollutants();
    }
  }

  /** Premature deaths per tonne of pollutant. */
  function HealthFactors(): map<string, real>
  {
    map["PM2.5" := 0.1, "SO2" := 0.05, "NOx" := 0.03]
  }

  /** The pollutants with a health factor, in input order, each times its
      factor. */
  function CalculateHealthImpacts(airPollutants: seq<(string, real)>): (r: seq<(string, real)>)
    ensures |r| <= |airPollutants|
  {
    if |airPollutants| == 0 then []
    else
      CalculateHealthImpacts(airPollutants[..|airPollutants| - 1]) + HealthEntry(airPollutants[|airPollutants| - 1])
  }

  /** The health entry of one pollutant, if it has a factor. */
  function HealthEntry(e: (string, real)): (r: seq<(string, real)>)
    ensures |r| <= 1
  {
    if e.0 in HealthFactors() then [(e.0, e.1 * HealthFactors()[e.0])] else []
  }

  /** The input keys that have a health factor, in order. */
  function HealthKeys(keys: seq<string>): (r: seq<string>)
    ensures forall k :: k in r <==> k in keys && k in HealthFactors()
  {
    if |keys| == 0 then []
    else HealthKeys(keys[..|keys| - 1]) + (if keys[|keys| - 1] in HealthFactors() then [keys[|keys| - 1]] else [])
  }

  /** The health result keeps exactly the input pollutants that have a
      factor, in input order. */
  lemma {:induction false} HealthImpactsKeys(airPollutants: seq<(string, real)>)
    ensures Keys(CalculateHealthImpacts(airPollutants)) == HealthKeys(Keys(airPollutants))
  {
    if |airPollutants| > 0 {
      var prefix := airPollutants[..|airPollutants| - 1];
      HealthImpactsKeys(prefix);
      assert Keys(airPollutants)[..|airPollutants| - 1] == Keys(prefix);
      KeysAppend(CalculateHealthImpacts(prefix), HealthEntry(airPollutants[|airPollutants| - 1]));
    }
  }

  lemma KeysAppend(a: seq<(string, real)>, b: seq<(string, real)>)
    ensures Keys(a + b) == Keys(a) + Keys(b)
  {
  }

  /** Looking a pollutant up in the health result gives its first input
      value times its factor, and nothing for a pollutant without a
      factor. */
  lemma {:induction false} HealthImpactsFind(airPollutants: seq<(string, real)>, pollutant: string)
    ensures Find(CalculateHealthImpacts(airPollutants), pollutant) ==
            if pollutant in HealthFactors() && Find(airPollutants, pollutant).Some?
            then Some(Find(airPollutants, pollutant).value * HealthFactors()[pollutant])
            else None
  {
    if |airPollutants| > 0 {
      var prefix := airPollutants[..|airPollutants| - 1];
      var last := airPollutants[|airPollutants| - 1];
      HealthImpactsFind(prefix, pollutant);
      assert airPollutants == prefix + [last];
      FindAppend(prefix, [last], pollutant);
      assert CalculateHealthImpacts(airPollutants) == CalculateHealthImpacts(prefix) + HealthEntry(last);
      FindAppend(CalculateHealthImpacts(prefix), HealthEntry(last), pollutant);
      FindSingle(last, pollutant);
      HealthEntryFind(last, pollutant);
      var fp := Find(prefix, pollutant);
      var fa := Find(airPollutants, pollutant);
      assert fa == if fp.Some? then fp else if last.0 == pollutant then Some(last.1) else None;
      var hp := Find(CalculateHealthImpacts(prefix), pollutant);
      var ha := Find(CalculateHealthImpacts(airPollutants), pollutant);
      assert ha == if hp.Some? then hp else Find(HealthEntry(last), pollutant);
      if pollutant in HealthFactors() && fa.Some? {
        if fp.Some? {
          assert ha == Some(fp.value * HealthFactors()[pollutant]);
        } else {
          assert ha == Some(last.1 * HealthFactors()[pollutant]);
        }
      } else {
        assert ha == None;
      }
    }
  }

  lemma FindSingle(e: (string, real), k: string)
    ensures Find([e], k) == if e.0 == k then Some(e.1) else None
  {
    assert [e][1..] == [];
  }

  lemma HealthEntryFind(e: (string, real), k: string)
    ensures Find(HealthEntry(e), k) == if e.0 == k && k in HealthFactors() then Some(e.1 * HealthFactors()[k]) else None
  {
    if e.0 in HealthFactors() {
      FindSingle((e.0, e.1 * HealthFactors()[e.0]), k);
    }
  }

  /** Lookup in a concatenation tries the front part first. */
  lemma {:induction false} FindAppend(a: seq<(string, real)>, b: seq<(string, real)>, k: string)
    ensures Find(a + b, k) == if Find(a, k).Some? then Find(a, k) else Find(b, k)
  {
    if |a| > 0 {
      assert (a + b)[1..] == a[1..] + b;
      FindAppend(a[1..], b, k);
    } else {
      assert a + b == b;
    }
  }

  /** The health result of a three-pollutant dictionary. */
  lemma HealthOfPollutants(so2: real, nox: real, pm: real)
    ensures CalculateHealthImpacts([("SO2", so2), ("NOx", nox), ("PM2.5", pm)]) ==
            [("SO2", so2 * 0.05), ("NOx", nox * 0.03), ("PM2.5", pm * 0.1)]
  {
    var p := [("SO2", so2), ("NOx", nox), ("PM2.5", pm)];
    var h := HealthFactors();
    assert "SO2" in h && "NOx" in h && "PM2.5" in h;
    assert p[..2] == [("SO2", so2), ("NOx", nox)];
    assert p[..2][..1] == [("SO2", so2)];
    assert p[..2][..1][..0] == [];
    assert CalculateHealthImpacts(p[..2][..1]) == [("SO2", so2 * 0.05)];
    assert CalculateHealthImpacts(p[..2]) == [("SO2", so2 * 0.05), ("NOx", nox * 0.03)];
  }

  /** Every pollutant of a plant has a health factor, so the health result
      of a plant's pollutants has the same three keys. */
  lemma PlantHealthKeys(technology: string, generationMwh: real)
    ensures Keys(CalculateHealthImpacts(CalculateAirPollutants(technology, generationMwh))) == Pollutants()
  {
    var p := CalculateAirPollutants(technology, generationMwh);
    AirPollutantsShape(technology, generationMwh);
    assert p == [("SO2", p[0].1), ("NOx", p[1].1), ("PM2.5", p[2].1)];
    HealthOfPollutants(p[0].1, p[1].1, p[2].1);
  }

  /** Species affected per hectare of converted land. */
  function ImpactFactors(): map<string, real>
  {
    map["forest" := 10.0, "agriculture" := 5.0, "grassland" := 7.0, "wetland" := 15.0, "urban" := 2.0]
  }

  /** Land in m2 is converted to hectares; an unknown land type affects
      nothing. */
  function CalculateBiodiversityImpact(landUse: real, landType: string): (r: seq<(string, real)>)
    ensures Keys(r) == ["species_affected", "habitat_loss"]
  {
    if landType in ImpactFactors() then
      [("species_affected", landUse * ImpactFactors()[landType] / 10000.0), ("habitat_loss", landUse / 10000.0)]
    else [("species_affected", 0.0), ("habitat_loss", 0.0)]
  }

  /** Species affected are the hectares lost times the land type's factor. */
  lemma SpeciesPerHectare(landUse: real, landType: string)
    requires landType in ImpactFactors()
    ensures CalculateBiodiversityImpact(landUse, landType)[0].1 ==
            ImpactFactors()[landType] * CalculateBiodiversityImpact(landUse, landType)[1].1
  {
  }

  function QualityFactors(): map<string, seq<(string, real)>>
  {
    map["natural_gas" := [("thermal_pollution", 0.3), ("chemical_pollution", 0.1)],
        "coal" := [("thermal_pollution", 0.5), ("chemical_pollution", 0.8)],
        "oil" := [("thermal_pollution", 0.4), ("chemical_pollution", 0.6)],
        "biomass" := [("thermal_pollution", 0.2), ("chemical_pollution", 0.3)]]
  }

  function CalculateWaterQualityImpact(technology: string, waterUse: real): seq<(string, real)>
  {
    ScaledFactors(QualityFactors(), technology, waterUse, [("thermal_pollution", 0.0), ("chemical_pollution", 0.0)])
  }

  /** Every technology reports thermal and chemical pollution. */
  lemma WaterQualityKeys(technology: string, waterUse: real)
    ensures Keys(CalculateWaterQualityImpact(technology, waterUse)) == ["thermal_pollution", "chemical_pollution"]
  {
    if technology in QualityFactors() {
      assert Keys(QualityFactors()[technology]) == ["thermal_pollution", "chemical_pollution"];
    } else {
      assert Keys([("thermal_pollution", 0.0), ("chemical_pollution", 0.0)]) == ["thermal_pollution", "chemical_pollution"];
    }
  }

  /** Tonnes of waste per MW per year. */
  function WasteFactors(): map<string, seq<(string, real)>>
  {
    map["coal" := [("ash", 100.0), ("sludge", 10.0), ("hazardous", 1.0)],
        "biomass" := [("ash", 50.0), ("sludge", 5.0), ("hazardous", 0.5)],
        "solar_pv" := [("electronic_waste", 0.1), ("hazardous", 0.01)],
        "battery_storage" := [("electronic_waste", 0.2), ("hazardous", 0.05)]]
  }

  function CalculateWasteGeneration(technology: string, capacityMw: real): seq<(string, real)>
  {
    ScaledFactors(WasteFactors(), technology, capacityMw, [])
  }

  /** Shares of a plant that can be recycled, reused or recovered. */
  function CircularFactors(): map<string, seq<(string, real)>>
  {
    map["solar_pv" := [("recyclable_materials", 0.85), ("reusable_components", 0.60), ("energy_recovery", 0.10)],
        "wind" := [("recyclable_materials", 0.90), ("reusable_components", 0.70), ("energy_recovery", 0.05)],
        "battery_storage" := [("recyclable_materials", 0.70), ("reusable_components", 0.50), ("energy_recovery", 0.20)]]
  }

  function CalculateCircularEconomyPotential(technology: string, capacityMw: real): seq<(string, real)>
  {
    ScaledFactors(CircularFactors(), technology, capacityMw, [])
  }

  /** Waste and circular potential are empty for a technology without a
      factor dictionary, and otherwise hold one entry per factor, in the
      table's order, scaled by the capacity. */
  lemma CapacityDictionaries(technology: string, capacityMw: real)
    ensures technology !in WasteFactors() ==> CalculateWasteGeneration(technology, capacityMw) == []
    ensures technology in WasteFactors() ==>
              var r := CalculateWasteGeneration(technology, capacityMw);
              Keys(r) == Keys(WasteFactors()[technology]) &&
              forall i :: 0 <= i < |r| ==> r[i].1 == capacityMw * WasteFactors()[technology][i].1
    ensures technology !in CircularFactors() ==> CalculateCircularEconomyPotential(technology, capacityMw) == []
    ensures technology in CircularFactors() ==>
              var r := CalculateCircularEconomyPotential(technology, capacityMw);
              Keys(r) == Keys(CircularFactors()[technology]) &&
              forall i :: 0 <= i < |r| ==> r[i].1 == capacityMw * CircularFactors()[technology][i].1
  {
  }

  // ---------------------------------------------------------------------
  // Benefits and score

  datatype Benefits = Benefits(
    emissionsAvoided: real,
    waterSaved: real,
    airPollutionAvoided: seq<(string, real)>,
    healthBenefits: seq<(string, real)>)

  /** Renewable generation is taken to displace gas generation. */
  function CalculateEnvironmentalBenefits(c: EnvironmentalConfig, renewableMwh: real): Benefits
  {
    var pollutants := CalculateAirPollutants("natural_gas", renewableMwh);
    Benefits(CalculateEmissions(c, "natural_gas", renewableMwh), CalculateWaterUse(c, "natural_gas", renewableMwh),
             pollutants, CalculateHealthImpacts(pollutants))
  }

  /** With the default tables each MWh of renewables avoids 500 kg of CO2 and
      0.5 m3 of water, and the gas pollutants and their health effect. */
  lemma DefaultBenefits(renewableMwh: real)
    ensures var b := CalculateEnvironmentalBenefits(DefaultEnvironmentalConfig(), renewableMwh);
            b.emissionsAvoided == 500.0 * renewableMwh &&
            b.waterSaved == 0.5 * renewableMwh &&
            b.airPollutionAvoided == [("SO2", renewableMwh * 0.001), ("NOx", renewableMwh * 0.5),
                                      ("PM2.5", renewableMwh * 0.01)] &&
            b.healthBenefits == [("SO2", renewableMwh * 0.001 * 0.05), ("NOx", renewableMwh * 0.5 * 0.03),
                                 ("PM2.5", renewableMwh * 0.01 * 0.1)]
  {
    var p := CalculateAirPollutants("natural_gas", renewableMwh);
    assert p == [("SO2", renewableMwh * 0.001), ("NOx", renewableMwh * 0.5), ("PM2.5", renewableMwh * 0.01)];
    HealthOfPollutants(renewableMwh * 0.001, renewableMwh * 0.5, renewableMwh * 0.01);
  }

  /** The inputs of the score: each may be missing from the dictionary. */
  datatype Impacts = Impacts(
    emissions: Option<real>,
    waterUse: Option<real>,
    landUse: Option<real>,
    airPollutants: Option<seq<(string, real)>>,
    waste: Option<seq<(string, real)>>)

  function ScoreWeights(): seq<(string, real)>
  {
    [("emissions", 0.4), ("water_use", 0.2), ("land_use", 0.2), ("air_pollution", 0.1), ("waste", 0.1)]
  }

  /** Emissions in tonnes, water in 1000 m3, land in hectares, pollutants
      and waste in tonnes; a missing entry counts as zero. */
  function NormalizedImpacts(impacts: Impacts): map<string, real>
  {
    map["emissions" := impacts.emissions.GetOr(0.0) / 1000.0,
        "water_use" := impacts.waterUse.GetOr(0.0) / 1000.0,
        "land_use" := impacts.landUse.GetOr(0.0) / 10000.0,
        "air_pollution" := Sum(Values(impacts.airPollutants.GetOr([]))) / 1000.0,
        "waste" := Sum(Values(impacts.waste.GetOr([]))) / 1000.0]
  }

  /** The weighted sum over the weights, in their order. */
  function WeightedSum(weights: seq<(string, real)>, normalized: map<string, real>): real
    requires forall i :: 0 <= i < |weights| ==> weights[i].0 in normalized
  {
    if |weights| == 0 then 0.0
    else WeightedSum(weights[..|weights| - 1], normalized) +
         normalized[weights[|weights| - 1].0] * weights[|weights| - 1].1
  }

  function CalculateImpactScore(impacts: Impacts): real
  {
    WeightedSum(ScoreWeights(), NormalizedImpacts(impacts))
  }

  /** The weights make a convex combination. */
  lemma WeightsSumToOne()
    ensures Sum(Values(ScoreWeights())) == 1.0
  {
    var w := Values(ScoreWeights());
    assert w == [0.4, 0.2, 0.2, 0.1, 0.1];
    assert w[..4] == [0.4, 0.2, 0.2, 0.1];
    assert w[..4][..3] == [0.4, 0.2, 0.2];
    assert w[..4][..3][..2] == [0.4, 0.2];
    assert w[..4][..3][..2][..1] == [0.4];
    assert w[..4][..3][..2][..1][..0] == [];
    assert Sum(w[..4][..3][..2][..1]) == 0.4;
    assert Sum(w[..4][..3][..2]) == 0.6;
    assert Sum(w[..4][..3]) == 0.8;
    assert Sum(w[..4]) == 0.9;
  }

  /** The score in closed form: linear in each normalised component. */
  lemma ImpactScoreClosedForm(impacts: Impacts)
    ensures CalculateImpactScore(impacts) ==
            0.4 * (impacts.emissions.GetOr(0.0) / 1000.0) +
            0.2 * (impacts.waterUse.GetOr(0.0) / 1000.0) +
            0.2 * (impacts.landUse.GetOr(0.0) / 10000.0) +
            0.1 * (Sum(Values(impacts.airPollutants.GetOr([]))) / 1000.0) +
            0.1 * (Sum(Values(impacts.waste.GetOr([]))) / 1000.0)
  {
    var n := NormalizedImpacts(impacts);
    WeightedSumOfFive(n);
  }

  lemma WeightedSumOfFive(n: map<string, real>)
    requires "emissions" in n && "water_use" in n && "land_use" in n && "air_pollution" in n && "waste" in n
    ensures forall i :: 0 <= i < |ScoreWeights()| ==> ScoreWeights()[i].0 in n
    ensures WeightedSum(ScoreWeights(), n) ==
            n["emissions"] * 0.4 + n["water_use"] * 0.2 + n["land_use"] * 0.2 + n["air_pollution"] * 0.1 + n["waste"] * 0.1
  {
    var w := ScoreWeights();
    assert w[..4] == [("emissions", 0.4), ("water_use", 0.2), ("land_use", 0.2), ("air_pollution", 0.1)];
    assert w[..4][..3] == [("emissions", 0.4), ("water_use", 0.2), ("land_use", 0.2)];
    assert w[..4][..3][..2] == [("emissions", 0.4), ("water_use", 0.2)];
    assert w[..4][..3][..2][..1] == [("emissions", 0.4)];
    assert w[..4][..3][..2][..1][..0] == [];
    assert WeightedSum(w[..4][..3][..2][..1], n) == n["emissions"] * 0.4;
    assert WeightedSum(w[..4][..3][..2], n) == n["emissions"] * 0.4 + n["water_use"] * 0.2;
    assert WeightedSum(w[..4][..3], n) == n["emissions"] * 0.4 + n["water_use"] * 0.2 + n["land_use"] * 0.2;
    assert WeightedSum(w[..4], n) ==
           n["emissions"] * 0.4 + n["water_use"] * 0.2 + n["land_use"] * 0.2 + n["air_pollution"] * 0.1;
  }

  /** An empty impacts dictionary scores 0. */
  lemma EmptyImpactsScoreZero()
    ensures CalculateImpactScore(Impacts(None, None, None, None, None)) == 0.0
  {
    ImpactScoreClosedForm(Impacts(None, None, None, None, None));
    assert Values<string, real>([]) == [];
  }
}
