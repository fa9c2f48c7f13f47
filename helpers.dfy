// Standalone helpers: per-unit lookups with a zero default, the closed-form
// levelized cost, the peak-clamped hourly demand, the capacity factor and the
// unit choice of the number formatters.

module Helpers {
  import opened Common
  import EnergySystem
  import EconomicModel
  import EnvironmentalModel

  // ---------------------------------------------------------------------
  // Lookups

  /** `quantity * factors.get(technology, 0.0)`. */
  function PerUnit(factors: map<string, real>, technology: string, quantity: real): real
  {
    quantity * (if technology in factors then factors[technology] else 0.0)
  }

  function CalculateEmissions(technology: string, generation: real, emissionFactors: map<string, real>): real
  {
    PerUnit(emissionFactors, technology, generation)
  }

  function CalculateWaterUse(technology: string, generation: real, waterFactors: map<string, real>): real
  {
    PerUnit(waterFactors, technology, generation)
  }

  function CalculateLandUse(technology: string, capacity: real, landUseFactors: map<string, real>): real
  {
    PerUnit(landUseFactors, technology, capacity)
  }

  function CalculateEmployment(technology: string, capacity: real, employmentFactors: map<string, real>): real
  {
    PerUnit(employmentFactors, technology, capacity)
  }

  function CalculateCommunityBenefits(technology: string, revenue: real, communityBenefits: map<string, real>): real
  {
    PerUnit(communityBenefits, technology, revenue)
  }

  /** The `get` default agrees with the explicit membership test of the
      environmental calculator: both give the quantity times the factor,
      and 0 for an unknown technology. */
  lemma PerUnitIsFootprint(factors: map<string, real>, technology: string, quantity: real)
    ensures PerUnit(factors, technology, quantity) == EnvironmentalModel.Footprint(factors, technology, quantity)
    ensures technology !in factors ==> PerUnit(factors, technology, quantity) == 0.0
  {
  }

  /** The helper counts emissions per MWh, the environmental calculator per
      kWh: with the same table the latter is 1000 times the former. */
  lemma EmissionsUnits(c: EnvironmentalModel.EnvironmentalConfig, technology: string, generationMwh: real)
    ensures EnvironmentalModel.CalculateEmissions(c, technology, generationMwh) ==
            1000.0 * CalculateEmissions(technology, generationMwh, c.emissionFactors)
  {
    PerUnitIsFootprint(c.emissionFactors, technology, generationMwh * 1000.0);
  }

  /** A lookup is proportional to its quantity. */
  lemma PerUnitLinear(factors: map<string, real>, technology: string, quantity: real, k: real)
    ensures PerUnit(factors, technology, k * quantity) == k * PerUnit(factors, technology, quantity)
  {
  }

  /** The documented cases: 1000 MWh of coal at 0.8 t/MWh emit 800 t,
      1000 MWh at 2 m3/MWh use 2000 m3, 1000 kW of solar at 2.5 m2/kW cover
      2500 m2, 100 MW of solar at 0.5 jobs/MW employ 50 and 2% of 1000000
      USD of revenue is 20000 USD. */
  lemma DocumentedLookups()
    ensures CalculateEmissions("coal", 1000.0, map["coal" := 0.8]) == 800.0
    ensures CalculateWaterUse("coal", 1000.0, map["coal" := 2.0]) == 2000.0
    ensures CalculateLandUse("solar_pv", 1000.0, map["solar_pv" := 2.5]) == 2500.0
    ensures CalculateEmployment("solar_pv", 100.0, map["solar_pv" := 0.5]) == 50.0
    ensures CalculateCommunityBenefits("solar_pv", 1000000.0, map["solar_pv" := 0.02]) == 20000.0
  {
  }

  // ---------------------------------------------------------------------
  // Closed-form levelized cost

  const HoursPerYear: real := 8760.0

  /** The annuity factor `(1 - (1 + r) ** -lifetime) / r`. */
  function AnnuityFactor(discountRate: real, lifetime: int): real
    requires discountRate != 0.0 && PowDefined(1.0 + discountRate, -lifetime)
  {
    Discount(discountRate, lifetime) / discountRate
  }

  /** `1 - (1 + r) ** -lifetime`. */
  function Discount(discountRate: real, lifetime: int): real
    requires PowDefined(1.0 + discountRate, -lifetime)
  {
    1.0 - IntPow(1.0 + discountRate, -lifetime)
  }

  /** The present value of a lifetime of generation at the given capacity
      factor. */
  function PvGeneration(capacityFactor: real, lifetime: int, discountRate: real): real
    requires discountRate != 0.0 && PowDefined(1.0 + discountRate, -lifetime)
  {
    HoursPerYear * capacityFactor * Discount(discountRate, lifetime) / discountRate
  }

  /** The present value of a lifetime of operating cost. */
  function PvOpex(opex: real, lifetime: int, discountRate: real): real
    requires discountRate != 0.0 && PowDefined(1.0 + discountRate, -lifetime)
  {
    opex * Discount(discountRate, lifetime) / discountRate
  }

  /** The closed form is defined when the power and both divisions by the
      rate are, and the present value of generation is not zero. */
  predicate ClosedLcoeDefined(capacityFactor: real, lifetime: int, discountRate: real)
  {
    discountRate != 0.0 && PowDefined(1.0 + discountRate, -lifetime) &&
    PvGeneration(capacityFactor, lifetime, discountRate) != 0.0
  }

  /** Levelized cost per kWh from per-kW figures, with the annuity factor in
      closed form. Every failure is a ZeroDivisionError: a zero base under a
      negative power, a zero rate, or a zero present value of generation. */
  function CalculateLcoe(capex: real, opex: real, capacityFactor: real, lifetime: int, discountRate: real): (r: Result<real>)
    ensures r.Ok? <==> ClosedLcoeDefined(capacityFactor, lifetime, discountRate)
    ensures r.Err? ==> r.error == ZeroDivisionError
    ensures discountRate == 0.0 || capacityFactor == 0.0 ==> r.Err?
  {
    if !PowDefined(1.0 + discountRate, -lifetime) || discountRate == 0.0 then Err(ZeroDivisionError)
    else
      var pvGeneration := PvGeneration(capacityFactor, lifetime, discountRate);
      if pvGeneration == 0.0 then Err(ZeroDivisionError)
      else Ok((capex + PvOpex(opex, lifetime, discountRate)) / pvGeneration)
  }

  /** Where it is defined, the closed form is the annuity form of the cost
      calculator: capital plus operating cost times the annuity factor, over
      annual generation times the annuity factor. */
  lemma ClosedLcoeIsAnnuityForm(capex: real, opex: real, capacityFactor: real, lifetime: int, discountRate: real)
    requires ClosedLcoeDefined(capacityFactor, lifetime, discountRate)
    ensures HoursPerYear * capacityFactor * AnnuityFactor(discountRate, lifetime) != 0.0
    ensures CalculateLcoe(capex, opex, capacityFactor, lifetime, discountRate).value ==
            EconomicModel.AnnuityForm(capex, opex, HoursPerYear * capacityFactor, AnnuityFactor(discountRate, lifetime))
  {
    PresentValuesAsAnnuity(opex, capacityFactor, lifetime, discountRate);
    ClosedFormQuotient(CalculateLcoe(capex, opex, capacityFactor, lifetime, discountRate), capex, opex,
                       HoursPerYear * capacityFactor, AnnuityFactor(discountRate, lifetime),
                       PvOpex(opex, lifetime, discountRate), PvGeneration(capacityFactor, lifetime, discountRate));
  }

  /** Both present values are the annual figure times the annuity factor. */
  lemma PresentValuesAsAnnuity(opex: real, capacityFactor: real, lifetime: int, discountRate: real)
    requires discountRate != 0.0 && PowDefined(1.0 + discountRate, -lifetime)
    ensures PvOpex(opex, lifetime, discountRate) == opex * AnnuityFactor(discountRate, lifetime)
    ensures PvGeneration(capacityFactor, lifetime, discountRate) == HoursPerYear * capacityFactor * AnnuityFactor(discountRate, lifetime)
  {
    MulDiv(opex, Discount(discountRate, lifetime), discountRate);
    MulDiv(HoursPerYear * capacityFactor, Discount(discountRate, lifetime), discountRate);
  }

  /** A cost computed as (capex + opex a) / (generation a) is the annuity
      form with factor a. */
  lemma ClosedFormQuotient(cost: Result<real>, capex: real, opex: real, generation: real, a: real,
                           pvOpex: real, pvGeneration: real)
    requires pvOpex == opex * a && pvGeneration == generation * a && pvGeneration != 0.0
    requires cost == Ok((capex + pvOpex) / pvGeneration)
    ensures generation * a != 0.0
    ensures cost.value == EconomicModel.AnnuityForm(capex, opex, generation, a)
  {
  }

  /** The closed-form annuity factor is the year-by-year discounted sum of
      the cost calculator. */
  lemma AnnuityFactorIsSum(discountRate: real, lifetime: nat)
    requires discountRate != 0.0 && 1.0 + discountRate != 0.0
    ensures AnnuityFactor(discountRate, lifetime) == EconomicModel.DiscountedSum(1.0, 1.0 + discountRate, lifetime)
  {
    EconomicModel.AnnuityClosedForm(discountRate, lifetime);
    if lifetime > 0 {
      assert IntPow(1.0 + discountRate, -(lifetime as int)) == 1.0 / Pow(1.0 + discountRate, lifetime);
    }
    DivideBack(discountRate, EconomicModel.DiscountedSum(1.0, 1.0 + discountRate, lifetime),
               IntPow(1.0 + discountRate, -(lifetime as int)));
    assert Discount(discountRate, lifetime) == 1.0 - IntPow(1.0 + discountRate, -(lifetime as int));
  }

  lemma MulDiv(x: real, y: real, r: real)
    requires r != 0.0
    ensures x * y / r == x * (y / r)
  {
  }

  lemma DivideBack(r: real, a: real, y: real)
    requires r != 0.0 && r * a == 1.0 - y
    ensures (1.0 - y) / r == a
  {
  }

  /** For a natural lifetime and a rate other than 0 and -1, the closed form
      and the cost calculator's year-by-year sums give the same result, or
      fail together. */
  lemma ClosedFormAgreesWithSums(capex: real, opex: real, capacityFactor: real, lifetime: nat, discountRate: real)
    requires discountRate != 0.0 && 1.0 + discountRate != 0.0
    ensures CalculateLcoe(capex, opex, capacityFactor, lifetime, discountRate) ==
            EconomicModel.Levelized(capex, opex, HoursPerYear * capacityFactor, 1.0 + discountRate, lifetime)
  {
    var generation := HoursPerYear * capacityFactor;
    var a := EconomicModel.DiscountedSum(1.0, 1.0 + discountRate, lifetime);
    ClosedFormFailsWithSums(capacityFactor, lifetime, discountRate, generation, a);
    if generation * a != 0.0 {
      EconomicModel.LevelizedAsAnnuity(capex, opex, generation, 1.0 + discountRate, lifetime);
      ClosedLcoeIsAnnuityForm(capex, opex, capacityFactor, lifetime, discountRate);
    }
  }

  /** Both forms fail exactly when generation times the annuity factor is
      zero. */
  lemma ClosedFormFailsWithSums(capacityFactor: real, lifetime: nat, discountRate: real, generation: real, a: real)
    requires discountRate != 0.0 && 1.0 + discountRate != 0.0
    requires generation == HoursPerYear * capacityFactor && a == EconomicModel.DiscountedSum(1.0, 1.0 + discountRate, lifetime)
    ensures AnnuityFactor(discountRate, lifetime) == a
    ensures ClosedLcoeDefined(capacityFactor, lifetime, discountRate) <==> generation * a != 0.0
  {
    AnnuityFactorIsSum(discountRate, lifetime);
    MulDiv(generation, Discount(discountRate, lifetime), discountRate);
  }

  /** Positive costs, capacity factor and rate give a positive cost per kWh
      over any lifetime of a year or more. */
  lemma ClosedLcoePositive(capex: real, opex: real, capacityFactor: real, lifetime: nat, discountRate: real)
    requires capex > 0.0 && opex > 0.0 && capacityFactor > 0.0 && discountRate > 0.0 && lifetime >= 1
    ensures CalculateLcoe(capex, opex, capacityFactor, lifetime, discountRate).Ok?
    ensures CalculateLcoe(capex, opex, capacityFactor, lifetime, discountRate).value > 0.0
  {
    var a := EconomicModel.DiscountedSum(1.0, 1.0 + discountRate, lifetime);
    EconomicModel.AnnuityPositive(1.0 + discountRate, lifetime);
    AnnuityFactorIsSum(discountRate, lifetime);
    EconomicModel.PositiveQuotient(capex, opex, HoursPerYear * capacityFactor, a);
    MulDiv(HoursPerYear * capacityFactor, Discount(discountRate, lifetime), discountRate);
    ClosedLcoeIsAnnuityForm(capex, opex, capacityFactor, lifetime, discountRate);
  }

  // ---------------------------------------------------------------------
  // Hourly demand

  /** Demand of hour h of the year: the grown base load shaped by a daily
      and a seasonal pattern, never above the grown peak. `dailySine(h)` and
      `seasonalSine(h)` stand for the two sine terms of that hour. */
  function HourlyDemandAt(baseLoad: real, peakLoad: real, dailyVariation: real, seasonalVariation: real,
                          growth: real, daily: real, seasonal: real): (r: real)
    ensures r <= peakLoad * growth
  {
    Min(baseLoad * growth * (daily * dailyVariation + 1.0) * (seasonal * seasonalVariation + 1.0), peakLoad * growth)
  }

  /** Growth of 6% a year from the start year, `1.06 ** (year - start)`. */
  function DemandGrowth(year: int, startYear: int): (g: real)
    ensures g > 0.0
  {
    IntPow(1.0 + 0.06, year - startYear)
  }

  /** One value per hour of the year, January 1 00:00 to December 31 23:00. */
  function CalculateHourlyDemand(baseLoad: real, peakLoad: real, dailyVariation: real, seasonalVariation: real,
                                 year: int, startYear: int, dailySine: int -> real, seasonalSine: int -> real)
    : (demand: seq<real>)
    ensures |demand| == EnergySystem.HoursIn(year)
    ensures forall h :: 0 <= h < |demand| ==> demand[h] <= peakLoad * DemandGrowth(year, startYear)
  {
    var g := DemandGrowth(year, startYear);
    assert forall h :: HourlyDemandAt(baseLoad, peakLoad, dailyVariation, seasonalVariation, g, dailySine(h), seasonalSine(h))
                       <= peakLoad * g;
    seq(EnergySystem.HoursIn(year), h =>
      HourlyDemandAt(baseLoad, peakLoad, dailyVariation, seasonalVariation, g, dailySine(h), seasonalSine(h)))
  }

  /** Each hour's demand is the grown base load times both patterns when
      that stays below the grown peak, and the grown peak otherwise. */
  lemma HourlyDemandIsClamped(baseLoad: real, peakLoad: real, dailyVariation: real, seasonalVariation: real,
                              year: int, startYear: int, dailySine: int -> real, seasonalSine: int -> real, h: nat)
    requires h < EnergySystem.HoursIn(year)
    ensures var d := CalculateHourlyDemand(baseLoad, peakLoad, dailyVariation, seasonalVariation, year, startYear,
                                           dailySine, seasonalSine)[h];
            var g := DemandGrowth(year, startYear);
            var shaped := baseLoad * g * (dailySine(h) * dailyVariation + 1.0) * (seasonalSine(h) * seasonalVariation + 1.0);
            d == if shaped <= peakLoad * g then shaped else peakLoad * g
  {
  }

  /** A pattern value in [0, 2] when its sine is in [-1, 1] and its
      variation in [0, 1]. */
  lemma PatternNonNegative(sine: real, variation: real)
    requires -1.0 <= sine <= 1.0 && 0.0 <= variation <= 1.0
    ensures sine * variation + 1.0 >= 0.0
  {
    if sine < 0.0 {
      assert sine * variation >= -1.0 * variation;
    }
  }

  /** Demand is never negative for a non-negative base and peak load,
      variations in [0, 1] and sine terms in [-1, 1]. */
  lemma HourlyDemandNonNegative(baseLoad: real, peakLoad: real, dailyVariation: real, seasonalVariation: real,
                                year: int, startYear: int, dailySine: int -> real, seasonalSine: int -> real)
    requires baseLoad >= 0.0 && peakLoad >= 0.0
    requires 0.0 <= dailyVariation <= 1.0 && 0.0 <= seasonalVariation <= 1.0
    requires forall h :: -1.0 <= dailySine(h) <= 1.0
    requires forall h :: -1.0 <= seasonalSine(h) <= 1.0
    ensures forall h :: 0 <= h < EnergySystem.HoursIn(year) ==>
              CalculateHourlyDemand(baseLoad, peakLoad, dailyVariation, seasonalVariation, year, startYear,
                                    dailySine, seasonalSine)[h] >= 0.0
  {
    var g := DemandGrowth(year, startYear);
    forall h | 0 <= h < EnergySystem.HoursIn(year)
      ensures CalculateHourlyDemand(baseLoad, peakLoad, dailyVariation, seasonalVariation, year, startYear,
                                    dailySine, seasonalSine)[h] >= 0.0
    {
      var dp := dailySine(h) * dailyVariation + 1.0;
      var sp := seasonalSine(h) * seasonalVariation + 1.0;
      PatternNonNegative(dailySine(h), dailyVariation);
      PatternNonNegative(seasonalSine(h), seasonalVariation);
      ProductNonNegative(baseLoad * g, dp, sp);
      assert peakLoad * g >= 0.0;
    }
  }

  lemma ProductNonNegative(a: real, b: real, c: real)
    requires a >= 0.0 && b >= 0.0 && c >= 0.0
    ensures a * b * c >= 0.0
  {
    assert a * b >= 0.0;
  }

  /** 2024 is a leap year, so its demand has 8784 hourly values, not 8760. */
  lemma LeapYearDemandLength(baseLoad: real, peakLoad: real, dailyVariation: real, seasonalVariation: real,
                             dailySine: int -> real, seasonalSine: int -> real)
    ensures |CalculateHourlyDemand(baseLoad, peakLoad, dailyVariation, seasonalVariation, 2024, 2024,
                                   dailySine, seasonalSine)| == 8784
  {
  }

  // ---------------------------------------------------------------------
  // Capacity factor

  function BaseFactors(): map<string, real>
  {
    map["solar_pv" := 0.18, "wind" := 0.25, "biomass" := 0.70, "natural_gas" := 0.85, "coal" := 0.80]
  }

  /** The capacity factor. Solar and wind vary by time; `cosineSquared`
      stands for cos^2 of the solar angle and `monthSine` for the monthly
      sine term, both computed by the caller. Every other technology has
      its table constant, and 0.0 when it has none. */
  function CalculateCapacityFactor(technology: string, cosineSquared: real, monthSine: real): (r: real)
    ensures technology != "solar_pv" && technology != "wind" ==>
              r == if technology in BaseFactors() then BaseFactors()[technology] else 0.0
  {
    var baseFactor := if technology in BaseFactors() then BaseFactors()[technology] else 0.0;
    if technology == "solar_pv" then baseFactor * cosineSquared * (monthSine * 0.2 + 0.8)
    else if technology == "wind" then baseFactor * (monthSine * 0.3 + 0.7)
    else baseFactor
  }

  /** With the trigonometric terms in range every capacity factor lies in
      [0, 1]. */
  lemma CapacityFactorInUnit(technology: string, cosineSquared: real, monthSine: real)
    requires 0.0 <= cosineSquared <= 1.0 && -1.0 <= monthSine <= 1.0
    ensures 0.0 <= CalculateCapacityFactor(technology, cosineSquared, monthSine) <= 1.0
  {
    if technology == "solar_pv" {
      assert BaseFactors()["solar_pv"] == 0.18;
      var m := monthSine * 0.2 + 0.8;
      assert 0.6 <= m <= 1.0;
      assert 0.0 <= 0.18 * cosineSquared <= 0.18;
      ScaleMonotone(0.18 * cosineSquared, 0.18, m);
      assert 0.18 * cosineSquared * m >= 0.0;
    } else if technology == "wind" {
      assert BaseFactors()["wind"] == 0.25;
      assert 0.4 <= monthSine * 0.3 + 0.7 <= 1.0;
    }
  }

  // ---------------------------------------------------------------------
  // Formatting: the unit and the scaled amount (the digits are not modelled)

  datatype Formatted = Formatted(amount: real, unit: string)

  /** How many base units one unit holds. */
  function UnitScale(unit: string): real
  {
    match unit
    case "TWh" => 1000000000.0
    case "GW" => 1000000.0
    case "GWh" => 1000000.0
    case "MW" => 1000.0
    case "MWh" => 1000.0
    case "%" => 0.01
    case _ => 1.0
  }

  /** kW, MW or GW: the largest unit of which the value is at least one. */
  function FormatPower(value: real): (r: Formatted)
    ensures r.amount * UnitScale(r.unit) == value
    ensures r.unit == if value >= 1000000.0 then "GW" else if value >= 1000.0 then "MW" else "kW"
    ensures value >= 1.0 ==> r.amount >= 1.0
    ensures value < 1000000000.0 ==> r.amount < 1000.0
  {
    if value >= 1000000.0 then Formatted(value / 1000000.0, "GW")
    else if value >= 1000.0 then Formatted(value / 1000.0, "MW")
    else Formatted(value, "kW")
  }

  /** kWh, MWh, GWh or TWh: the largest unit of which the value is at least
      one. */
  function FormatEnergy(value: real): (r: Formatted)
    ensures r.amount * UnitScale(r.unit) == value
    ensures r.unit == if value >= 1000000000.0 then "TWh" else if value >= 1000000.0 then "GWh"
                      else if value >= 1000.0 then "MWh" else "kWh"
    ensures value >= 1.0 ==> r.amount >= 1.0
    ensures value < 1000000000.0 ==> r.amount < 1000.0
  {
    if value >= 1000000000.0 then Formatted(value / 1000000000.0, "TWh")
    else if value >= 1000000.0 then Formatted(value / 1000000.0, "GWh")
    else if value >= 1000.0 then Formatted(value / 1000.0, "MWh")
    else Formatted(value, "kWh")
  }

  /** A fraction shown as a percentage. */
  function FormatPercentage(value: real): (r: Formatted)
    ensures r.unit == "%" && r.amount * UnitScale(r.unit) == value
  {
    Formatted(value * 100.0, "%")
  }
}
