// The cost calculator of the transition: capital and operating cost of new
// capacity, fuel and carbon cost, levelized cost of electricity, net present
// value, payback and the per-year metrics over an energy-system run.

module EconomicModel {
  import opened Common
  import EnergySystem

  datatype EconomicConfig = EconomicConfig(
    discountRate: real,
    inflationRate: real,
    exchangeRate: real,        // BDT per USD; read by nothing in the calculator
    carbonPrice: real,         // USD per tonne of CO2
    fuelPrices: map<string, real>,
    opexEscalation: real)

  function DefaultEconomicConfig(): EconomicConfig
  {
    EconomicConfig(0.08, 0.05, 110.0, 50.0,
                   map["natural_gas" := 8.0, "coal" := 80.0, "oil" := 80.0], 0.02)
  }

  /** Year in which costs are quoted, and the year the learning curve starts. */
  const CostBaseYear: int := 2024
  const LearningBaseYear: int := 2020

  /** 20% cost reduction per doubling, one doubling every two years. */
  const LearningRatio: real := 1.0 - 0.2

  /** The year an even number 2k of years after 2020. */
  function EvenYear(k: int): int
  {
    LearningBaseYear + 2 * k
  }

  /** The learning factor `0.8 ** ((year - 2020) / 2)`. Its exponent is a
      float, so only its positivity and its value in the years an even number
      2k of years after 2020 (where it is 0.8^k) are known. */
  type LearningCurve = f: int -> real
    | (forall y :: f(y) > 0.0) && (forall k :: f(EvenYear(k)) == IntPow(LearningRatio, k))
    witness EvenYearLearning

  /** A learning curve that is 1 in the odd years: it shows that curves
      exist, and nothing in the model depends on its odd-year values. */
  function EvenYearLearning(y: int): (f: real)
    ensures f > 0.0
    ensures forall k :: y == EvenYear(k) ==> f == IntPow(LearningRatio, k)
  {
    if (y - LearningBaseYear) % 2 == 0 then IntPow(LearningRatio, (y - LearningBaseYear) / 2) else 1.0
  }

  datatype Model = Model(config: EconomicConfig, learning: LearningCurve)

  // ---------------------------------------------------------------------
  // Tables

  /** Capital cost in USD per MW (per MWh for storage, per km for wires). */
  function BaseCosts(): map<string, real>
  {
    map["solar_pv" := 800000.0, "wind" := 1200000.0, "biomass" := 2000000.0,
        "battery_storage" := 200000.0, "transmission" := 500000.0, "distribution" := 200000.0]
  }

  /** Technologies whose capital cost follows the learning curve. */
  function LearningTechs(): set<string>
  {
    {"solar_pv", "wind", "battery_storage"}
  }

  /** Annual O&M cost as a fraction of capital cost. */
  function OpexRates(): map<string, real>
  {
    map["solar_pv" := 0.01, "wind" := 0.015, "biomass" := 0.02,
        "battery_storage" := 0.02, "transmission" := 0.01, "distribution" := 0.015]
  }

  /** Economic lifetime in years. */
  function Lifetimes(): map<string, nat>
  {
    map["solar_pv" := 25, "wind" := 20, "biomass" := 20, "battery_storage" := 10]
  }

  // ---------------------------------------------------------------------
  // Costs

  function LearningFactor(m: Model, technology: string, year: int): (f: real)
    ensures f > 0.0
  {
    if technology in LearningTechs() then m.learning(year) else 1.0
  }

  /** `(1 + rate) ** (year - 2024)` exists unless a zero base meets a year
      before 2024. */
  predicate CompoundDefined(rate: real, year: int)
  {
    PowDefined(1.0 + rate, year - CostBaseYear)
  }

  /** A rate compounded from 2024 to `year` (discounted back for earlier
      years). */
  function Compound(rate: real, year: int): (f: real)
    requires CompoundDefined(rate, year)
    ensures rate > -1.0 ==> f > 0.0
    ensures year == CostBaseYear ==> f == 1.0
  {
    IntPow(1.0 + rate, year - CostBaseYear)
  }

  /** The capital cost is defined for a technology of the cost table in a
      year whose inflation factor exists. */
  predicate CapexDefined(m: Model, technology: string, year: int)
  {
    technology in BaseCosts() && CompoundDefined(m.config.inflationRate, year)
  }

  /** Base cost, times the learning factor, times inflation since 2024,
      times the capacity. */
  function CapexAmount(m: Model, technology: string, capacity: real, year: int): real
    requires CapexDefined(m, technology, year)
  {
    BaseCosts()[technology] * LearningFactor(m, technology, year) *
    Compound(m.config.inflationRate, year) * capacity
  }

  /** Capital cost of new capacity. An unknown technology raises KeyError; a
      zero inflation base raised to a negative power raises
      ZeroDivisionError. */
  function CalculateCapex(m: Model, technology: string, capacity: real, year: int): (r: Result<real>)
    ensures r.Ok? <==> CapexDefined(m, technology, year)
    ensures r.Ok? ==> r.value == CapexAmount(m, technology, capacity, year)
    ensures r.Err? ==> r.error == if technology in BaseCosts() then ZeroDivisionError else KeyError(technology)
  {
    if technology !in BaseCosts() then Err(KeyError(technology))
    else if !CompoundDefined(m.config.inflationRate, year) then Err(ZeroDivisionError)
    else Ok(CapexAmount(m, technology, capacity, year))
  }

  /** Capital cost is linear in the capacity: scaling the capacity by k
      scales the cost by k (so no capacity costs nothing). */
  lemma CapexLinear(m: Model, technology: string, capacity: real, k: real, year: int)
    requires CapexDefined(m, technology, year)
    ensures CapexAmount(m, technology, k * capacity, year) == k * CapexAmount(m, technology, capacity, year)
  {
    ScaleLast(CapexAmount(m, technology, capacity, year), CapexAmount(m, technology, k * capacity, year),
              BaseCosts()[technology] * LearningFactor(m, technology, year) * Compound(m.config.inflationRate, year),
              capacity, k);
  }

  lemma ScaleLast(x0: real, x1: real, a: real, c: real, k: real)
    requires x0 == a * c && x1 == a * (k * c)
    ensures x1 == k * x0
  {
  }

  /** With inflation above -100%, positive capacity of a known technology
      costs a positive amount. */
  lemma CapexPositive(m: Model, technology: string, capacity: real, year: int)
    requires technology in BaseCosts() && m.config.inflationRate > -1.0 && capacity > 0.0
    ensures CapexDefined(m, technology, year)
    ensures CapexAmount(m, technology, capacity, year) > 0.0
  {
    var b := BaseCosts()[technology] * LearningFactor(m, technology, year);
    var i := Compound(m.config.inflationRate, year);
    assert b > 0.0 && i > 0.0;
    assert b * i > 0.0;
  }

  /** Two years later a rate has compounded twice more. */
  lemma CompoundTwoYears(rate: real, y1: int, y2: int)
    requires 1.0 + rate != 0.0 && y2 == y1 + 2
    ensures CompoundDefined(rate, y1) && CompoundDefined(rate, y2)
    ensures Compound(rate, y2) == (1.0 + rate) * (1.0 + rate) * Compound(rate, y1)
  {
    IntPowTwoSteps(1.0 + rate, y1 - CostBaseYear);
    assert y2 - CostBaseYear == y1 - CostBaseYear + 2;
  }

  /** Two years later the learning factor of a learning technology is 0.8
      times what it was, that is 20% less; biomass and the wires do not
      learn. */
  lemma LearningTwoYears(m: Model, technology: string, k: int)
    ensures LearningFactor(m, technology, EvenYear(k + 1)) == LearningStep(technology) * LearningFactor(m, technology, EvenYear(k))
  {
    if technology in LearningTechs() {
      IntPowStep(LearningRatio, k);
    }
  }

  /** The change of the learning factor over two years. */
  function LearningStep(technology: string): real
  {
    if technology in LearningTechs() then LearningRatio else 1.0
  }

  /** The O&M cost is defined when the capital cost is, the technology has an
      O&M rate and the escalation factor exists. */
  predicate OpexDefined(m: Model, technology: string, year: int)
  {
    CapexDefined(m, technology, year) && technology in OpexRates() &&
    CompoundDefined(m.config.opexEscalation, year)
  }

  /** The (already inflated) capital cost times the O&M rate, escalated again
      from 2024. */
  function OpexAmount(m: Model, technology: string, capacity: real, year: int): real
    requires OpexDefined(m, technology, year)
  {
    EscalatedOpex(CapexAmount(m, technology, capacity, year), OpexRates()[technology],
                  Compound(m.config.opexEscalation, year))
  }

  /** A capital cost's O&M share, escalated. */
  function EscalatedOpex(capex: real, rate: real, escalation: real): real
  {
    capex * rate * escalation
  }

  /** The O&M share grows with the capital cost in proportion. */
  lemma EscalatedOpexLinear(capex: real, scaledCapex: real, k: real, rate: real, escalation: real)
    requires scaledCapex == k * capex
    ensures EscalatedOpex(scaledCapex, rate, escalation) == k * EscalatedOpex(capex, rate, escalation)
  {
  }

  lemma EscalatedOpexPositive(capex: real, rate: real, escalation: real)
    requires capex > 0.0 && rate > 0.0 && escalation > 0.0
    ensures EscalatedOpex(capex, rate, escalation) > 0.0
  {
    assert capex * rate > 0.0;
  }

  /** Annual O&M cost. The errors of the capital cost come first; every
      technology with a capital cost has an O&M rate, so what remains is the
      escalation's ZeroDivisionError. */
  function CalculateOpex(m: Model, technology: string, capacity: real, year: int): (r: Result<real>)
    ensures r.Ok? <==> OpexDefined(m, technology, year)
    ensures r.Ok? ==> r.value == OpexAmount(m, technology, capacity, year)
    ensures r.Err? ==> r.error == if technology in BaseCosts() then ZeroDivisionError else KeyError(technology)
  {
    match CalculateCapex(m, technology, capacity, year)
    case Err(e) => Err(e)
    case Ok(capex) =>
      if technology !in OpexRates() then Err(KeyError(technology))
      else if !CompoundDefined(m.config.opexEscalation, year) then Err(ZeroDivisionError)
      else Ok(capex * OpexRates()[technology] * Compound(m.config.opexEscalation, year))
  }

  /** In 2024 the O&M cost is exactly the rate's share of the capital cost;
      in later years inflation and escalation compound on each other. */
  lemma OpexInBaseYear(m: Model, technology: string, capacity: real)
    requires technology in BaseCosts()
    ensures OpexDefined(m, technology, CostBaseYear)
    ensures OpexAmount(m, technology, capacity, CostBaseYear) ==
            CapexAmount(m, technology, capacity, CostBaseYear) * OpexRates()[technology]
  {
    assert Compound(m.config.opexEscalation, CostBaseYear) == 1.0;
  }

  /** O&M cost is linear in the capacity. */
  lemma OpexLinear(m: Model, technology: string, capacity: real, k: real, year: int)
    requires OpexDefined(m, technology, year)
    ensures OpexAmount(m, technology, k * capacity, year) == k * OpexAmount(m, technology, capacity, year)
  {
    CapexLinear(m, technology, capacity, k, year);
    EscalatedOpexLinear(CapexAmount(m, technology, capacity, year), CapexAmount(m, technology, k * capacity, year), k,
                        OpexRates()[technology], Compound(m.config.opexEscalation, year));
  }

  lemma OpexPositive(m: Model, technology: string, capacity: real, year: int)
    requires technology in BaseCosts() && m.config.inflationRate > -1.0 && m.config.opexEscalation > -1.0
    requires capacity > 0.0
    ensures OpexDefined(m, technology, year)
    ensures OpexAmount(m, technology, capacity, year) > 0.0
  {
    CapexPositive(m, technology, capacity, year);
    EscalatedOpexPositive(CapexAmount(m, technology, capacity, year), OpexRates()[technology],
                          Compound(m.config.opexEscalation, year));
  }

  /** Fuel cost: the fuel's price inflated from 2024, times the amount. */
  function CalculateFuelCost(m: Model, fuel: string, amount: real, year: int): (r: Result<real>)
    ensures r.Ok? <==> fuel in m.config.fuelPrices && CompoundDefined(m.config.inflationRate, year)
    ensures r.Err? ==> r.error == if fuel in m.config.fuelPrices then ZeroDivisionError else KeyError(fuel)
  {
    if fuel !in m.config.fuelPrices then Err(KeyError(fuel))
    else if !CompoundDefined(m.config.inflationRate, year) then Err(ZeroDivisionError)
    else Ok(m.config.fuelPrices[fuel] * Compound(m.config.inflationRate, year) * amount)
  }

  /** Fuel cost is additive in the amount burnt, and the base-year price is
      the listed one. */
  lemma FuelCostAdditive(m: Model, fuel: string, a: real, b: real, year: int)
    requires CalculateFuelCost(m, fuel, a, year).Ok?
    ensures CalculateFuelCost(m, fuel, a + b, year).Ok? && CalculateFuelCost(m, fuel, b, year).Ok?
    ensures CalculateFuelCost(m, fuel, a + b, year).value ==
            CalculateFuelCost(m, fuel, a, year).value + CalculateFuelCost(m, fuel, b, year).value
    ensures year == CostBaseYear ==> CalculateFuelCost(m, fuel, a, year).value == m.config.fuelPrices[fuel] * a
  {
    var p := m.config.fuelPrices[fuel];
    var e := Compound(m.config.inflationRate, year);
    assert p * e * (a + b) == p * e * a + p * e * b;
  }

  /** Carbon cost of the emitted tonnes at the configured carbon price. */
  function CalculateEmissionsCost(m: Model, tonnes: real): (r: real)
    ensures m.config.carbonPrice >= 0.0 ==> (r >= 0.0 <==> tonnes >= 0.0 || m.config.carbonPrice == 0.0)
  {
    tonnes * m.config.carbonPrice
  }

  lemma EmissionsCostAdditive(m: Model, a: real, b: real)
    ensures CalculateEmissionsCost(m, a + b) == CalculateEmissionsCost(m, a) + CalculateEmissionsCost(m, b)
  {
    assert (a + b) * m.config.carbonPrice == a * m.config.carbonPrice + b * m.config.carbonPrice;
  }

  // ---------------------------------------------------------------------
  // Discounting

  /** `sum(x / b ** t for t in range(1, n + 1))`, added left to right. */
  function DiscountedSum(x: real, b: real, n: nat): real
    requires b != 0.0
  {
    if n == 0 then 0.0 else DiscountedSum(x, b, n - 1) + x / Pow(b, n)
  }

  /** The discounted sum of a constant is the constant times the annuity
      factor. */
  lemma {:induction false} DiscountedSumLinear(x: real, b: real, n: nat)
    requires b != 0.0
    ensures DiscountedSum(x, b, n) == x * DiscountedSum(1.0, b, n)
  {
    if n > 0 {
      DiscountedSumLinear(x, b, n - 1);
      AddScaledTerm(x, DiscountedSum(1.0, b, n - 1), Pow(b, n));
    }
  }

  lemma AddScaledTerm(x: real, a: real, p: real)
    requires p != 0.0
    ensures x * a + x / p == x * (a + 1.0 / p)
  {
    assert x / p == x * (1.0 / p);
  }

  /** With a positive discount base the annuity factor of a non-empty
      horizon is positive. */
  lemma {:induction false} AnnuityPositive(b: real, n: nat)
    requires b > 0.0 && n >= 1
    ensures DiscountedSum(1.0, b, n) > 0.0
  {
    if n > 1 {
      AnnuityPositive(b, n - 1);
    }
    assert 1.0 / Pow(b, n) > 0.0;
  }

  /** The annuity factor in closed form: with b = 1 + r,
      r * sum_{t=1..n} b^-t = 1 - b^-n. */
  lemma {:induction false} AnnuityClosedForm(r: real, n: nat)
    requires 1.0 + r != 0.0
    ensures r * DiscountedSum(1.0, 1.0 + r, n) == 1.0 - 1.0 / Pow(1.0 + r, n)
  {
    if n > 0 {
      AnnuityClosedForm(r, n - 1);
      var b := 1.0 + r;
      var a, p := DiscountedSum(1.0, b, n - 1), Pow(b, n - 1);
      var s, q := DiscountedSum(1.0, b, n), Pow(b, n);
      assert q == b * p;
      assert s == a + 1.0 / q;
      AnnuityStep(r, b, a, p, s, q);
    }
  }

  /** One more year of the closed form: with q = b p and s = a + 1/q,
      r a = 1 - 1/p gives r s = 1 - 1/q. */
  lemma AnnuityStep(r: real, b: real, a: real, p: real, s: real, q: real)
    requires b == 1.0 + r && b != 0.0 && p != 0.0
    requires q == b * p && s == a + 1.0 / q
    requires r * a == 1.0 - 1.0 / p
    ensures r * s == 1.0 - 1.0 / q
  {
    assert q != 0.0;
    assert r * s == r * a + r / q;
    assert 1.0 / p == b / q;
    assert r / q - b / q == -1.0 / q;
  }

  /** `(capex + pv_opex) / pv_generation`, both present values summed year by
      year over the lifetime; a zero present value of generation raises
      ZeroDivisionError. */
  function Levelized(capex: real, opex: real, generation: real, b: real, lifetime: nat): (r: Result<real>)
    requires b != 0.0
    ensures r.Ok? <==> generation * DiscountedSum(1.0, b, lifetime) != 0.0
    ensures r.Err? ==> r.error == ZeroDivisionError
  {
    var pvOpex := DiscountedSum(opex, b, lifetime);
    var pvGeneration := DiscountedSum(generation, b, lifetime);
    DiscountedSumLinear(generation, b, lifetime);
    if pvGeneration == 0.0 then Err(ZeroDivisionError)
    else Ok((capex + pvOpex) / pvGeneration)
  }

  /** The levelized formula is (capex + opex * A) / (generation * A) with A
      the annuity factor of the lifetime. */
  lemma LevelizedAsAnnuity(capex: real, opex: real, generation: real, b: real, lifetime: nat)
    requires b != 0.0 && generation * DiscountedSum(1.0, b, lifetime) != 0.0
    ensures Levelized(capex, opex, generation, b, lifetime).Ok?
    ensures Levelized(capex, opex, generation, b, lifetime).value ==
            AnnuityForm(capex, opex, generation, DiscountedSum(1.0, b, lifetime))
  {
    var a := DiscountedSum(1.0, b, lifetime);
    var pvOpex := DiscountedSum(opex, b, lifetime);
    var pvGeneration := DiscountedSum(generation, b, lifetime);
    DiscountedSumLinear(generation, b, lifetime);
    DiscountedSumLinear(opex, b, lifetime);
    assert pvGeneration == generation * a && pvGeneration != 0.0;
    QuotientOfScaled(capex, pvOpex, pvGeneration, opex, generation, a, (capex + pvOpex) / pvGeneration);
  }

  lemma QuotientOfScaled(capex: real, pvOpex: real, pvGeneration: real, opex: real, generation: real, a: real,
                         quotient: real)
    requires pvOpex == opex * a
    requires pvGeneration == generation * a
    requires pvGeneration != 0.0
    requires quotient == (capex + pvOpex) / pvGeneration
    ensures quotient == AnnuityForm(capex, opex, generation, a)
  {
  }

  /** Cost per unit of energy when every yearly figure is weighted by the
      same annuity factor a. */
  function AnnuityForm(capex: real, opex: real, generation: real, a: real): real
    requires generation * a != 0.0
  {
    (capex + opex * a) / (generation * a)
  }

  /** Scaling costs and generation by the same non-zero factor k leaves the
      levelized cost, and whether it exists, unchanged. */
  lemma LevelizedScaleInvariant(capex: real, opex: real, generation: real, b: real, lifetime: nat, k: real,
                                scaledCapex: real, scaledOpex: real, scaledGeneration: real)
    requires b != 0.0 && k != 0.0
    requires scaledCapex == k * capex && scaledOpex == k * opex && scaledGeneration == k * generation
    ensures Levelized(scaledCapex, scaledOpex, scaledGeneration, b, lifetime) == Levelized(capex, opex, generation, b, lifetime)
  {
    var a := DiscountedSum(1.0, b, lifetime);
    AnnuityFormScale(capex, opex, generation, a, k);
    if generation * a != 0.0 {
      LevelizedAsAnnuity(capex, opex, generation, b, lifetime);
      LevelizedAsAnnuity(k * capex, k * opex, k * generation, b, lifetime);
    }
  }

  lemma AnnuityFormScale(capex: real, opex: real, generation: real, a: real, k: real)
    requires k != 0.0
    ensures (k * generation) * a != 0.0 <==> generation * a != 0.0
    ensures generation * a != 0.0 ==>
              AnnuityForm(k * capex, k * opex, k * generation, a) == AnnuityForm(capex, opex, generation, a)
  {
    assert (k * generation) * a == k * (generation * a);
    if generation * a != 0.0 {
      var x := capex + opex * a;
      var y := generation * a;
      assert k * capex + (k * opex) * a == k * x;
      assert (k * x) / (k * y) == x / y;
    }
  }

  /** The levelized cost is defined for a technology with a lifetime, defined
      O&M cost, a non-zero discount base and a non-zero discounted
      generation. */
  predicate LcoeDefined(m: Model, technology: string, generation: real, year: int)
  {
    technology in Lifetimes() && OpexDefined(m, technology, year) &&
    1.0 + m.config.discountRate != 0.0 &&
    generation * DiscountedSum(1.0, 1.0 + m.config.discountRate, Lifetimes()[technology]) != 0.0
  }

  /** Levelized cost of electricity. The lifetime table is consulted first
      (KeyError), then the capital and O&M cost; a zero discount base or a
      zero discounted generation raises ZeroDivisionError. */
  function CalculateLcoe(m: Model, technology: string, capacity: real, generation: real, year: int): (r: Result<real>)
    ensures r.Ok? <==> LcoeDefined(m, technology, generation, year)
    ensures r.Err? ==> r.error == if technology in Lifetimes() then ZeroDivisionError else KeyError(technology)
    ensures generation == 0.0 ==> r.Err?
    ensures technology in Lifetimes() && OpexDefined(m, technology, year) && 1.0 + m.config.discountRate != 0.0 ==>
              r == Levelized(CapexAmount(m, technology, capacity, year), OpexAmount(m, technology, capacity, year),
                             generation, 1.0 + m.config.discountRate, Lifetimes()[technology])
  {
    if technology !in Lifetimes() then Err(KeyError(technology))
    else
      match CalculateCapex(m, technology, capacity, year)
      case Err(e) => Err(e)
      case Ok(capex) =>
        match CalculateOpex(m, technology, capacity, year)
        case Err(e) => Err(e)
        case Ok(opex) =>
          var b := 1.0 + m.config.discountRate;
          if b == 0.0 then Err(ZeroDivisionError)
          else Levelized(capex, opex, generation, b, Lifetimes()[technology])
  }

  /** The levelized cost is (capex + opex * A) / (generation * A) with A the
      annuity factor of the lifetime: the formula of the closed-form helper,
      which writes A as (1 - (1 + r)^-L) / r. */
  lemma LcoeAsAnnuity(m: Model, technology: string, capacity: real, generation: real, year: int)
    requires CalculateLcoe(m, technology, capacity, generation, year).Ok?
    ensures LcoeDefined(m, technology, generation, year)
    ensures CalculateLcoe(m, technology, capacity, generation, year).value ==
            AnnuityForm(CapexAmount(m, technology, capacity, year), OpexAmount(m, technology, capacity, year),
                        generation, DiscountedSum(1.0, 1.0 + m.config.discountRate, Lifetimes()[technology]))
  {
    LevelizedAsAnnuity(CapexAmount(m, technology, capacity, year), OpexAmount(m, technology, capacity, year),
                       generation, 1.0 + m.config.discountRate, Lifetimes()[technology]);
  }

  /** Positive capacity and generation of a technology with a lifetime give a
      positive levelized cost when every rate is above -100%. */
  lemma LcoePositive(m: Model, technology: string, capacity: real, generation: real, year: int)
    requires technology in Lifetimes() && capacity > 0.0 && generation > 0.0
    requires m.config.inflationRate > -1.0 && m.config.opexEscalation > -1.0 && m.config.discountRate > -1.0
    ensures CalculateLcoe(m, technology, capacity, generation, year).Ok?
    ensures CalculateLcoe(m, technology, capacity, generation, year).value > 0.0
  {
    OpexPositive(m, technology, capacity, year);
    CapexPositive(m, technology, capacity, year);
    AnnuityPositive(1.0 + m.config.discountRate, Lifetimes()[technology]);
    PositiveQuotient(CapexAmount(m, technology, capacity, year), OpexAmount(m, technology, capacity, year),
                     generation, DiscountedSum(1.0, 1.0 + m.config.discountRate, Lifetimes()[technology]));
    LcoeAsAnnuity(m, technology, capacity, generation, year);
  }

  lemma PositiveQuotient(capex: real, opex: real, generation: real, a: real)
    requires capex > 0.0 && opex > 0.0 && generation > 0.0 && a > 0.0
    ensures generation * a > 0.0
    ensures AnnuityForm(capex, opex, generation, a) > 0.0
  {
    assert opex * a > 0.0;
  }

  /** Scaling a plant (capacity and generation alike) leaves its levelized
      cost, or its error, unchanged. */
  lemma LcoeScaleInvariant(m: Model, technology: string, capacity: real, generation: real, k: real, year: int)
    requires k != 0.0
    ensures CalculateLcoe(m, technology, k * capacity, k * generation, year) ==
            CalculateLcoe(m, technology, capacity, generation, year)
  {
    if technology in Lifetimes() && OpexDefined(m, technology, year) && 1.0 + m.config.discountRate != 0.0 {
      CapexLinear(m, technology, capacity, k, year);
      OpexLinear(m, technology, capacity, k, year);
      LevelizedScaleInvariant(CapexAmount(m, technology, capacity, year), OpexAmount(m, technology, capacity, year),
                              generation, 1.0 + m.config.discountRate, Lifetimes()[technology], k,
                              CapexAmount(m, technology, k * capacity, year), OpexAmount(m, technology, k * capacity, year),
                              k * generation);
    } else {
      assert CalculateLcoe(m, technology, k * capacity, k * generation, year).Err?;
    }
  }

  // ---------------------------------------------------------------------
  // Net present value, payback

  /** `sum(cf / b ** (t - year) for t, cf in enumerate(flows, start=start))`:
      flow i is discounted by its distance from `year`. A zero base raised to
      a positive power is a zero divisor. */
  function NpvTerms(flows: seq<real>, b: real, start: int, year: int): (r: Result<real>)
    requires start >= year
  {
    if |flows| == 0 then Ok(0.0)
    else
      var n := |flows| - 1;
      match NpvTerms(flows[..n], b, start, year)
      case Err(e) => Err(e)
      case Ok(s) =>
        var d := Pow(b, start + n - year);
        if d == 0.0 then Err(ZeroDivisionError) else Ok(s + flows[n] / d)
  }

  function CalculateNpv(m: Model, flows: seq<real>, year: int): (r: Result<real>)
    ensures r.Err? <==> 1.0 + m.config.discountRate == 0.0 && |flows| >= 2
    ensures r.Err? ==> r.error == ZeroDivisionError
    ensures |flows| == 0 ==> r == Ok(0.0)
  {
    NpvErrors(flows, 1.0 + m.config.discountRate, year);
    NpvTerms(flows, 1.0 + m.config.discountRate, year, year)
  }

  lemma {:induction false} NpvErrors(flows: seq<real>, b: real, year: int)
    ensures NpvTerms(flows, b, year, year).Err? <==> b == 0.0 && |flows| >= 2
    ensures NpvTerms(flows, b, year, year).Err? ==> NpvTerms(flows, b, year, year).error == ZeroDivisionError
  {
    if |flows| > 0 {
      var n := |flows| - 1;
      NpvErrors(flows[..n], b, year);
      if b != 0.0 {
        assert Pow(b, year + n - year) != 0.0;
      } else if n >= 1 {
        assert Pow(b, n) == b * Pow(b, n - 1);
      }
    }
  }

  /** The `year` argument only fixes where the enumeration starts, so the
      value is the same for every year. */
  lemma {:induction false} NpvIgnoresYear(m: Model, flows: seq<real>, y1: int, y2: int)
    ensures CalculateNpv(m, flows, y1) == CalculateNpv(m, flows, y2)
  {
    NpvShift(flows, 1.0 + m.config.discountRate, y1, y2);
  }

  lemma {:induction false} NpvShift(flows: seq<real>, b: real, y1: int, y2: int)
    ensures NpvTerms(flows, b, y1, y1) == NpvTerms(flows, b, y2, y2)
  {
    if |flows| > 0 {
      var n := |flows| - 1;
      NpvShift(flows[..n], b, y1, y2);
      assert y1 + n - y1 == y2 + n - y2;
    }
  }

  /** An investment of `capex` followed by L equal yearly flows is worth
      -capex plus the discounted flows. */
  lemma {:induction false} NpvOfInvestment(capex: real, flow: real, b: real, n: nat, year: int)
    requires b != 0.0
    ensures NpvTerms(InvestmentFlows(capex, flow, n), b, year, year) == Ok(-capex + DiscountedSum(flow, b, n))
  {
    var s := InvestmentFlows(capex, flow, n);
    if n == 0 {
      assert s[..0] == [];
      assert Pow(b, 0) == 1.0;
    } else {
      assert s[..n] == InvestmentFlows(capex, flow, n - 1);
      NpvOfInvestment(capex, flow, b, n - 1, year);
      assert year + n - year == n;
    }
  }

  /** `[-capex] + [flow] * n`. */
  function InvestmentFlows(capex: real, flow: real, n: nat): (s: seq<real>)
    ensures |s| == n + 1 && s[0] == -capex
    ensures forall i :: 1 <= i <= n ==> s[i] == flow
  {
    [-capex] + Repeat(flow, n)
  }

  /** Payback period: a whole number of years, or infinity. */
  datatype Payback = Years(years: nat) | Never

  /** The first k >= 1 whose first k flows add up to at least the
      investment, searching from k. */
  function PaybackFrom(investment: real, flows: seq<real>, k: nat): Payback
    requires k >= 1
    decreases |flows| + 1 - k
  {
    if k > |flows| then Never
    else if Sum(flows[..k]) >= investment then Years(k)
    else PaybackFrom(investment, flows, k + 1)
  }

  function PaybackPeriod(investment: real, flows: seq<real>): Payback
  {
    PaybackFrom(investment, flows, 1)
  }

  /** The payback year is the first year by whose end the cumulative cash
      flow reaches the investment; it is infinite when no year does, the
      empty horizon included. */
  lemma {:induction false} PaybackCharacterised(investment: real, flows: seq<real>, k: nat)
    requires k >= 1
    requires forall j :: 1 <= j < k && j <= |flows| ==> Sum(flows[..j]) < investment
    ensures PaybackFrom(investment, flows, k).Years? ==>
              var y := PaybackFrom(investment, flows, k).years;
              1 <= y <= |flows| && Sum(flows[..y]) >= investment &&
              forall j :: 1 <= j < y ==> Sum(flows[..j]) < investment
    ensures PaybackFrom(investment, flows, k).Never? <==>
              forall j :: 1 <= j <= |flows| ==> Sum(flows[..j]) < investment
    decreases |flows| + 1 - k
  {
    if k <= |flows| && Sum(flows[..k]) < investment {
      PaybackCharacterised(investment, flows, k + 1);
    }
  }

  /** With a constant positive yearly flow, the payback year is the first
      whole number of years whose flows cover the investment. */
  lemma PaybackConstant(investment: real, flow: real, n: nat)
    requires flow > 0.0
    ensures PaybackPeriod(investment, Repeat(flow, n)).Years? ==>
              var y := PaybackPeriod(investment, Repeat(flow, n)).years;
              y <= n && y as real * flow >= investment && (y == 1 || (y - 1) as real * flow < investment)
    ensures PaybackPeriod(investment, Repeat(flow, n)).Never? <==> n == 0 || n as real * flow < investment
  {
    PaybackCharacterised(investment, Repeat(flow, n), 1);
    if PaybackPeriod(investment, Repeat(flow, n)).Years? {
      PaybackConstantYears(investment, flow, n);
    }
    PaybackConstantNever(investment, flow, n);
  }

  lemma PaybackConstantYears(investment: real, flow: real, n: nat)
    requires PaybackPeriod(investment, Repeat(flow, n)).Years?
    requires var y := PaybackPeriod(investment, Repeat(flow, n)).years;
             1 <= y <= n && Sum(Repeat(flow, n)[..y]) >= investment &&
             forall j :: 1 <= j < y ==> Sum(Repeat(flow, n)[..j]) < investment
    ensures var y := PaybackPeriod(investment, Repeat(flow, n)).years;
            y as real * flow >= investment && (y == 1 || (y - 1) as real * flow < investment)
  {
    var y := PaybackPeriod(investment, Repeat(flow, n)).years;
    RepeatPrefixSum(flow, n, y);
    if y > 1 {
      RepeatPrefixSum(flow, n, y - 1);
    }
  }

  lemma PaybackConstantNever(investment: real, flow: real, n: nat)
    requires flow > 0.0
    requires PaybackPeriod(investment, Repeat(flow, n)).Never? <==>
             forall j :: 1 <= j <= n ==> Sum(Repeat(flow, n)[..j]) < investment
    ensures PaybackPeriod(investment, Repeat(flow, n)).Never? <==> n == 0 || n as real * flow < investment
  {
    if n > 0 {
      RepeatPrefixSum(flow, n, n);
      if n as real * flow < investment {
        ConstantFlowsFallShort(investment, flow, n);
      }
    }
  }

  lemma RepeatPrefixSum(flow: real, n: nat, j: nat)
    requires j <= n
    ensures Sum(Repeat(flow, n)[..j]) == j as real * flow
  {
    assert Repeat(flow, n)[..j] == Repeat(flow, j);
    SumRepeat(flow, j);
  }

  lemma ConstantFlowsFallShort(investment: real, flow: real, n: nat)
    requires flow > 0.0 && n as real * flow < investment
    ensures forall j :: 1 <= j <= n ==> Sum(Repeat(flow, n)[..j]) < investment
  {
    forall j | 1 <= j <= n
      ensures Sum(Repeat(flow, n)[..j]) < investment
    {
      RepeatPrefixSum(flow, n, j);
      Shortfall(Sum(Repeat(flow, n)[..j]), j as real, n as real, flow, investment);
    }
  }

  lemma Shortfall(sum: real, j: real, n: real, flow: real, investment: real)
    requires sum == j * flow && j <= n && flow >= 0.0 && n * flow < investment
    ensures sum < investment
  {
    ScaleMonotone(j, n, flow);
  }

  /** The loop of the source: the running cash flow, returning the first
      year at which it reaches the investment. */
  method CalculatePaybackPeriod(investment: real, flows: seq<real>) returns (p: Payback)
    ensures p == PaybackPeriod(investment, flows)
    ensures p.Years? ==> 1 <= p.years <= |flows| && Sum(flows[..p.years]) >= investment &&
                         forall j :: 1 <= j < p.years ==> Sum(flows[..j]) < investment
    ensures p.Never? <==> forall j :: 1 <= j <= |flows| ==> Sum(flows[..j]) < investment
  {
    PaybackCharacterised(investment, flows, 1);
    var cumulative := 0.0;
    var i := 0;
    while i < |flows|
      invariant 0 <= i <= |flows|
      invariant cumulative == Sum(flows[..i])
      invariant PaybackFrom(investment, flows, i + 1) == PaybackPeriod(investment, flows)
    {
      assert flows[..i + 1][..i] == flows[..i];
      cumulative := cumulative + flows[i];
      if cumulative >= investment {
        return Years(i + 1);
      }
      i := i + 1;
    }
    return Never;
  }

  // ---------------------------------------------------------------------
  // Investment analysis

  datatype Investment = Investment(
    capex: real,
    annualOpex: real,
    lcoe: real,
    npv: real,
    irr: Option<real>,
    payback: Payback,
    annualRevenue: real,
    annualCashFlow: real)

  /** Electricity sold at 0.12 USD per kWh. */
  const PricePerKwh: real := 0.12

  /** Capital, O&M and levelized cost of one plant, computed in this order;
      the first error ends the computation. */
  function TechCosts(m: Model, technology: string, capacity: real, generation: real, year: int): (r: Result<(real, real, real)>)
    ensures r.Ok? <==> LcoeDefined(m, technology, generation, year)
    ensures r.Err? ==> r.error == if OpexDefined(m, technology, year)
                                  then CalculateLcoe(m, technology, capacity, generation, year).error
                                  else CalculateOpex(m, technology, capacity, year).error
    ensures r.Ok? ==> r.value == (CapexAmount(m, technology, capacity, year), OpexAmount(m, technology, capacity, year),
                                  CalculateLcoe(m, technology, capacity, generation, year).value)
  {
    match CalculateCapex(m, technology, capacity, year)
    case Err(e) => Err(e)
    case Ok(capex) =>
      match CalculateOpex(m, technology, capacity, year)
      case Err(e) => Err(e)
      case Ok(opex) =>
        match CalculateLcoe(m, technology, capacity, generation, year)
        case Err(e) => Err(e)
        case Ok(lcoe) => Ok((capex, opex, lcoe))
  }

  /** The full appraisal of one plant. `irr` is the root finder the source
      calls on the cash flows (None when it fails). Its errors are those of
      the three costs; the NPV of a plant with a levelized cost cannot fail
      after them. */
  function AnalyzeInvestment(m: Model, technology: string, capacity: real, generation: real, year: int,
                             irr: seq<real> -> Option<real>): (r: Result<Investment>)
    ensures r.Err? <==> !LcoeDefined(m, technology, generation, year)
    ensures r.Err? ==> r.error == TechCosts(m, technology, capacity, generation, year).error
    ensures r.Ok? ==>
              var v := r.value;
              var n := Lifetimes()[technology];
              v.capex == CapexAmount(m, technology, capacity, year) &&
              v.annualOpex == OpexAmount(m, technology, capacity, year) &&
              v.lcoe == CalculateLcoe(m, technology, capacity, generation, year).value &&
              v.annualRevenue == generation * 1000.0 * PricePerKwh &&
              v.annualCashFlow == v.annualRevenue - v.annualOpex &&
              v.npv == -v.capex + DiscountedSum(v.annualCashFlow, 1.0 + m.config.discountRate, n) &&
              v.irr == irr(InvestmentFlows(v.capex, v.annualCashFlow, n)) &&
              v.payback == PaybackPeriod(v.capex, Repeat(v.annualCashFlow, n))
  {
    match TechCosts(m, technology, capacity, generation, year)
    case Err(e) => Err(e)
    case Ok((capex, opex, lcoe)) =>
      var revenue := generation * 1000.0 * PricePerKwh;
      var cashFlow := revenue - opex;
      var lifetime := Lifetimes()[technology];
      var flows := InvestmentFlows(capex, cashFlow, lifetime);
      var b := 1.0 + m.config.discountRate;
      NpvOfInvestment(capex, cashFlow, b, lifetime, year);
      var npv := CalculateNpv(m, flows, year).value;
      Ok(Investment(capex, opex, lcoe, npv, irr(flows),
                    PaybackPeriod(capex, Repeat(cashFlow, lifetime)), revenue, cashFlow))
  }

  // ---------------------------------------------------------------------
  // Metrics over an energy-system run

  /** The three cost tables of one year, keyed by technology. */
  datatype YearMetrics = YearMetrics(
    investments: seq<(string, real)>,
    opex: seq<(string, real)>,
    lcoe: seq<(string, real)>)

  /** A technology of the capacity table is costed when its capacity is
      non-zero and it names a fuel of the price table. */
  predicate Costed(m: Model, technology: string, capacity: real)
  {
    capacity != 0.0 && technology in m.config.fuelPrices
  }

  /** The costed entries of a capacity table, in order. */
  function Selected(m: Model, capacities: seq<(string, real)>): (s: seq<(string, real)>)
    ensures |s| <= |capacities|
    ensures forall e :: e in s ==> e in capacities && Costed(m, e.0, e.1)
  {
    if |capacities| == 0 then []
    else
      var e := capacities[|capacities| - 1];
      Selected(m, capacities[..|capacities| - 1]) + (if Costed(m, e.0, e.1) then [e] else [])
  }

  /** `generation_by_technology.get(technology, 0)`. */
  function GenerationOf(generations: seq<(string, real)>, technology: string): real
  {
    Find(generations, technology).GetOr(0.0)
  }

  /** The position of the first entry without a levelized cost (the
      length when there is none). */
  function FirstUncostable(m: Model, selected: seq<(string, real)>, generations: seq<(string, real)>, year: int): (p: nat)
    ensures p <= |selected|
    ensures forall j :: 0 <= j < p ==> LcoeDefined(m, selected[j].0, GenerationOf(generations, selected[j].0), year)
    ensures p < |selected| ==> !LcoeDefined(m, selected[p].0, GenerationOf(generations, selected[p].0), year)
  {
    if |selected| == 0 then 0
    else
      var p := FirstUncostable(m, selected[..|selected| - 1], generations, year);
      var e := selected[|selected| - 1];
      if p < |selected| - 1 then p
      else if LcoeDefined(m, e.0, GenerationOf(generations, e.0), year) then |selected|
      else |selected| - 1
  }

  /** One year's tables, built technology by technology; the generation of a
      technology missing from the generation table is 0. */
  function YearMetricsOf(m: Model, capacities: seq<(string, real)>, generations: seq<(string, real)>,
                         year: int): Result<YearMetrics>
  {
    if |capacities| == 0 then Ok(YearMetrics([], [], []))
    else
      match YearMetricsOf(m, capacities[..|capacities| - 1], generations, year)
      case Err(e) => Err(e)
      case Ok(acc) =>
        var (technology, capacity) := capacities[|capacities| - 1];
        if !Costed(m, technology, capacity) then Ok(acc)
        else
          match TechCosts(m, technology, capacity, GenerationOf(generations, technology), year)
          case Err(e) => Err(e)
          case Ok((capex, opex, lcoe)) =>
            Ok(YearMetrics(acc.investments + [(technology, capex)], acc.opex + [(technology, opex)],
                           acc.lcoe + [(technology, lcoe)]))
  }

  /** The metrics of a run, year by year. */
  function Metrics(m: Model, results: seq<(int, EnergySystem.Summary)>): Result<seq<(int, YearMetrics)>>
  {
    if |results| == 0 then Ok([])
    else
      match Metrics(m, results[..|results| - 1])
      case Err(e) => Err(e)
      case Ok(acc) =>
        var (year, data) := results[|results| - 1];
        match YearMetricsOf(m, data.capacityByTechnology, data.generationByTechnology, year)
        case Err(e) => Err(e)
        case Ok(ym) => Ok(acc + [(year, ym)])
  }

  /** calculate_metrics: both loops of the source; an exception in any
      cost ends the whole computation. The input is a dictionary, so its
      years are distinct, as are the technologies of each capacity table. */
  method CalculateMetrics(m: Model, results: seq<(int, EnergySystem.Summary)>)
    returns (r: Result<seq<(int, YearMetrics)>>)
    ensures r == Metrics(m, results)
  {
    var out: seq<(int, YearMetrics)> := [];
    var i := 0;
    while i < |results|
      invariant 0 <= i <= |results|
      invariant Metrics(m, results[..i]) == Ok(out)
    {
      var (year, data) := results[i];
      var capacities := data.capacityByTechnology;
      var investments, opex, lcoe := [], [], [];
      var j := 0;
      while j < |capacities|
        invariant 0 <= j <= |capacities|
        invariant YearMetricsOf(m, capacities[..j], data.generationByTechnology, year) == Ok(YearMetrics(investments, opex, lcoe))
      {
        var (technology, capacity) := capacities[j];
        assert capacities[..j + 1][..j] == capacities[..j];
        if capacity == 0.0 || technology !in m.config.fuelPrices {
          j := j + 1;
          continue;
        }
        var costs := TechCosts(m, technology, capacity, GenerationOf(data.generationByTechnology, technology), year);
        if costs.Err? {
          YearErrorPersists(m, capacities, data.generationByTechnology, year, j + 1);
          assert results[..i + 1][..i] == results[..i];
          MetricsErrorPersists(m, results, i + 1);
          return Err(costs.error);
        }
        investments, opex, lcoe := investments + [(technology, costs.value.0)], opex + [(technology, costs.value.1)],
                                   lcoe + [(technology, costs.value.2)];
        j := j + 1;
      }
      assert capacities[..j] == capacities;
      assert results[..i + 1][..i] == results[..i];
      out := out + [(year, YearMetrics(investments, opex, lcoe))];
      i := i + 1;
    }
    assert results[..i] == results;
    return Ok(out);
  }

  /** Once a technology fails, the year fails with its error. */
  lemma {:induction false} YearErrorPersists(m: Model, capacities: seq<(string, real)>, generations: seq<(string, real)>,
                                             year: int, j: nat)
    requires j <= |capacities|
    requires YearMetricsOf(m, capacities[..j], generations, year).Err?
    ensures YearMetricsOf(m, capacities, generations, year) == YearMetricsOf(m, capacities[..j], generations, year)
  {
    if j < |capacities| {
      assert capacities[..|capacities| - 1][..j] == capacities[..j];
      YearErrorPersists(m, capacities[..|capacities| - 1], generations, year, j);
    } else {
      assert capacities[..j] == capacities;
    }
  }

  /** Once a year fails, the run fails with its error. */
  lemma {:induction false} MetricsErrorPersists(m: Model, results: seq<(int, EnergySystem.Summary)>, i: nat)
    requires i <= |results|
    requires Metrics(m, results[..i]).Err?
    ensures Metrics(m, results) == Metrics(m, results[..i])
  {
    if i < |results| {
      assert results[..|results| - 1][..i] == results[..i];
      MetricsErrorPersists(m, results[..|results| - 1], i);
    } else {
      assert results[..i] == results;
    }
  }

  /** A year's tables exist exactly when every costed technology has a
      levelized cost; otherwise the year fails with the error of the first
      costed technology that has none. */
  lemma {:induction false} YearMetricsDefined(m: Model, capacities: seq<(string, real)>, generations: seq<(string, real)>,
                                              year: int)
    ensures var s := Selected(m, capacities);
            YearMetricsOf(m, capacities, generations, year).Ok? <==> FirstUncostable(m, s, generations, year) == |s|
    ensures var s := Selected(m, capacities);
            var i := FirstUncostable(m, s, generations, year);
            i < |s| ==>
              YearMetricsOf(m, capacities, generations, year) ==
              Err(TechCosts(m, s[i].0, s[i].1, GenerationOf(generations, s[i].0), year).error)
  {
    if |capacities| > 0 {
      var prefix := capacities[..|capacities| - 1];
      var e := capacities[|capacities| - 1];
      YearMetricsDefined(m, prefix, generations, year);
      var s, s' := Selected(m, capacities), Selected(m, prefix);
      if Costed(m, e.0, e.1) {
        assert s == s' + [e];
        FirstUncostableAppend(m, s', e, generations, year);
        var i := FirstUncostable(m, s', generations, year);
        if i < |s'| {
          assert s[i] == s'[i];
        } else {
          assert s[|s'|] == e;
        }
      } else {
        assert s == s';
      }
    }
  }

  /** The first entry without a levelized cost after one more entry. */
  lemma FirstUncostableAppend(m: Model, s: seq<(string, real)>, e: (string, real), generations: seq<(string, real)>, year: int)
    ensures var p := FirstUncostable(m, s, generations, year);
            FirstUncostable(m, s + [e], generations, year) ==
              if p < |s| then p
              else if LcoeDefined(m, e.0, GenerationOf(generations, e.0), year) then |s| + 1
              else |s|
  {
    assert (s + [e])[..|s|] == s;
  }

  /** The three tables of a year hold, in the order of the capacity table,
      one entry per costed technology: its capital cost, its O&M cost and
      its levelized cost. */
  lemma {:induction false} YearMetricsValues(m: Model, capacities: seq<(string, real)>, generations: seq<(string, real)>,
                                             year: int)
    requires YearMetricsOf(m, capacities, generations, year).Ok?
    ensures FirstUncostable(m, Selected(m, capacities), generations, year) == |Selected(m, capacities)|
    ensures var s := Selected(m, capacities);
            var v := YearMetricsOf(m, capacities, generations, year).value;
            |v.investments| == |v.opex| == |v.lcoe| == |s| &&
            forall i :: 0 <= i < |s| ==>
              v.investments[i] == (s[i].0, CapexAmount(m, s[i].0, s[i].1, year)) &&
              v.opex[i] == (s[i].0, OpexAmount(m, s[i].0, s[i].1, year)) &&
              v.lcoe[i] == (s[i].0, CalculateLcoe(m, s[i].0, s[i].1, GenerationOf(generations, s[i].0), year).value)
  {
    YearMetricsDefined(m, capacities, generations, year);
    YearMetricsLengths(m, capacities, generations, year);
    var s := Selected(m, capacities);
    forall i | 0 <= i < |s|
      ensures var v := YearMetricsOf(m, capacities, generations, year).value;
              v.investments[i] == (s[i].0, CapexAmount(m, s[i].0, s[i].1, year)) &&
              v.opex[i] == (s[i].0, OpexAmount(m, s[i].0, s[i].1, year)) &&
              v.lcoe[i] == (s[i].0, CalculateLcoe(m, s[i].0, s[i].1, GenerationOf(generations, s[i].0), year).value)
    {
      YearMetricsAt(m, capacities, generations, year, i);
    }
  }

  /** One table entry per costed technology. */
  lemma {:induction false} YearMetricsLengths(m: Model, capacities: seq<(string, real)>, generations: seq<(string, real)>,
                                              year: int)
    requires YearMetricsOf(m, capacities, generations, year).Ok?
    ensures var v := YearMetricsOf(m, capacities, generations, year).value;
            |v.investments| == |v.opex| == |v.lcoe| == |Selected(m, capacities)|
  {
    if |capacities| > 0 {
      YearMetricsLengths(m, capacities[..|capacities| - 1], generations, year);
    }
  }

  /** Entry i of the three tables is the appraisal of costed technology i. */
  lemma {:induction false} YearMetricsAt(m: Model, capacities: seq<(string, real)>, generations: seq<(string, real)>,
                                         year: int, i: nat)
    requires YearMetricsOf(m, capacities, generations, year).Ok? && i < |Selected(m, capacities)|
    ensures var s := Selected(m, capacities);
            var v := YearMetricsOf(m, capacities, generations, year).value;
            i < |v.investments| && i < |v.opex| && i < |v.lcoe| &&
            LcoeDefined(m, s[i].0, GenerationOf(generations, s[i].0), year) &&
            v.investments[i] == (s[i].0, CapexAmount(m, s[i].0, s[i].1, year)) &&
            v.opex[i] == (s[i].0, OpexAmount(m, s[i].0, s[i].1, year)) &&
            v.lcoe[i] == (s[i].0, CalculateLcoe(m, s[i].0, s[i].1, GenerationOf(generations, s[i].0), year).value)
  {
    var prefix := capacities[..|capacities| - 1];
    var e := capacities[|capacities| - 1];
    YearMetricsLengths(m, capacities, generations, year);
    YearMetricsLengths(m, prefix, generations, year);
    var s, s' := Selected(m, capacities), Selected(m, prefix);
    var v, acc := YearMetricsOf(m, capacities, generations, year).value, YearMetricsOf(m, prefix, generations, year).value;
    if Costed(m, e.0, e.1) {
      assert s == s' + [e];
      if i < |s'| {
        YearMetricsAt(m, prefix, generations, year, i);
        assert s[i] == s'[i];
        assert v.investments[i] == acc.investments[i] && v.opex[i] == acc.opex[i] && v.lcoe[i] == acc.lcoe[i];
      } else {
        assert s[i] == e;
      }
    } else {
      assert s == s' && v == acc;
      YearMetricsAt(m, prefix, generations, year, i);
    }
  }

  /** The run has one entry per input year, in input order. */
  lemma {:induction false} MetricsYears(m: Model, results: seq<(int, EnergySystem.Summary)>)
    requires Metrics(m, results).Ok?
    ensures Keys(Metrics(m, results).value) == Keys(results)
  {
    if |results| > 0 {
      MetricsYears(m, results[..|results| - 1]);
    }
  }

  /** With the default prices the fuel table names natural_gas, coal and oil,
      none of which has a capital cost: a year's tables exist only when
      nothing is costed (then they are empty), and otherwise the first
      costed technology raises KeyError. */
  lemma DefaultPricesCostNothing(m: Model, capacities: seq<(string, real)>, generations: seq<(string, real)>, year: int)
    requires m.config == DefaultEconomicConfig()
    ensures YearMetricsOf(m, capacities, generations, year).Ok? <==> |Selected(m, capacities)| == 0
    ensures YearMetricsOf(m, capacities, generations, year).Ok? ==>
              YearMetricsOf(m, capacities, generations, year).value == YearMetrics([], [], [])
    ensures YearMetricsOf(m, capacities, generations, year).Err? ==>
              YearMetricsOf(m, capacities, generations, year).error == KeyError(Selected(m, capacities)[0].0)
  {
    var s := Selected(m, capacities);
    YearMetricsDefined(m, capacities, generations, year);
    if |s| > 0 {
      assert s[0] in s;
      FuelHasNoCost(m, s[0].0, s[0].1, GenerationOf(generations, s[0].0), year);
    } else {
      YearMetricsValues(m, capacities, generations, year);
    }
  }

  /** A fuel of the default price table has no capital cost. */
  lemma FuelHasNoCost(m: Model, fuel: string, capacity: real, generation: real, year: int)
    requires m.config == DefaultEconomicConfig() && fuel in m.config.fuelPrices
    ensures !LcoeDefined(m, fuel, generation, year)
    ensures TechCosts(m, fuel, capacity, generation, year) == Err(KeyError(fuel))
  {
    assert fuel !in BaseCosts();
  }
}
