// The scenario driver: three ways of editing the simulation settings, and
// the yearly loop that simulates the energy system and aggregates its
// summary into one result row per year. The loop is modelled on the
// corrected summary (EnergySystem.SummaryOf, grouping the columns) and the
// intended employment (SumEmployment): as written, get_system_summary
// raises AttributeError on every indexed year and the employment call
// raises NameError, so the source loop yields no row.

module RunScenarios {
  import opened Common
  import opened SimulationConfig
  import EnergySystem
  import EconomicModel
  import EnvironmentalModel
  import Helpers

  // ---------------------------------------------------------------------
  // Editing the settings

  /** The technologies whose costs the transition scenarios change. */
  function RenewableTechs(): seq<string>
  {
    ["solar_pv", "wind", "biomass"]
  }

  /** `capex *= factor; opex *= factor` on one row of the technology table. */
  function ScaleCost(p: TechParams, factor: real): TechParams
  {
    p.(capex := p.capex * factor, opex := p.opex * factor)
  }

  /** The technology table once the costs of each listed technology, in
      turn, are scaled; a technology missing from the table is skipped here
      (the caller stops at it). */
  function ScaledCosts(techs: map<string, TechParams>, names: seq<string>, factor: real): (r: map<string, TechParams>)
    ensures r.Keys == techs.Keys
  {
    if |names| == 0 then techs
    else
      var t := ScaledCosts(techs, names[..|names| - 1], factor);
      var n := names[|names| - 1];
      if n in t then t[n := ScaleCost(t[n], factor)] else t
  }

  /** Scaling listed, distinct technologies changes exactly their rows, and
      each by the factor. */
  lemma {:induction false} ScaledCostsAt(techs: map<string, TechParams>, names: seq<string>, factor: real, t: string)
    requires forall i, j :: 0 <= i < j < |names| ==> names[i] != names[j]
    requires t in techs
    ensures ScaledCosts(techs, names, factor)[t] == if t in names then ScaleCost(techs[t], factor) else techs[t]
  {
    if |names| > 0 {
      var init := names[..|names| - 1];
      ScaledCostsAt(techs, init, factor, t);
      if t == names[|names| - 1] {
        assert t !in init;
      } else {
        assert (t in names) == (t in init);
      }
    }
  }

  /** The position of the first listed technology missing from the table
      (the length of the list when none is). */
  function FirstAbsent(techs: map<string, TechParams>, names: seq<string>): (p: nat)
    ensures p <= |names|
    ensures forall j :: 0 <= j < p ==> names[j] in techs
    ensures p < |names| ==> names[p] !in techs
  {
    if |names| == 0 || names[0] !in techs then 0 else 1 + FirstAbsent(techs, names[1..])
  }

  lemma {:induction false} FirstAbsentIs(techs: map<string, TechParams>, names: seq<string>, i: nat)
    requires i <= |names|
    requires forall j :: 0 <= j < i ==> names[j] in techs
    requires i < |names| ==> names[i] !in techs
    ensures FirstAbsent(techs, names) == i
  {
    if i > 0 {
      FirstAbsentIs(techs, names[1..], i - 1);
    }
  }

  /** Every value of a dictionary times the factor, keys and order kept. */
  function ScaleValues(d: seq<(string, real)>, factor: real): (r: seq<(string, real)>)
    ensures |r| == |d|
    ensures forall i :: 0 <= i < |d| ==> r[i].0 == d[i].0 && r[i].1 == d[i].1 * factor
  {
    seq(|d|, i requires 0 <= i < |d| => (d[i].0, d[i].1 * factor))
  }

  /** Scaling the values keeps the keys and scales their total. */
  lemma ScaleValuesKeysAndTotal(d: seq<(string, real)>, factor: real)
    ensures Keys(ScaleValues(d, factor)) == Keys(d)
    ensures Sum(Values(ScaleValues(d, factor))) == factor * Sum(Values(d))
  {
    SumScaled(Values(d), factor, Values(ScaleValues(d, factor)));
  }

  /** A transition scenario: new targets, then the costs of the three
      renewables scaled one after the other (a missing one raises KeyError
      and ends the edit there), then every renewable incentive scaled. */
  function Transition(c: Settings, targets: seq<(int, real)>, costFactor: real, incentiveFactor: real)
    : (Settings, Outcome)
  {
    var p := FirstAbsent(c.technologies, RenewableTechs());
    var scaled := c.(renewableTargets := targets,
                     technologies := ScaledCosts(c.technologies, RenewableTechs()[..p], costFactor));
    if p < |RenewableTechs()| then (scaled, Fail(KeyError(RenewableTechs()[p])))
    else (scaled.(renewableIncentives := ScaleValues(c.renewableIncentives, incentiveFactor)), Pass)
  }

  datatype Kind = Baseline | Accelerated | Delayed

  function AcceleratedTargets(): seq<(int, real)>
  {
    [(2030, 0.25), (2041, 0.60), (2050, 1.00)]
  }

  function DelayedTargets(): seq<(int, real)>
  {
    [(2030, 0.10), (2041, 0.30), (2050, 0.80)]
  }

  /** The settings after a scenario's edit, and whether the edit raised. */
  function Modified(kind: Kind, c: Settings): (Settings, Outcome)
  {
    match kind
    case Baseline => (c, Pass)
    case Accelerated => Transition(c, AcceleratedTargets(), 0.8, 1.5)
    case Delayed => Transition(c, DelayedTargets(), 1.2, 0.8)
  }

  /** With the three renewables in the table, a transition succeeds, sets
      the targets, scales exactly the three renewables' capital and O&M
      costs, scales every incentive, and leaves everything else alone. */
  lemma TransitionEffects(c: Settings, targets: seq<(int, real)>, costFactor: real, incentiveFactor: real)
    requires forall t :: t in RenewableTechs() ==> t in c.technologies
    ensures Transition(c, targets, costFactor, incentiveFactor).1 == Pass
    ensures var d := Transition(c, targets, costFactor, incentiveFactor).0;
            d.renewableTargets == targets &&
            d.technologies.Keys == c.technologies.Keys &&
            (forall t :: t in c.technologies ==>
               d.technologies[t] == if t in RenewableTechs() then ScaleCost(c.technologies[t], costFactor)
                                    else c.technologies[t]) &&
            Keys(d.renewableIncentives) == Keys(c.renewableIncentives) &&
            (forall i :: 0 <= i < |c.renewableIncentives| ==>
               d.renewableIncentives[i].1 == c.renewableIncentives[i].1 * incentiveFactor) &&
            d.startYear == c.startYear && d.endYear == c.endYear &&
            d.economicParams == c.economicParams && d.employmentFactors == c.employmentFactors
  {
    var names := RenewableTechs();
    FirstAbsentIs(c.technologies, names, |names|);
    assert names[..|names|] == names;
    forall t | t in c.technologies
      ensures ScaledCosts(c.technologies, names, costFactor)[t] ==
              if t in names then ScaleCost(c.technologies[t], costFactor) else c.technologies[t]
    {
      ScaledCostsAt(c.technologies, names, costFactor, t);
    }
    ScaleValuesKeysAndTotal(c.renewableIncentives, incentiveFactor);
  }

  /** Without one of the renewables the edit raises KeyError naming the
      first missing one, after setting the targets; the incentives are not
      touched. */
  lemma TransitionMissingTechnology(c: Settings, targets: seq<(int, real)>, costFactor: real, incentiveFactor: real)
    requires exists t :: t in RenewableTechs() && t !in c.technologies
    ensures var r := Transition(c, targets, costFactor, incentiveFactor);
            r.1 == Fail(KeyError(RenewableTechs()[FirstAbsent(c.technologies, RenewableTechs())])) &&
            r.0.renewableTargets == targets && r.0.renewableIncentives == c.renewableIncentives
  {
  }

  /** No scenario edit touches the horizon or the employment factors, the
      only settings the run reads. */
  lemma ModifiedKeepsRunInputs(kind: Kind, c: Settings)
    ensures var d := Modified(kind, c).0;
            d.startYear == c.startYear && d.endYear == c.endYear && d.employmentFactors == c.employmentFactors
  {
  }

  /** The accelerated scenario on the default settings succeeds and puts
      solar at 640 (O&M 12), wind at 960 and biomass at 2000 USD/kW. */
  lemma DefaultAcceleratedCosts()
    ensures var r := Modified(Accelerated, DefaultSettings());
            r.1 == Pass &&
            r.0.technologies["solar_pv"].capex == 640.0 && r.0.technologies["solar_pv"].opex == 12.0 &&
            r.0.technologies["wind"].capex == 960.0 && r.0.technologies["biomass"].capex == 2000.0
  {
    var c := DefaultSettings();
    var names := RenewableTechs();
    FirstAbsentIs(c.technologies, names, 3);
    assert names[..3] == names;
    ScaledCostsAt(c.technologies, names, 0.8, "solar_pv");
    ScaledCostsAt(c.technologies, names, 0.8, "wind");
    ScaledCostsAt(c.technologies, names, 0.8, "biomass");
  }

  /** The accelerated scenario on the default settings raises the
      incentives to 15%, 22.5% and 30%. */
  lemma DefaultAcceleratedIncentives()
    ensures Modified(Accelerated, DefaultSettings()).0.renewableIncentives ==
            [("solar_pv", 0.15), ("wind", 0.225), ("biomass", 0.30)]
  {
    var c := DefaultSettings();
    FirstAbsentIs(c.technologies, RenewableTechs(), 3);
    var s := ScaleValues(c.renewableIncentives, 1.5);
    assert s[0] == ("solar_pv", 0.15) && s[1] == ("wind", 0.225) && s[2] == ("biomass", 0.30);
  }

  // ---------------------------------------------------------------------
  // One year's aggregation

  datatype YearRow = YearRow(
    year: int,
    renewableShare: real,
    totalCapacity: real,
    totalGeneration: real,
    emissions: real,
    investment: real,
    lcoe: real,
    waterUse: real,
    landUse: real,
    employment: real)

  /** Every technology with positive capacity has a levelized cost at its
      generation (0 when the summary has none for it). */
  predicate Appraisable(m: EconomicModel.Model, caps: seq<(string, real)>, gens: seq<(string, real)>, year: int)
  {
    forall i :: 0 <= i < |caps| && caps[i].1 > 0.0 ==>
      EconomicModel.LcoeDefined(m, caps[i].0, EconomicModel.GenerationOf(gens, caps[i].0), year)
  }

  /** Capital cost, summed levelized cost and number of technologies over
      those with positive capacity, in the summary's order; the first
      appraisal that fails ends the loop with its error. */
  function InvestmentSums(m: EconomicModel.Model, caps: seq<(string, real)>, gens: seq<(string, real)>, year: int)
    : Result<(real, real, nat)>
  {
    if |caps| == 0 then Ok((0.0, 0.0, 0))
    else
      match InvestmentSums(m, caps[..|caps| - 1], gens, year)
      case Err(e) => Err(e)
      case Ok(acc) =>
        var (tech, capacity) := caps[|caps| - 1];
        if capacity > 0.0 then
          match EconomicModel.TechCosts(m, tech, capacity, EconomicModel.GenerationOf(gens, tech), year)
          case Err(e) => Err(e)
          case Ok(costs) => Ok((acc.0 + costs.0, acc.1 + costs.2, acc.2 + 1))
        else Ok(acc)
  }

  /** Which technologies have positive capacity. */
  function PositiveFlags(caps: seq<(string, real)>): (s: seq<bool>)
    ensures |s| == |caps|
  {
    seq(|caps|, i requires 0 <= i < |caps| => caps[i].1 > 0.0)
  }

  /** The capital cost of each technology with positive capacity, 0 for the
      others. */
  function CapexTerms(m: EconomicModel.Model, caps: seq<(string, real)>, year: int): (s: seq<real>)
    ensures |s| == |caps|
  {
    seq(|caps|, i requires 0 <= i < |caps| =>
      if caps[i].1 > 0.0 && EconomicModel.CapexDefined(m, caps[i].0, year)
      then EconomicModel.CapexAmount(m, caps[i].0, caps[i].1, year) else 0.0)
  }

  /** The loop succeeds exactly when every technology with positive capacity
      can be appraised. */
  lemma {:induction false} InvestmentSumsDefined(m: EconomicModel.Model, caps: seq<(string, real)>,
                                                 gens: seq<(string, real)>, year: int)
    ensures InvestmentSums(m, caps, gens, year).Ok? <==> Appraisable(m, caps, gens, year)
  {
    if |caps| > 0 {
      var init := caps[..|caps| - 1];
      InvestmentSumsDefined(m, init, gens, year);
      assert forall i :: 0 <= i < |init| ==> init[i] == caps[i];
      if Appraisable(m, caps, gens, year) {
        assert Appraisable(m, init, gens, year);
      }
    }
  }

  /** On success the count is the number of technologies with positive
      capacity. */
  lemma {:induction false} InvestmentSumsCount(m: EconomicModel.Model, caps: seq<(string, real)>,
                                               gens: seq<(string, real)>, year: int)
    requires InvestmentSums(m, caps, gens, year).Ok?
    ensures InvestmentSums(m, caps, gens, year).value.2 == Count(PositiveFlags(caps))
  {
    if |caps| > 0 {
      var init := caps[..|caps| - 1];
      InvestmentSumsCount(m, init, gens, year);
      var flags := PositiveFlags(caps);
      assert flags[..|caps| - 1] == PositiveFlags(init);
      assert flags[|caps| - 1] == (caps[|caps| - 1].1 > 0.0);
    }
  }

  /** On success the investment is the sum of the capital costs of the
      technologies with positive capacity. */
  lemma {:induction false} InvestmentSumsCapex(m: EconomicModel.Model, caps: seq<(string, real)>,
                                               gens: seq<(string, real)>, year: int)
    requires InvestmentSums(m, caps, gens, year).Ok?
    ensures InvestmentSums(m, caps, gens, year).value.0 == Sum(CapexTerms(m, caps, year))
  {
    if |caps| > 0 {
      var init := caps[..|caps| - 1];
      InvestmentSumsCapex(m, init, gens, year);
      var terms := CapexTerms(m, caps, year);
      assert terms[..|caps| - 1] == CapexTerms(m, init, year);
    }
  }

  /** `total / count if count > 0 else 0`. */
  function AverageLcoe(total: real, count: nat): (r: real)
    ensures count == 0 ==> r == 0.0
  {
    if count > 0 then total / count as real else 0.0
  }

  /** Over at least one technology the average times the count is the total. */
  lemma AverageLcoeMean(total: real, count: nat)
    requires count > 0
    ensures AverageLcoe(total, count) * count as real == total
  {
  }

  /** Emissions and water use over the generation entries, and land use of
      the same technologies' capacity (0 for one without a capacity entry). */
  function EnvironmentSums(env: EnvironmentalModel.EnvironmentalConfig, caps: seq<(string, real)>,
                           gens: seq<(string, real)>): (real, real, real)
  {
    if |gens| == 0 then (0.0, 0.0, 0.0)
    else
      var acc := EnvironmentSums(env, caps, gens[..|gens| - 1]);
      var (tech, generation) := gens[|gens| - 1];
      var capacity := Find(caps, tech).GetOr(0.0);
      (acc.0 + EnvironmentalModel.CalculateEmissions(env, tech, generation),
       acc.1 + EnvironmentalModel.CalculateWaterUse(env, tech, generation),
       acc.2 + EnvironmentalModel.CalculateLandUse(env, tech, capacity))
  }

  predicate NonNegativeValues(d: seq<(string, real)>)
  {
    forall i :: 0 <= i < |d| ==> d[i].1 >= 0.0
  }

  predicate NonNegativeEnvironment(env: EnvironmentalModel.EnvironmentalConfig)
  {
    EnvironmentalModel.NonNegativeFactors(env.emissionFactors) &&
    EnvironmentalModel.NonNegativeFactors(env.waterFactors) &&
    EnvironmentalModel.NonNegativeFactors(env.landUseFactors)
  }

  /** With non-negative factors, generation and capacity, no footprint total
      is negative. */
  lemma {:induction false} EnvironmentSumsNonNegative(env: EnvironmentalModel.EnvironmentalConfig,
                                                      caps: seq<(string, real)>, gens: seq<(string, real)>)
    requires NonNegativeEnvironment(env) && NonNegativeValues(caps) && NonNegativeValues(gens)
    ensures var s := EnvironmentSums(env, caps, gens); s.0 >= 0.0 && s.1 >= 0.0 && s.2 >= 0.0
  {
    if |gens| > 0 {
      var init := gens[..|gens| - 1];
      assert NonNegativeValues(init);
      EnvironmentSumsNonNegative(env, caps, init);
      var tech := gens[|gens| - 1].0;
      FindPresent(caps, tech);
      if Find(caps, tech).Some? {
        var k :| 0 <= k < |caps| && caps[k] == (tech, Find(caps, tech).value);
      }
    }
  }

  /** A generation entry of a technology none of the three tables knows
      adds nothing to any total. */
  lemma UnknownTechnologyAddsNothing(env: EnvironmentalModel.EnvironmentalConfig, caps: seq<(string, real)>,
                                     gens: seq<(string, real)>, tech: string, generation: real)
    requires tech !in env.emissionFactors && tech !in env.waterFactors && tech !in env.landUseFactors
    ensures EnvironmentSums(env, caps, gens + [(tech, generation)]) == EnvironmentSums(env, caps, gens)
  {
    assert (gens + [(tech, generation)])[..|gens|] == gens;
  }

  /** Employment as intended: jobs per MW times each positive capacity over
      1000, with 0 for an unknown technology. */
  function Employment(caps: seq<(string, real)>, factors: map<string, real>): real
  {
    if |caps| == 0 then 0.0
    else
      var (tech, capacity) := caps[|caps| - 1];
      Employment(caps[..|caps| - 1], factors) +
      (if capacity > 0.0 then Helpers.CalculateEmployment(tech, capacity / 1000.0, factors) else 0.0)
  }

  /** With non-negative factors, employment is never negative. */
  lemma {:induction false} EmploymentNonNegative(caps: seq<(string, real)>, factors: map<string, real>)
    requires EnvironmentalModel.NonNegativeFactors(factors)
    ensures Employment(caps, factors) >= 0.0
  {
    if |caps| > 0 {
      EmploymentNonNegative(caps[..|caps| - 1], factors);
      var (tech, capacity) := caps[|caps| - 1];
      if capacity > 0.0 {
        Helpers.PerUnitIsFootprint(factors, tech, capacity / 1000.0);
      }
    }
  }

  /** Employment as written: the helper is called but never imported, so
      the first technology with positive capacity raises NameError. */
  function EmploymentAsWritten(caps: seq<(string, real)>): (r: Result<real>)
    ensures r.Ok? <==> forall i :: 0 <= i < |caps| ==> caps[i].1 <= 0.0
    ensures r.Err? ==> r.error == NameError("calculate_employment")
    ensures r.Ok? ==> r.value == 0.0
  {
    if |caps| == 0 then Ok(0.0)
    else if caps[0].1 > 0.0 then Err(NameError("calculate_employment"))
    else
      var rest := EmploymentAsWritten(caps[1..]);
      assert forall i :: 1 <= i < |caps| ==> caps[i] == caps[1..][i - 1];
      rest
  }

  /** A fleet of 100 MW of wind: the loop as written raises NameError, the
      intended one counts 0.03 jobs. */
  lemma EmploymentFinding()
    ensures EmploymentAsWritten([("wind", 100.0)]) == Err(NameError("calculate_employment"))
    ensures Employment([("wind", 100.0)], DefaultSettings().employmentFactors) == 0.03
  {
    assert [("wind", 100.0)][..0] == [];
  }

  /** Without positive capacity both versions agree on 0 jobs. */
  lemma {:induction false} EmploymentAgrees(caps: seq<(string, real)>, factors: map<string, real>)
    requires forall i :: 0 <= i < |caps| ==> caps[i].1 <= 0.0
    ensures Employment(caps, factors) == 0.0 == EmploymentAsWritten(caps).value
  {
    if |caps| > 0 {
      EmploymentAgrees(caps[..|caps| - 1], factors);
    }
  }

  /** The row of one year from the system summary: the appraisal totals and
      averaged levelized cost, the footprint totals, the intended employment
      and the plain sums of the two summary tables. */
  function YearRowOf(year: int, s: EnergySystem.Summary, m: EconomicModel.Model,
                     env: EnvironmentalModel.EnvironmentalConfig, factors: map<string, real>): (r: Result<YearRow>)
    ensures r.Ok? <==> Appraisable(m, s.capacityByTechnology, s.generationByTechnology, year)
    ensures r.Ok? ==> r.value.year == year && r.value.renewableShare == s.renewableShare &&
                      r.value.totalCapacity == Sum(Values(s.capacityByTechnology)) &&
                      r.value.totalGeneration == Sum(Values(s.generationByTechnology))
    ensures r.Ok? ==> r.value.investment == Sum(CapexTerms(m, s.capacityByTechnology, year))
    ensures r.Ok? ==> r.value.employment == Employment(s.capacityByTechnology, factors)
  {
    InvestmentSumsDefined(m, s.capacityByTechnology, s.generationByTechnology, year);
    match InvestmentSums(m, s.capacityByTechnology, s.generationByTechnology, year)
    case Err(e) => Err(e)
    case Ok(inv) =>
      InvestmentSumsCapex(m, s.capacityByTechnology, s.generationByTechnology, year);
      var footprint := EnvironmentSums(env, s.capacityByTechnology, s.generationByTechnology);
      Ok(YearRow(year, s.renewableShare, Sum(Values(s.capacityByTechnology)), Sum(Values(s.generationByTechnology)),
                 footprint.0, inv.0, AverageLcoe(inv.1, inv.2), footprint.1, footprint.2,
                 Employment(s.capacityByTechnology, factors)))
  }

  /** The row as written, where the employment loop raises. */
  function YearRowAsWritten(year: int, s: EnergySystem.Summary, m: EconomicModel.Model,
                            env: EnvironmentalModel.EnvironmentalConfig): Result<YearRow>
  {
    match InvestmentSums(m, s.capacityByTechnology, s.generationByTechnology, year)
    case Err(e) => Err(e)
    case Ok(inv) =>
      match EmploymentAsWritten(s.capacityByTechnology)
      case Err(e) => Err(e)
      case Ok(jobs) =>
        var footprint := EnvironmentSums(env, s.capacityByTechnology, s.generationByTechnology);
        Ok(YearRow(year, s.renewableShare, Sum(Values(s.capacityByTechnology)), Sum(Values(s.generationByTechnology)),
                   footprint.0, inv.0, AverageLcoe(inv.1, inv.2), footprint.1, footprint.2, jobs))
  }

  /** The two rows differ exactly in the employment step: whenever some
      technology has positive capacity and the appraisals succeed, the row
      as written is a NameError while the intended row exists; without
      positive capacity the rows are equal. */
  lemma EmploymentNameErrorFinding(year: int, s: EnergySystem.Summary, m: EconomicModel.Model,
                                   env: EnvironmentalModel.EnvironmentalConfig, factors: map<string, real>)
    requires Appraisable(m, s.capacityByTechnology, s.generationByTechnology, year)
    ensures YearRowOf(year, s, m, env, factors).Ok?
    ensures (exists i :: 0 <= i < |s.capacityByTechnology| && s.capacityByTechnology[i].1 > 0.0) ==>
              YearRowAsWritten(year, s, m, env) == Err(NameError("calculate_employment"))
    ensures (forall i :: 0 <= i < |s.capacityByTechnology| ==> s.capacityByTechnology[i].1 <= 0.0) ==>
              YearRowAsWritten(year, s, m, env) == YearRowOf(year, s, m, env, factors)
  {
    InvestmentSumsDefined(m, s.capacityByTechnology, s.generationByTechnology, year);
    if forall i :: 0 <= i < |s.capacityByTechnology| ==> s.capacityByTechnology[i].1 <= 0.0 {
      EmploymentAgrees(s.capacityByTechnology, factors);
    }
  }

  /** The investment loop of one year, proved against InvestmentSums. */
  method SumInvestments(m: EconomicModel.Model, caps: seq<(string, real)>, gens: seq<(string, real)>, year: int,
                        irr: seq<real> -> Option<real>)
    returns (r: Result<(real, real, nat)>)
    ensures r == InvestmentSums(m, caps, gens, year)
  {
    var totalInvestment, totalLcoe, count := 0.0, 0.0, 0;
    var i := 0;
    while i < |caps|
      invariant 0 <= i <= |caps|
      invariant InvestmentSums(m, caps[..i], gens, year) == Ok((totalInvestment, totalLcoe, count))
    {
      var (tech, capacity) := caps[i];
      assert caps[..i + 1][..i] == caps[..i];
      if capacity > 0.0 {
        var generation := EconomicModel.GenerationOf(gens, tech);
        var investment := EconomicModel.AnalyzeInvestment(m, tech, capacity, generation, year, irr);
        if investment.Err? {
          InvestmentErrorPersists(m, caps, gens, year, i + 1);
          assert caps[..|caps|] == caps;
          return Err(investment.error);
        }
        totalInvestment := totalInvestment + investment.value.capex;
        totalLcoe := totalLcoe + investment.value.lcoe;
        count := count + 1;
      }
      i := i + 1;
    }
    assert caps[..i] == caps;
    r := Ok((totalInvestment, totalLcoe, count));
  }

  /** Once the loop failed on a prefix, it fails with the same error on
      every longer prefix. */
  lemma {:induction false} InvestmentErrorPersists(m: EconomicModel.Model, caps: seq<(string, real)>,
                                                   gens: seq<(string, real)>, year: int, k: nat)
    requires k <= |caps| && InvestmentSums(m, caps[..k], gens, year).Err?
    ensures InvestmentSums(m, caps, gens, year) == InvestmentSums(m, caps[..k], gens, year)
    decreases |caps| - k
  {
    if k < |caps| {
      assert caps[..k + 1][..k] == caps[..k];
      InvestmentErrorPersists(m, caps, gens, year, k + 1);
    } else {
      assert caps[..k] == caps;
    }
  }

  /** The footprint loop of one year, proved against EnvironmentSums. */
  method SumFootprints(env: EnvironmentalModel.EnvironmentalConfig, caps: seq<(string, real)>,
                       gens: seq<(string, real)>)
    returns (emissions: real, waterUse: real, landUse: real)
    ensures (emissions, waterUse, landUse) == EnvironmentSums(env, caps, gens)
  {
    emissions, waterUse, landUse := 0.0, 0.0, 0.0;
    var i := 0;
    while i < |gens|
      invariant 0 <= i <= |gens|
      invariant EnvironmentSums(env, caps, gens[..i]) == (emissions, waterUse, landUse)
    {
      var (tech, generation) := gens[i];
      assert gens[..i + 1][..i] == gens[..i];
      var capacity := Find(caps, tech).GetOr(0.0);
      emissions := emissions + EnvironmentalModel.CalculateEmissions(env, tech, generation);
      waterUse := waterUse + EnvironmentalModel.CalculateWaterUse(env, tech, generation);
      landUse := landUse + EnvironmentalModel.CalculateLandUse(env, tech, capacity);
      i := i + 1;
    }
    assert gens[..i] == gens;
  }

  /** The employment loop as intended, proved against Employment. */
  method SumEmployment(caps: seq<(string, real)>, factors: map<string, real>) returns (jobs: real)
    ensures jobs == Employment(caps, factors)
  {
    jobs := 0.0;
    var i := 0;
    while i < |caps|
      invariant 0 <= i <= |caps|
      invariant Employment(caps[..i], factors) == jobs
    {
      var (tech, capacity) := caps[i];
      assert caps[..i + 1][..i] == caps[..i];
      if capacity > 0.0 {
        jobs := jobs + Helpers.CalculateEmployment(tech, capacity / 1000.0, factors);
      }
      i := i + 1;
    }
    assert caps[..i] == caps;
  }

  /** One year's row: appraisals, footprints and employment in turn. */
  method AggregateYear(year: int, s: EnergySystem.Summary, m: EconomicModel.Model,
                       env: EnvironmentalModel.EnvironmentalConfig, factors: map<string, real>,
                       irr: seq<real> -> Option<real>)
    returns (r: Result<YearRow>)
    ensures r == YearRowOf(year, s, m, env, factors)
  {
    var caps, gens := s.capacityByTechnology, s.generationByTechnology;
    var investment := SumInvestments(m, caps, gens, year, irr);
    if investment.Err? {
      return Err(investment.error);
    }
    var (totalInvestment, totalLcoe, count) := investment.value;
    var avgLcoe := AverageLcoe(totalLcoe, count);
    var emissions, waterUse, landUse := SumFootprints(env, caps, gens);
    var jobs := SumEmployment(caps, factors);
    r := Ok(YearRow(year, s.renewableShare, Sum(Values(caps)), Sum(Values(gens)),
                    emissions, totalInvestment, avgLcoe, waterUse, landUse, jobs));
  }

  // ---------------------------------------------------------------------
  // The yearly loop

  function RowCount(startYear: int, endYear: int): nat
  {
    if startYear <= endYear then endYear - startYear + 1 else 0
  }

  /** What a run needs of the system it steps: a valid configuration, both
      tables over the hourly index, and one noise draw per column and mask
      bucket for every year. */
  ghost predicate RunInputs(c: EnergySystem.Config, capacity: EnergySystem.Table, generation: EnergySystem.Table,
                      noise: int -> seq<seq<real>>)
  {
    EnergySystem.ValidConfig(c) &&
    EnergySystem.IsTable(capacity, |EnergySystem.Columns(c)|, EnergySystem.NumBuckets(c)) &&
    EnergySystem.IsTable(generation, |EnergySystem.Columns(c)|, EnergySystem.NumBuckets(c)) &&
    NoiseDrawn(c, noise)
  }

  /** One noise draw per column and mask bucket, for every year. */
  ghost predicate NoiseDrawn(c: EnergySystem.Config, noise: int -> seq<seq<real>>)
  {
    forall y :: EnergySystem.NoiseFits(c, y, noise(y))
  }

  /** Every technology of the configuration has a capacity factor, so a
      simulated year writes every column. */
  predicate Complete(c: EnergySystem.Config)
  {
    EnergySystem.FirstMissing(EnergySystem.ColumnFactors(c)) == |EnergySystem.Columns(c)|
  }

  /** The row of a year on a system with these tables: the corrected
      system summary of the year (SummaryOf), aggregated with the intended
      employment. A year outside the hourly index has no
      summary (KeyError on its December 31 row). The row's total capacity is
      the capacity installed in that row, its total generation and renewable
      share those of the year's generation. */
  function YearOutcome(c: EnergySystem.Config, capacity: EnergySystem.Table, generation: EnergySystem.Table,
                       year: int, m: EconomicModel.Model, env: EnvironmentalModel.EnvironmentalConfig,
                       factors: map<string, real>): (r: Result<YearRow>)
    requires EnergySystem.ValidConfig(c)
    requires EnergySystem.IsTable(capacity, |EnergySystem.Columns(c)|, EnergySystem.NumBuckets(c))
    requires EnergySystem.IsTable(generation, |EnergySystem.Columns(c)|, EnergySystem.NumBuckets(c))
    ensures !EnergySystem.InRange(c, year) ==> r == Err(RowKeyError(year))
    ensures r.Ok? ==> EnergySystem.InRange(c, year) && r.value.year == year
    ensures r.Ok? ==> r.value.totalCapacity == Sum(EnergySystem.RowValues(capacity, EnergySystem.YearEndRow(c, year)))
    ensures r.Ok? ==> r.value.totalGeneration == Sum(EnergySystem.YearTotals(c, generation, year))
    ensures r.Ok? ==> (r.value.renewableShare ==
      EnergySystem.ShareOf(Sum(EnergySystem.RenewableOnly(EnergySystem.Columns(c), EnergySystem.YearTotals(c, generation, year))),
                           Sum(EnergySystem.YearTotals(c, generation, year))))
  {
    match EnergySystem.SummaryOf(c, capacity, generation, year)
    case Err(e) => Err(e)
    case Ok(s) => YearRowOf(year, s, m, env, factors)
  }

  /** The yearly loop over the years from `year` to endYear on a system
      with these tables: each year simulates its generation and takes the
      row of the resulting system. The result holds the rows (or the first
      error) and the generation table the loop leaves behind. A
      configuration with a technology lacking a capacity factor fails on
      the first year, after the columns before it were simulated. The rows
      are those of the consecutive years from `year` on. */
  function YearlyRun(c: EnergySystem.Config, capacity: EnergySystem.Table, generation: EnergySystem.Table,
                     noise: int -> seq<seq<real>>, year: int, endYear: int, m: EconomicModel.Model,
                     env: EnvironmentalModel.EnvironmentalConfig, factors: map<string, real>)
    : (r: (Result<seq<YearRow>>, EnergySystem.Table))
    requires RunInputs(c, capacity, generation, noise)
    ensures EnergySystem.IsTable(r.1, |EnergySystem.Columns(c)|, EnergySystem.NumBuckets(c))
    ensures r.0.Ok? ==> |r.0.value| == RowCount(year, endYear)
    ensures year <= endYear && !Complete(c) ==> r.0 == Err(KeyError("capacity_factor"))
    ensures r.0.Ok? ==> forall i :: 0 <= i < |r.0.value| ==> r.0.value[i].year == year + i
    decreases RowCount(year, endYear), 3
  {
    if endYear < year then (Ok([]), generation) else YearStep(c, capacity, generation, noise, year, endYear, m, env, factors)
  }

  /** The first year of a yearly run and the rest after it. */
  function YearStep(c: EnergySystem.Config, capacity: EnergySystem.Table, generation: EnergySystem.Table,
                    noise: int -> seq<seq<real>>, year: int, endYear: int, m: EconomicModel.Model,
                    env: EnvironmentalModel.EnvironmentalConfig, factors: map<string, real>)
    : (r: (Result<seq<YearRow>>, EnergySystem.Table))
    requires RunInputs(c, capacity, generation, noise) && year <= endYear
    ensures EnergySystem.IsTable(r.1, |EnergySystem.Columns(c)|, EnergySystem.NumBuckets(c))
    ensures r.0.Ok? ==> |r.0.value| == RowCount(year, endYear)
    ensures !Complete(c) ==> r.0 == Err(KeyError("capacity_factor"))
    ensures r.0.Ok? ==> forall i :: 0 <= i < |r.0.value| ==> r.0.value[i].year == year + i
    decreases RowCount(year, endYear), 2
  {
    assert EnergySystem.NoiseFits(c, year, noise(year));
    SimulatedStep(c, capacity, EnergySystem.SimulatedYear(c, capacity, generation, noise(year), year),
                  noise, year, endYear, m, env, factors)
  }

  /** A year whose generation was just simulated: a technology lacking a
      capacity factor stops the run with the generation table as the
      simulation left it; otherwise the year's row and the rest follow. */
  function SimulatedStep(c: EnergySystem.Config, capacity: EnergySystem.Table, generation: EnergySystem.Table,
                         noise: int -> seq<seq<real>>, year: int, endYear: int, m: EconomicModel.Model,
                         env: EnvironmentalModel.EnvironmentalConfig, factors: map<string, real>)
    : (r: (Result<seq<YearRow>>, EnergySystem.Table))
    requires RunInputs(c, capacity, generation, noise) && year <= endYear
    ensures EnergySystem.IsTable(r.1, |EnergySystem.Columns(c)|, EnergySystem.NumBuckets(c))
    ensures r.0.Ok? ==> |r.0.value| == RowCount(year, endYear)
    ensures !Complete(c) ==> r == (Err(KeyError("capacity_factor")), generation)
    ensures r.0.Ok? ==> forall i :: 0 <= i < |r.0.value| ==> r.0.value[i].year == year + i
    decreases RowCount(year, endYear), 1
  {
    if !Complete(c) then (Err(KeyError("capacity_factor")), generation)
    else RowThenRest(c, capacity, generation, noise, year, endYear, m, env, factors)
  }

  /** The row of a year on the simulated system, followed by the rest of the
      run from the next year on. */
  function RowThenRest(c: EnergySystem.Config, capacity: EnergySystem.Table, generation: EnergySystem.Table,
                       noise: int -> seq<seq<real>>, year: int, endYear: int, m: EconomicModel.Model,
                       env: EnvironmentalModel.EnvironmentalConfig, factors: map<string, real>)
    : (r: (Result<seq<YearRow>>, EnergySystem.Table))
    requires RunInputs(c, capacity, generation, noise) && year <= endYear
    ensures EnergySystem.IsTable(r.1, |EnergySystem.Columns(c)|, EnergySystem.NumBuckets(c))
    ensures r.0.Ok? ==> |r.0.value| == RowCount(year, endYear)
    ensures r.0.Ok? ==> forall i :: 0 <= i < |r.0.value| ==> r.0.value[i].year == year + i
    decreases RowCount(year, endYear), 0
  {
    match YearOutcome(c, capacity, generation, year, m, env, factors)
    case Err(e) => (Err(e), generation)
    case Ok(row) =>
      var rest := YearlyRun(c, capacity, generation, noise, year + 1, endYear, m, env, factors);
      PrependYears(row, rest.0, year);
      (Prepend(row, rest.0), rest.1)
  }

  function Prepend(row: YearRow, rows: Result<seq<YearRow>>): Result<seq<YearRow>>
  {
    if rows.Ok? then Ok([row] + rows.value) else rows
  }

  /** The row of a year put before the rows of the following years gives
      the rows of consecutive years from it. */
  lemma PrependYears(row: YearRow, rows: Result<seq<YearRow>>, year: int)
    requires row.year == year
    requires rows.Ok? ==> forall i :: 0 <= i < |rows.value| ==> rows.value[i].year == year + 1 + i
    ensures Prepend(row, rows).Ok? ==> |Prepend(row, rows).value| == |rows.value| + 1
    ensures Prepend(row, rows).Ok? ==>
              forall i :: 0 <= i < |Prepend(row, rows).value| ==> Prepend(row, rows).value[i].year == year + i
  {
    if rows.Ok? {
      forall i | 0 <= i < |rows.value| + 1
        ensures Prepend(row, rows).value[i].year == year + i
      {
        if i > 0 {
          assert Prepend(row, rows).value[i] == rows.value[i - 1];
        }
      }
    }
  }

  /** Taking one more row moves it from the rest to the rows taken. */
  lemma JoinPrepend(rows: seq<YearRow>, row: YearRow, rest: (Result<seq<YearRow>>, EnergySystem.Table))
    ensures Join(rows, (Prepend(row, rest.0), rest.1)) == Join(rows + [row], rest)
  {
    if rest.0.Ok? {
      assert rows + ([row] + rest.0.value) == (rows + [row]) + rest.0.value;
    }
  }

  /** Rows already taken followed by the rest of a run. */
  function Join(rows: seq<YearRow>, rest: (Result<seq<YearRow>>, EnergySystem.Table))
    : (Result<seq<YearRow>>, EnergySystem.Table)
  {
    (if rest.0.Ok? then Ok(rows + rest.0.value) else rest.0, rest.1)
  }

  /** The run of a fresh energy system over the years from startYear to
      endYear: the solar seeding first (KeyError naming the first solar
      column that is missing), then the yearly rows on the seeded capacity
      and the empty generation table, each from the corrected summary
      (YearOutcome). */
  function FreshRun(c: EnergySystem.Config, m: EconomicModel.Model, env: EnvironmentalModel.EnvironmentalConfig,
                    noise: int -> seq<seq<real>>, startYear: int, endYear: int, factors: map<string, real>)
    : (r: Result<seq<YearRow>>)
    requires EnergySystem.ValidConfig(c)
    requires forall y :: EnergySystem.NoiseFits(c, y, noise(y))
    ensures r.Ok? ==> |r.value| == RowCount(startYear, endYear)
    ensures r.Ok? ==> forall i :: 0 <= i < |r.value| ==> r.value[i].year == startYear + i
    ensures EnergySystem.SeedableCount(EnergySystem.Columns(c)) < |EnergySystem.SolarDistribution()| ==>
              r == Err(KeyError(EnergySystem.SolarColumn(EnergySystem.SeedableCount(EnergySystem.Columns(c)))))
  {
    var k := EnergySystem.SeedableCount(EnergySystem.Columns(c));
    if k < |EnergySystem.SolarDistribution()| then Err(KeyError(EnergySystem.SolarColumn(k)))
    else SeededRun(c, m, env, noise, startYear, endYear, factors)
  }

  /** The yearly rows of a fresh energy system whose every solar region was
      seeded: the seeded capacity and the empty generation table. */
  function SeededRun(c: EnergySystem.Config, m: EconomicModel.Model, env: EnvironmentalModel.EnvironmentalConfig,
                     noise: int -> seq<seq<real>>, startYear: int, endYear: int, factors: map<string, real>)
    : (r: Result<seq<YearRow>>)
    requires EnergySystem.ValidConfig(c)
    requires forall y :: EnergySystem.NoiseFits(c, y, noise(y))
    requires EnergySystem.SeedableCount(EnergySystem.Columns(c)) == |EnergySystem.SolarDistribution()|
    ensures r.Ok? ==> |r.value| == RowCount(startYear, endYear)
    ensures r.Ok? ==> forall i :: 0 <= i < |r.value| ==> r.value[i].year == startYear + i
    ensures startYear <= endYear && !Complete(c) ==> r == Err(KeyError("capacity_factor"))
  {
    var names := EnergySystem.Columns(c);
    var empty := EnergySystem.EmptyTable(|names|, EnergySystem.NumBuckets(c));
    YearlyRun(c, EnergySystem.Seeded(empty, names, |EnergySystem.SolarDistribution()|), empty, noise,
              startYear, endYear, m, env, factors).0
  }

  /** With the default energy configuration every solar region is seeded,
      but battery storage has no capacity factor: with the demand table
      left out, the modelled run over a non-empty horizon fails with
      KeyError('capacity_factor'). */
  lemma DefaultRunFails(m: EconomicModel.Model, env: EnvironmentalModel.EnvironmentalConfig,
                        noise: int -> seq<seq<real>>, startYear: int, endYear: int, factors: map<string, real>)
    requires forall y :: EnergySystem.NoiseFits(EnergySystem.DefaultConfig(), y, noise(y))
    requires startYear <= endYear
    ensures FreshRun(EnergySystem.DefaultConfig(), m, env, noise, startYear, endYear, factors) ==
            Err(KeyError("capacity_factor"))
  {
    EnergySystem.DefaultSeedingSucceeds();
    EnergySystem.DefaultSimulationStopsAtBattery();
  }

  /** One pass of the yearly loop: simulate the year's generation, take the
      corrected summary (the grouping as written raises AttributeError),
      aggregate it with the intended employment. */
  method SimulateYear(es: EnergySystem.EnergySystem, m: EconomicModel.Model,
                      env: EnvironmentalModel.EnvironmentalConfig, irr: seq<real> -> Option<real>,
                      noise: seq<seq<real>>, year: int, factors: map<string, real>)
    returns (r: Result<YearRow>)
    requires es.Valid() && EnergySystem.NoiseFits(es.config, year, noise)
    modifies es
    ensures es.Valid() && es.capacity == old(es.capacity)
    ensures es.generation == EnergySystem.SimulatedYear(es.config, es.capacity, old(es.generation), noise, year)
    ensures !Complete(es.config) ==> r == Err(KeyError("capacity_factor"))
    ensures Complete(es.config) ==> r == YearOutcome(es.config, es.capacity, es.generation, year, m, env, factors)
  {
    var o := es.SimulateGeneration(year, noise);
    if o.Fail? {
      return Err(o.error);
    }
    var summary := es.GetSystemSummary(year);
    if summary.Err? {
      return Err(summary.error);
    }
    r := AggregateYear(year, summary.value, m, env, factors, irr);
  }

  /** Simulates and aggregates every year from startYear to endYear on the
      given system. `noise(y)` is the generation noise drawn for year y.
      The rows and the generation table left behind are those of
      YearlyRun. */
  method SimulateYears(es: EnergySystem.EnergySystem, m: EconomicModel.Model,
                       env: EnvironmentalModel.EnvironmentalConfig, irr: seq<real> -> Option<real>,
                       noise: int -> seq<seq<real>>, startYear: int, endYear: int, factors: map<string, real>)
    returns (r: Result<seq<YearRow>>)
    requires es.Valid() && NoiseDrawn(es.config, noise)
    modifies es
    ensures es.Valid() && es.capacity == old(es.capacity)
    ensures (r, es.generation) == YearlyRun(es.config, es.capacity, old(es.generation), noise, startYear, endYear, m, env, factors)
  {
    ghost var capacity := es.capacity;
    ghost var run := YearlyRun(es.config, capacity, es.generation, noise, startYear, endYear, m, env, factors);
    assert run.0.Ok? ==> [] + run.0.value == run.0.value;
    var rows: seq<YearRow> := [];
    var year := startYear;
    while year <= endYear
      invariant startYear <= endYear + 1 ==> startYear <= year <= endYear + 1
      invariant startYear > endYear ==> year == startYear
      invariant es.Valid() && es.capacity == capacity
      invariant run == Join(rows, YearlyRun(es.config, capacity, es.generation, noise, year, endYear, m, env, factors))
      decreases endYear - year
    {
      var row;
      row, year := RunYear(es, m, env, irr, noise, year, endYear, factors, rows, run);
      if row.Err? {
        return Err(row.error);
      }
      rows := rows + [row.value];
    }
    assert rows + [] == rows;
    r := Ok(rows);
  }

  /** One pass of the yearly loop: the year's row is the first step of the
      rest of the run, and the loop moves on to the next year. */
  method RunYear(es: EnergySystem.EnergySystem, m: EconomicModel.Model,
                 env: EnvironmentalModel.EnvironmentalConfig, irr: seq<real> -> Option<real>,
                 noise: int -> seq<seq<real>>, year: int, endYear: int, factors: map<string, real>,
                 ghost rows: seq<YearRow>, ghost run: (Result<seq<YearRow>>, EnergySystem.Table))
    returns (r: Result<YearRow>, next: int)
    requires es.Valid() && NoiseDrawn(es.config, noise) && year <= endYear
    requires run == Join(rows, YearlyRun(es.config, es.capacity, es.generation, noise, year, endYear, m, env, factors))
    modifies es
    ensures es.Valid() && es.capacity == old(es.capacity) && next == year + 1
    ensures r.Err? ==> run == (Err(r.error), es.generation)
    ensures r.Ok? ==> run == Join(rows + [r.value], YearlyRun(es.config, es.capacity, es.generation, noise, next, endYear, m, env, factors))
  {
    assert EnergySystem.NoiseFits(es.config, year, noise(year));
    r := SimulateYear(es, m, env, irr, noise(year), year, factors);
    next := year + 1;
    ghost var tail := YearlyRun(es.config, es.capacity, es.generation, noise, year + 1, endYear, m, env, factors);
    assert YearlyRun(es.config, es.capacity, old(es.generation), noise, year, endYear, m, env, factors) ==
           SimulatedStep(es.config, es.capacity, es.generation, noise, year, endYear, m, env, factors);
    if r.Ok? {
      JoinPrepend(rows, r.value, tail);
    }
  }

  /** A run on a fresh energy system: build it, seed its solar capacity,
      then simulate and aggregate every year of the horizon. */
  method RunFresh(esConfig: EnergySystem.Config, m: EconomicModel.Model, env: EnvironmentalModel.EnvironmentalConfig,
                  irr: seq<real> -> Option<real>, noise: int -> seq<seq<real>>,
                  startYear: int, endYear: int, factors: map<string, real>)
    returns (r: Result<seq<YearRow>>)
    requires EnergySystem.ValidConfig(esConfig)
    requires forall y :: EnergySystem.NoiseFits(esConfig, y, noise(y))
    ensures r == FreshRun(esConfig, m, env, noise, startYear, endYear, factors)
  {
    var es := new EnergySystem.EnergySystem(esConfig);
    var seeded := es.SetInitialCapacity();
    if seeded.Fail? {
      return Err(seeded.error);
    }
    r := SimulateYears(es, m, env, irr, noise, startYear, endYear, factors);
  }

  // ---------------------------------------------------------------------
  // Scenarios

  function ScenarioName(kind: Kind): string
  {
    match kind
    case Baseline => "Baseline"
    case Accelerated => "Accelerated Transition"
    case Delayed => "Delayed Transition"
  }

  class Scenario {
    const name: string
    const kind: Kind
    var config: Settings

    /** A scenario starts from the default settings. */
    constructor (kind: Kind)
      ensures this.kind == kind && name == ScenarioName(kind) && config == DefaultSettings()
    {
      this.kind := kind;
      name := ScenarioName(kind);
      config := DefaultSettings();
    }

    /** The scenario's edit of its settings, in place. */
    method ModifyConfig() returns (o: Outcome)
      modifies this
      ensures (config, o) == Modified(kind, old(config))
    {
      match kind
      case Baseline =>
        o := Pass;
      case Accelerated =>
        o := Transform(AcceleratedTargets(), 0.8, 1.5);
      case Delayed =>
        o := Transform(DelayedTargets(), 1.2, 0.8);
    }

    method Transform(targets: seq<(int, real)>, costFactor: real, incentiveFactor: real) returns (o: Outcome)
      modifies this
      ensures (config, o) == Transition(old(config), targets, costFactor, incentiveFactor)
    {
      config := config.(renewableTargets := targets);
      o := ScaleCosts(costFactor);
      if o.Fail? {
        return;
      }
      ScaleIncentives(incentiveFactor);
    }

    /** `TECHNOLOGIES[t]['capex'] *= f` and the same for opex, for each of
        the three renewables in turn; a missing one raises KeyError. */
    method ScaleCosts(factor: real) returns (o: Outcome)
      modifies this
      ensures var p := FirstAbsent(old(config).technologies, RenewableTechs());
              config == old(config).(technologies := ScaledCosts(old(config).technologies, RenewableTechs()[..p], factor)) &&
              o == if p < |RenewableTechs()| then Fail(KeyError(RenewableTechs()[p])) else Pass
    {
      var names := RenewableTechs();
      var techs := config.technologies;
      var i := 0;
      while i < |names|
        invariant 0 <= i <= |names|
        invariant config == old(config)
        invariant forall j :: 0 <= j < i ==> names[j] in config.technologies
        invariant techs == ScaledCosts(config.technologies, names[..i], factor)
      {
        if names[i] !in techs {
          FirstAbsentIs(config.technologies, names, i);
          config := config.(technologies := techs);
          return Fail(KeyError(names[i]));
        }
        assert names[..i + 1][..i] == names[..i];
        techs := techs[names[i] := ScaleCost(techs[names[i]], factor)];
        i := i + 1;
      }
      FirstAbsentIs(config.technologies, names, i);
      config := config.(technologies := techs);
      o := Pass;
    }

    /** `incentives[t] *= f` for every incentive, in place. */
    method ScaleIncentives(factor: real)
      modifies this
      ensures config == old(config).(renewableIncentives := ScaleValues(old(config).renewableIncentives, factor))
    {
      var d := config.renewableIncentives;
      ghost var scaled := ScaleValues(d, factor);
      var i := 0;
      while i < |d|
        invariant 0 <= i <= |d| == |scaled|
        invariant config == old(config) && scaled == ScaleValues(config.renewableIncentives, factor)
        invariant forall j :: 0 <= j < i ==> d[j] == scaled[j]
        invariant forall j :: i <= j < |d| ==> d[j] == config.renewableIncentives[j]
      {
        var (tech, incentive) := d[i];
        assert scaled[i] == (tech, incentive * factor) by {
          assert scaled[i].0 == tech && scaled[i].1 == incentive * factor;
        }
        d := d[i := (tech, incentive * factor)];
        i := i + 1;
      }
      config := config.(renewableIncentives := d);
    }

    /** Edits the settings, then builds a fresh energy system (with its
        initial solar capacity) and runs it over the settings' horizon. The
        edit reaches the run only through the horizon and the employment
        factors; the cost, energy and environmental models are the ones
        passed in. With the demand table left out and the default energy
        configuration, the modelled run fails with KeyError('capacity_factor'). */
    method Run(esConfig: EnergySystem.Config, m: EconomicModel.Model, env: EnvironmentalModel.EnvironmentalConfig,
               irr: seq<real> -> Option<real>, noise: int -> seq<seq<real>>)
      returns (r: Result<seq<YearRow>>)
      requires EnergySystem.ValidConfig(esConfig)
      requires forall y :: EnergySystem.NoiseFits(esConfig, y, noise(y))
      modifies this
      ensures (config, Modified(kind, old(config)).1) == Modified(kind, old(config))
      ensures Modified(kind, old(config)).1.Fail? ==> r == Err(Modified(kind, old(config)).1.error)
      ensures Modified(kind, old(config)).1 == Pass ==>
                r == FreshRun(esConfig, m, env, noise, config.startYear, config.endYear, config.employmentFactors)
      ensures r.Ok? ==> |r.value| == RowCount(config.startYear, config.endYear) &&
                        forall i :: 0 <= i < |r.value| ==> r.value[i].year == config.startYear + i
      ensures (esConfig == EnergySystem.DefaultConfig() && Modified(kind, old(config)).1 == Pass &&
               config.startYear <= config.endYear) ==> r == Err(KeyError("capacity_factor"))
    {
      var edit := ModifyConfig();
      if edit.Fail? {
        return Err(edit.error);
      }
      r := RunFresh(esConfig, m, env, irr, noise, config.startYear, config.endYear, config.employmentFactors);
      if esConfig == EnergySystem.DefaultConfig() && config.startYear <= config.endYear {
        DefaultRunFails(m, env, noise, config.startYear, config.endYear, config.employmentFactors);
      }
    }
  }
}
