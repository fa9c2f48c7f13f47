// The sensitivity driver: one named parameter of the settings is set to
// each candidate value in turn, the base case is re-run, and the row of the
// target year is kept.

module RunSensitivity {
  import opened Common
  import opened SimulationConfig
  import EnergySystem
  import EconomicModel
  import EnvironmentalModel
  import RunScenarios

  // ---------------------------------------------------------------------
  // The parameters that can be varied

  datatype Parameter =
    | DiscountRate
    | InflationRate
    | CarbonPrice
    | Capex(tech: string)
    | CapacityFactor(tech: string)

  /** The parameter a name selects; None for a name the driver rejects. */
  function ParseParameter(name: string): Option<Parameter>
  {
    if name == "discount_rate" then Some(DiscountRate)
    else if name == "inflation_rate" then Some(InflationRate)
    else if name == "carbon_price" then Some(CarbonPrice)
    else if name == "solar_capex" then Some(Capex("solar_pv"))
    else if name == "wind_capex" then Some(Capex("wind"))
    else if name == "biomass_capex" then Some(Capex("biomass"))
    else if name == "solar_capacity_factor" then Some(CapacityFactor("solar_pv"))
    else if name == "wind_capacity_factor" then Some(CapacityFactor("wind"))
    else if name == "biomass_capacity_factor" then Some(CapacityFactor("biomass"))
    else None
  }

  /** The nine parameters the driver knows. */
  function Recognised(): seq<Parameter>
  {
    [DiscountRate, InflationRate, CarbonPrice,
     Capex("solar_pv"), Capex("wind"), Capex("biomass"),
     CapacityFactor("solar_pv"), CapacityFactor("wind"), CapacityFactor("biomass")]
  }

  /** The name under which a parameter is selected (solar_pv goes by
      "solar"). */
  function ParameterName(p: Parameter): string
  {
    match p
    case DiscountRate => "discount_rate"
    case InflationRate => "inflation_rate"
    case CarbonPrice => "carbon_price"
    case Capex(t) =>
      if t == "solar_pv" then "solar_capex"
      else if t == "wind" then "wind_capex"
      else if t == "biomass" then "biomass_capex"
      else t + "_capex"
    case CapacityFactor(t) =>
      if t == "solar_pv" then "solar_capacity_factor"
      else if t == "wind" then "wind_capacity_factor"
      else if t == "biomass" then "biomass_capacity_factor"
      else t + "_capacity_factor"
  }

  /** Every accepted name is the name of the known parameter it selects. */
  lemma ParseParameterSound(name: string)
    requires ParseParameter(name).Some?
    ensures ParseParameter(name).value in Recognised()
    ensures ParameterName(ParseParameter(name).value) == name
  {
    if name == "discount_rate" || name == "inflation_rate" || name == "carbon_price" {
    } else if name == "solar_capex" {
      assert ParseParameter(name) == Some(Capex("solar_pv"));
    } else if name == "wind_capex" {
      assert ParseParameter(name) == Some(Capex("wind"));
    } else if name == "biomass_capex" {
      assert ParseParameter(name) == Some(Capex("biomass"));
    } else if name == "solar_capacity_factor" {
      assert ParseParameter(name) == Some(CapacityFactor("solar_pv"));
    } else if name == "wind_capacity_factor" {
      assert ParseParameter(name) == Some(CapacityFactor("wind"));
    } else {
      assert ParseParameter(name) == Some(CapacityFactor("biomass"));
    }
  }

  /** The name of each known parameter selects it. */
  lemma ParseParameterComplete(p: Parameter)
    requires p in Recognised()
    ensures ParseParameter(ParameterName(p)) == Some(p)
  {
  }

  /** The current value of a parameter; None when its technology is not in
      the table. */
  function ParameterValue(c: Settings, p: Parameter): Option<real>
  {
    match p
    case DiscountRate => Some(c.economicParams.discountRate)
    case InflationRate => Some(c.economicParams.inflationRate)
    case CarbonPrice => Some(c.economicParams.carbonPrice)
    case Capex(t) => if t in c.technologies then Some(c.technologies[t].capex) else None
    case CapacityFactor(t) => if t in c.technologies then Some(c.technologies[t].capacityFactor) else None
  }

  /** The settings with the named parameter set to the value. An unknown
      name raises ValueError; a known technology parameter whose technology
      is not in the table raises KeyError. */
  function SetParameter(c: Settings, name: string, value: real): Result<Settings>
  {
    match ParseParameter(name)
    case None => Err(ValueError("Unknown parameter: " + name))
    case Some(DiscountRate) => Ok(c.(economicParams := c.economicParams.(discountRate := value)))
    case Some(InflationRate) => Ok(c.(economicParams := c.economicParams.(inflationRate := value)))
    case Some(CarbonPrice) => Ok(c.(economicParams := c.economicParams.(carbonPrice := value)))
    case Some(Capex(t)) =>
      if t in c.technologies then Ok(c.(technologies := c.technologies[t := c.technologies[t].(capex := value)]))
      else Err(KeyError(t))
    case Some(CapacityFactor(t)) =>
      if t in c.technologies
      then Ok(c.(technologies := c.technologies[t := c.technologies[t].(capacityFactor := value)]))
      else Err(KeyError(t))
  }

  /** Setting succeeds exactly for a known name whose parameter currently
      has a value; otherwise it is ValueError for an unknown name and
      KeyError naming the missing technology. */
  lemma SetParameterDefined(c: Settings, name: string, value: real)
    ensures SetParameter(c, name, value).Ok? <==>
              ParseParameter(name).Some? && ParameterValue(c, ParseParameter(name).value).Some?
    ensures ParseParameter(name).None? ==> SetParameter(c, name, value) == Err(ValueError("Unknown parameter: " + name))
    ensures ParseParameter(name).Some? && ParameterValue(c, ParseParameter(name).value).None? ==>
              SetParameter(c, name, value) == Err(KeyError(ParseParameter(name).value.tech))
  {
  }

  /** After a successful set the parameter reads back as the value, every
      other parameter reads as before, and the horizon, targets, incentives,
      employment factors and the set of technologies are unchanged. */
  lemma SetThenGet(c: Settings, name: string, value: real)
    requires SetParameter(c, name, value).Ok?
    ensures var d := SetParameter(c, name, value).value;
            ParameterValue(d, ParseParameter(name).value) == Some(value) &&
            (forall q :: q != ParseParameter(name).value ==> ParameterValue(d, q) == ParameterValue(c, q)) &&
            d.startYear == c.startYear && d.endYear == c.endYear &&
            d.renewableTargets == c.renewableTargets && d.renewableIncentives == c.renewableIncentives &&
            d.employmentFactors == c.employmentFactors && d.technologies.Keys == c.technologies.Keys
  {
  }

  /** Setting the same parameter twice is setting it once to the second
      value. */
  lemma SetParameterTwice(c: Settings, name: string, v1: real, v2: real)
    requires SetParameter(c, name, v1).Ok?
    ensures SetParameter(SetParameter(c, name, v1).value, name, v2) == SetParameter(c, name, v2)
  {
    var d := SetParameter(c, name, v1).value;
    match ParseParameter(name).value
    case Capex(t) =>
      assert d.technologies[t := d.technologies[t].(capex := v2)] ==
             c.technologies[t := c.technologies[t].(capex := v2)];
    case CapacityFactor(t) =>
      assert d.technologies[t := d.technologies[t].(capacityFactor := v2)] ==
             c.technologies[t := c.technologies[t].(capacityFactor := v2)];
    case _ =>
  }

  // ---------------------------------------------------------------------
  // The driver

  datatype SensitivityRow = SensitivityRow(
    value: real,
    renewableShare: real,
    emissions: real,
    investment: real,
    lcoe: real,
    waterUse: real,
    landUse: real,
    employment: real)

  /** The first row of the target year; IndexError when there is none. */
  function RowOfYear(rows: seq<RunScenarios.YearRow>, targetYear: int): (r: Result<RunScenarios.YearRow>)
    ensures r.Ok? <==> exists i :: 0 <= i < |rows| && rows[i].year == targetYear
    ensures r.Err? ==> r.error == IndexError
    ensures r.Ok? ==> r.value in rows && r.value.year == targetYear
  {
    if |rows| == 0 then Err(IndexError)
    else if rows[0].year == targetYear then Ok(rows[0])
    else
      var rest := RowOfYear(rows[1..], targetYear);
      assert forall i :: 1 <= i < |rows| ==> rows[i] == rows[1..][i - 1];
      rest
  }

  /** In a run's table, whose row i is year startYear + i, the target year
      is found exactly when it lies in the horizon, at its offset. */
  lemma RowOfYearInRun(rows: seq<RunScenarios.YearRow>, startYear: int, targetYear: int)
    requires forall i :: 0 <= i < |rows| ==> rows[i].year == startYear + i
    ensures RowOfYear(rows, targetYear).Ok? <==> startYear <= targetYear < startYear + |rows|
    ensures RowOfYear(rows, targetYear).Ok? ==> RowOfYear(rows, targetYear).value == rows[targetYear - startYear]
  {
    if startYear <= targetYear < startYear + |rows| {
      RowOfYearFirst(rows, targetYear, targetYear - startYear);
    }
  }

  /** With distinct years, the row found is the one at the given position. */
  lemma {:induction false} RowOfYearFirst(rows: seq<RunScenarios.YearRow>, targetYear: int, i: nat)
    requires i < |rows| && rows[i].year == targetYear
    requires forall j :: 0 <= j < i ==> rows[j].year != targetYear
    ensures RowOfYear(rows, targetYear) == Ok(rows[i])
  {
    if i > 0 {
      RowOfYearFirst(rows[1..], targetYear, i - 1);
    }
  }

  /** The row the analysis keeps: the value it was run with, and the
      target year's share, emissions, investment, LCOE, water use, land use
      and employment. */
  function SensitivityRowOf(value: real, row: RunScenarios.YearRow): (r: SensitivityRow)
    ensures r.value == value && r.renewableShare == row.renewableShare && r.emissions == row.emissions
    ensures r.investment == row.investment && r.lcoe == row.lcoe && r.waterUse == row.waterUse
    ensures r.landUse == row.landUse && r.employment == row.employment
  {
    SensitivityRow(value, row.renewableShare, row.emissions, row.investment, row.lcoe,
                   row.waterUse, row.landUse, row.employment)
  }

  /** One step of the analysis on settings c: set the parameter to the
      value and keep the target year's row of the base-case run. A failed
      set or a failed run ends the step with its error; a target year
      without a row is IndexError. */
  function AnalysisRow(c: Settings, parameter: string, value: real, targetYear: int,
                       run: Result<seq<RunScenarios.YearRow>>): (r: Result<SensitivityRow>)
    ensures SetParameter(c, parameter, value).Err? ==> r == Err(SetParameter(c, parameter, value).error)
    ensures SetParameter(c, parameter, value).Ok? && run.Err? ==> r == Err(run.error)
    ensures r.Ok? ==> r.value.value == value && run.Ok?
  {
    match SetParameter(c, parameter, value)
    case Err(e) => Err(e)
    case Ok(_) =>
      match run
      case Err(e) => Err(e)
      case Ok(rows) =>
        match RowOfYear(rows, targetYear)
        case Err(e) => Err(e)
        case Ok(row) => Ok(SensitivityRowOf(value, row))
  }

  /** A run over the horizon from startYear to endYear: on success, one
      row per year, in order. The base case is such a run. */
  predicate RunOver(run: Result<seq<RunScenarios.YearRow>>, startYear: int, endYear: int)
  {
    run.Ok? ==> |run.value| == RunScenarios.RowCount(startYear, endYear) &&
                forall i :: 0 <= i < |run.value| ==> run.value[i].year == startYear + i
  }

  /** On a run over the horizon of c, a step succeeds exactly when the
      parameter can be set, the run succeeds and the target year lies in the
      horizon, and its row is the run's row at the target year's offset; a
      target year outside the horizon is IndexError. */
  lemma AnalysisRowOfRun(c: Settings, parameter: string, value: real, targetYear: int,
                         run: Result<seq<RunScenarios.YearRow>>)
    requires RunOver(run, c.startYear, c.endYear)
    ensures var r := AnalysisRow(c, parameter, value, targetYear, run);
            (r.Ok? <==> SetParameter(c, parameter, value).Ok? && run.Ok? && c.startYear <= targetYear <= c.endYear) &&
            (r.Ok? ==> r.value == SensitivityRowOf(value, run.value[targetYear - c.startYear])) &&
            (SetParameter(c, parameter, value).Ok? && run.Ok? && !(c.startYear <= targetYear <= c.endYear) ==>
               r == Err(IndexError))
  {
    if run.Ok? {
      RowOfYearInRun(run.value, c.startYear, targetYear);
    }
  }

  /** The generation noise of every pass: pass i of the analysis builds a
      new energy system, whose simulation draws its own noise, draws(i).
      Each draw fits the columns and every year's mask. */
  ghost predicate DrawsFit(esConfig: EnergySystem.Config, draws: nat -> int -> seq<seq<real>>)
  {
    forall i: nat, y: int :: EnergySystem.NoiseFits(esConfig, y, draws(i)(y))
  }

  /** The base cases of the first n passes: pass i runs a fresh energy
      system over the horizon of c with its own draw of noise. Each is a run
      over that horizon. */
  function PassRuns(c: Settings, esConfig: EnergySystem.Config, m: EconomicModel.Model,
                    env: EnvironmentalModel.EnvironmentalConfig, draws: nat -> int -> seq<seq<real>>, n: nat)
    : (runs: seq<Result<seq<RunScenarios.YearRow>>>)
    requires EnergySystem.ValidConfig(esConfig) && DrawsFit(esConfig, draws)
    ensures |runs| == n
    ensures forall i :: 0 <= i < n ==>
              runs[i] == RunScenarios.FreshRun(esConfig, m, env, draws(i), c.startYear, c.endYear, c.employmentFactors)
    ensures forall i :: 0 <= i < n ==> RunOver(runs[i], c.startYear, c.endYear)
  {
    seq(n, i requires 0 <= i < n =>
      RunScenarios.FreshRun(esConfig, m, env, draws(i), c.startYear, c.endYear, c.employmentFactors))
  }

  /** The analysis step of every value on the same settings c, value i
      over run i. */
  function AnalysisRows(c: Settings, parameter: string, values: seq<real>, targetYear: int,
                        runs: seq<Result<seq<RunScenarios.YearRow>>>): (s: seq<Result<SensitivityRow>>)
    requires |runs| == |values|
    ensures |s| == |values|
  {
    seq(|values|, i requires 0 <= i < |values| => AnalysisRow(c, parameter, values[i], targetYear, runs[i]))
  }

  /** The sensitivity analysis on settings c: the analysis step of every
      value, value i with the base case of pass i, a fresh energy system run
      over the horizon of c with draw i of the noise. Setting a parameter
      never moves the horizon or the employment factors, so this is also
      the base case of the settings after each set. */
  function Analysis(c: Settings, parameter: string, values: seq<real>, targetYear: int,
                    esConfig: EnergySystem.Config, m: EconomicModel.Model,
                    env: EnvironmentalModel.EnvironmentalConfig, draws: nat -> int -> seq<seq<real>>)
    : Result<seq<SensitivityRow>>
    requires EnergySystem.ValidConfig(esConfig) && DrawsFit(esConfig, draws)
  {
    Collect(AnalysisRows(c, parameter, values, targetYear, PassRuns(c, esConfig, m, env, draws, |values|)))
  }

  /** A non-empty analysis succeeds exactly when every value can be set,
      every pass's base case succeeds and the target year lies in the
      horizon. Then its row for value i is the target year's row of pass
      i's own run, labelled with the value. An unknown parameter name is
      ValueError. */
  lemma AnalysisOfBaseRuns(c: Settings, parameter: string, values: seq<real>, targetYear: int,
                           esConfig: EnergySystem.Config, m: EconomicModel.Model,
                           env: EnvironmentalModel.EnvironmentalConfig, draws: nat -> int -> seq<seq<real>>)
    requires EnergySystem.ValidConfig(esConfig) && DrawsFit(esConfig, draws)
    requires |values| > 0
    ensures var runs := PassRuns(c, esConfig, m, env, draws, |values|);
            var r := Analysis(c, parameter, values, targetYear, esConfig, m, env, draws);
            (r.Ok? <==> (forall i :: 0 <= i < |values| ==> SetParameter(c, parameter, values[i]).Ok?) &&
                        (forall i :: 0 <= i < |values| ==> runs[i].Ok?) &&
                        c.startYear <= targetYear <= c.endYear) &&
            (r.Ok? ==> |r.value| == |values| &&
                       forall i :: 0 <= i < |values| ==>
                         r.value[i] == SensitivityRowOf(values[i], runs[i].value[targetYear - c.startYear]))
    ensures ParseParameter(parameter).None? ==>
              Analysis(c, parameter, values, targetYear, esConfig, m, env, draws) == Err(ValueError("Unknown parameter: " + parameter))
  {
    var runs := PassRuns(c, esConfig, m, env, draws, |values|);
    AnalysisOfRuns(c, parameter, values, targetYear, runs);
    if ParseParameter(parameter).None? {
      AnalysisUnknownParameter(c, parameter, values, targetYear, runs);
    }
  }

  /** Over runs of the horizon of c, one per value, a non-empty analysis
      succeeds exactly when every value can be set, every run succeeds and
      the target year lies in the horizon, and then holds, for value i, run
      i's row at the target year's offset labelled with the value. */
  lemma AnalysisOfRuns(c: Settings, parameter: string, values: seq<real>, targetYear: int,
                       runs: seq<Result<seq<RunScenarios.YearRow>>>)
    requires |runs| == |values| > 0
    requires forall i :: 0 <= i < |runs| ==> RunOver(runs[i], c.startYear, c.endYear)
    ensures forall i :: 0 <= i < |runs| && runs[i].Ok? && c.startYear <= targetYear <= c.endYear ==> targetYear - c.startYear < |runs[i].value|
    ensures var r := Collect(AnalysisRows(c, parameter, values, targetYear, runs));
            (r.Ok? <==> (forall i :: 0 <= i < |values| ==> SetParameter(c, parameter, values[i]).Ok?) &&
                        (forall i :: 0 <= i < |values| ==> runs[i].Ok?) &&
                        c.startYear <= targetYear <= c.endYear) &&
            (r.Ok? ==> |r.value| == |values| &&
                       forall i :: 0 <= i < |values| ==>
                         r.value[i] == SensitivityRowOf(values[i], runs[i].value[targetYear - c.startYear]))
  {
    var steps := AnalysisRows(c, parameter, values, targetYear, runs);
    CollectAt(steps);
    forall i | 0 <= i < |values|
      ensures steps[i].Ok? <==> SetParameter(c, parameter, values[i]).Ok? && runs[i].Ok? &&
                                c.startYear <= targetYear <= c.endYear
      ensures steps[i].Ok? ==> steps[i].value == SensitivityRowOf(values[i], runs[i].value[targetYear - c.startYear])
    {
      AnalysisRowOfRun(c, parameter, values[i], targetYear, runs[i]);
    }
    if Collect(steps).Ok? {
      forall i | 0 <= i < |values|
        ensures Collect(steps).value[i] == SensitivityRowOf(values[i], runs[i].value[targetYear - c.startYear])
      {
        assert steps[i] == Ok(Collect(steps).value[i]);
      }
    } else {
      assert steps[0].Ok? ==> c.startYear <= targetYear <= c.endYear;
    }
  }

  /** An unknown parameter name fails the analysis of any non-empty list of
      values with ValueError, whatever the runs. */
  lemma AnalysisUnknownParameter(c: Settings, parameter: string, values: seq<real>, targetYear: int,
                                 runs: seq<Result<seq<RunScenarios.YearRow>>>)
    requires ParseParameter(parameter).None? && |runs| == |values| > 0
    ensures Collect(AnalysisRows(c, parameter, values, targetYear, runs)) == Err(ValueError("Unknown parameter: " + parameter))
  {
    var steps := AnalysisRows(c, parameter, values, targetYear, runs);
    SetParameterDefined(c, parameter, values[0]);
    CollectFirstError(steps, 0);
  }

  /** A step that fails after the earlier ones succeeded ends the
      collection with its error. */
  lemma StepFails<T>(steps: seq<Result<T>>, i: nat, rows: seq<T>, e: Error)
    requires i < |steps| && Collect(steps[..i]) == Ok(rows) && steps[i] == Err(e)
    ensures Collect(steps) == Err(e)
  {
    assert steps[..i + 1][..i] == steps[..i];
    CollectPrefixError(steps, i + 1);
  }

  /** A step that succeeds after the earlier ones extends the collected
      values. */
  lemma StepSucceeds<T>(steps: seq<Result<T>>, i: nat, rows: seq<T>, x: T)
    requires i < |steps| && Collect(steps[..i]) == Ok(rows) && steps[i] == Ok(x)
    ensures Collect(steps[..i + 1]) == Ok(rows + [x])
  {
    assert steps[..i + 1][..i] == steps[..i];
  }

  class SensitivityAnalysis {
    var config: Settings
    var baseResults: Option<seq<RunScenarios.YearRow>>

    constructor ()
      ensures config == DefaultSettings() && baseResults == None
    {
      config := DefaultSettings();
      baseResults := None;
    }

    /** Sets one named parameter of the settings in place; on an error the
        settings are unchanged. */
    method ModifyParameter(name: string, value: real) returns (o: Outcome)
      modifies this
      ensures baseResults == old(baseResults)
      ensures SetParameter(old(config), name, value).Ok? ==>
                o == Pass && config == SetParameter(old(config), name, value).value
      ensures SetParameter(old(config), name, value).Err? ==>
                o == Fail(SetParameter(old(config), name, value).error) && config == old(config)
    {
      var econ := config.economicParams;
      if name == "discount_rate" {
        config := config.(economicParams := econ.(discountRate := value));
      } else if name == "inflation_rate" {
        config := config.(economicParams := econ.(inflationRate := value));
      } else if name == "carbon_price" {
        config := config.(economicParams := econ.(carbonPrice := value));
      } else if name == "solar_capex" {
        o := SetCapex("solar_pv", value);
        return;
      } else if name == "wind_capex" {
        o := SetCapex("wind", value);
        return;
      } else if name == "biomass_capex" {
        o := SetCapex("biomass", value);
        return;
      } else if name == "solar_capacity_factor" {
        o := SetCapacityFactor("solar_pv", value);
        return;
      } else if name == "wind_capacity_factor" {
        o := SetCapacityFactor("wind", value);
        return;
      } else if name == "biomass_capacity_factor" {
        o := SetCapacityFactor("biomass", value);
        return;
      } else {
        return Fail(ValueError("Unknown parameter: " + name));
      }
      o := Pass;
    }

    /** `TECHNOLOGIES[tech]['capex'] = value`. */
    method SetCapex(tech: string, value: real) returns (o: Outcome)
      modifies this
      ensures baseResults == old(baseResults)
      ensures tech in old(config).technologies ==>
                o == Pass &&
                config == old(config).(technologies := old(config).technologies[tech := old(config).technologies[tech].(capex := value)])
      ensures tech !in old(config).technologies ==> o == Fail(KeyError(tech)) && config == old(config)
    {
      if tech !in config.technologies {
        return Fail(KeyError(tech));
      }
      config := config.(technologies := config.technologies[tech := config.technologies[tech].(capex := value)]);
      o := Pass;
    }

    /** `TECHNOLOGIES[tech]['capacity_factor'] = value`. */
    method SetCapacityFactor(tech: string, value: real) returns (o: Outcome)
      modifies this
      ensures baseResults == old(baseResults)
      ensures tech in old(config).technologies ==>
                o == Pass &&
                config == old(config).(technologies := old(config).technologies[tech := old(config).technologies[tech].(capacityFactor := value)])
      ensures tech !in old(config).technologies ==> o == Fail(KeyError(tech)) && config == old(config)
    {
      if tech !in config.technologies {
        return Fail(KeyError(tech));
      }
      config := config.(technologies := config.technologies[tech := config.technologies[tech].(capacityFactor := value)]);
      o := Pass;
    }

    /** Builds a fresh energy system (with its initial solar capacity), runs
        it over the settings' horizon and keeps the table as the base
        results. Of the settings only the horizon and the employment factors
        are read; the cost, energy and environmental models are the ones
        passed in. With the demand table left out and the default energy
        configuration, the modelled run fails with KeyError('capacity_factor')
        and the base results stay as they were. */
    method RunBaseCase(esConfig: EnergySystem.Config, m: EconomicModel.Model,
                       env: EnvironmentalModel.EnvironmentalConfig, irr: seq<real> -> Option<real>,
                       noise: int -> seq<seq<real>>)
      returns (r: Result<seq<RunScenarios.YearRow>>)
      requires EnergySystem.ValidConfig(esConfig)
      requires forall y :: EnergySystem.NoiseFits(esConfig, y, noise(y))
      modifies this
      ensures config == old(config)
      ensures r == RunScenarios.FreshRun(esConfig, m, env, noise, config.startYear, config.endYear,
                                         config.employmentFactors)
      ensures r.Ok? ==> baseResults == Some(r.value)
      ensures r.Err? ==> baseResults == old(baseResults)
      ensures r.Ok? ==> |r.value| == RunScenarios.RowCount(config.startYear, config.endYear) &&
                        forall i :: 0 <= i < |r.value| ==> r.value[i].year == config.startYear + i
      ensures (esConfig == EnergySystem.DefaultConfig() && config.startYear <= config.endYear) ==>
                r == Err(KeyError("capacity_factor"))
    {
      r := RunScenarios.RunFresh(esConfig, m, env, irr, noise, config.startYear, config.endYear,
                                 config.employmentFactors);
      if r.Ok? {
        baseResults := Some(r.value);
      }
      if esConfig == EnergySystem.DefaultConfig() && config.startYear <= config.endYear {
        RunScenarios.DefaultRunFails(m, env, noise, config.startYear, config.endYear, config.employmentFactors);
      }
    }

    /** One pass of the analysis loop: set the parameter on the current
        settings, re-run the base case and take the target year's row. The
        current settings agree with c on the horizon and the employment
        factors and set the parameter as c does, so the pass is the analysis
        step of the value on c with the run of a fresh system under this
        pass's draw of noise. */
    method AnalyseValue(parameter: string, value: real, targetYear: int,
                        esConfig: EnergySystem.Config, m: EconomicModel.Model,
                        env: EnvironmentalModel.EnvironmentalConfig, irr: seq<real> -> Option<real>,
                        noise: int -> seq<seq<real>>, ghost c: Settings,
                        ghost run: Result<seq<RunScenarios.YearRow>>)
      returns (r: Result<SensitivityRow>)
      requires EnergySystem.ValidConfig(esConfig)
      requires forall y :: EnergySystem.NoiseFits(esConfig, y, noise(y))
      requires config.startYear == c.startYear && config.endYear == c.endYear
      requires config.employmentFactors == c.employmentFactors
      requires SetParameter(config, parameter, value) == SetParameter(c, parameter, value)
      requires run == RunScenarios.FreshRun(esConfig, m, env, noise, c.startYear, c.endYear, c.employmentFactors)
      modifies this
      ensures r == AnalysisRow(c, parameter, value, targetYear, run)
      ensures config.startYear == c.startYear && config.endYear == c.endYear
      ensures config.employmentFactors == c.employmentFactors
      ensures SetParameter(c, parameter, value).Ok? ==> config == SetParameter(c, parameter, value).value
      ensures SetParameter(c, parameter, value).Err? ==> config == old(config)
    {
      var o := ModifyParameter(parameter, value);
      if o.Fail? {
        return Err(o.error);
      }
      SetThenGet(old(config), parameter, value);
      var df := RunBaseCase(esConfig, m, env, irr, noise);
      if df.Err? {
        return Err(df.error);
      }
      var yearRow := RowOfYear(df.value, targetYear);
      if yearRow.Err? {
        return Err(yearRow.error);
      }
      r := Ok(SensitivityRowOf(value, yearRow.value));
    }

    /** Pass i of the analysis loop on the settings c it started from: the
        settings hold c with the value before i set, and the rows so far are
        the analysis of the values before i. The pass runs a fresh system
        with draw i of the noise. A failure is the failure of the whole
        analysis; otherwise the row extends the rows so far and the settings
        hold c with value i set. */
    method AnalyseStep(parameter: string, values: seq<real>, i: int, targetYear: int,
                       esConfig: EnergySystem.Config, m: EconomicModel.Model,
                       env: EnvironmentalModel.EnvironmentalConfig, irr: seq<real> -> Option<real>,
                       draws: nat -> int -> seq<seq<real>>, ghost c: Settings,
                       ghost runs: seq<Result<seq<RunScenarios.YearRow>>>,
                       ghost steps: seq<Result<SensitivityRow>>, ghost rows: seq<SensitivityRow>)
      returns (r: Result<SensitivityRow>)
      requires EnergySystem.ValidConfig(esConfig) && DrawsFit(esConfig, draws)
      requires runs == PassRuns(c, esConfig, m, env, draws, |values|)
      requires steps == AnalysisRows(c, parameter, values, targetYear, runs)
      requires 0 <= i < |values| && |rows| == i && Collect(steps[..i]) == Ok(rows)
      requires config.startYear == c.startYear && config.endYear == c.endYear
      requires config.employmentFactors == c.employmentFactors
      requires i == 0 ==> config == c
      requires i > 0 ==> SetParameter(c, parameter, values[i - 1]).Ok? &&
                         config == SetParameter(c, parameter, values[i - 1]).value
      modifies this
      ensures config.startYear == c.startYear && config.endYear == c.endYear
      ensures config.employmentFactors == c.employmentFactors
      ensures r.Err? ==> Collect(steps) == Err(r.error)
      ensures r.Err? && i == 0 && ParseParameter(parameter).None? ==>
                r.error == ValueError("Unknown parameter: " + parameter) && config == c
      ensures r.Ok? ==> Collect(steps[..i + 1]) == Ok(rows + [r.value])
      ensures r.Ok? ==> SetParameter(c, parameter, values[i]).Ok? &&
                        config == SetParameter(c, parameter, values[i]).value
      ensures r.Ok? ==> c.startYear <= targetYear <= c.endYear
    {
      assert SetParameter(config, parameter, values[i]) == SetParameter(c, parameter, values[i]) by {
        if i > 0 {
          SetParameterTwice(c, parameter, values[i - 1], values[i]);
        }
      }
      r := AnalyseValue(parameter, values[i], targetYear, esConfig, m, env, irr, draws(i), c, runs[i]);
      if r.Err? {
        SetParameterDefined(c, parameter, values[i]);
        StepFails(steps, i, rows, r.error);
        return;
      }
      AnalysisRowOfRun(c, parameter, values[i], targetYear, runs[i]);
      StepSucceeds(steps, i, rows, r.value);
    }

    /** The loop of the analysis on the settings c it starts from: the
        passes in order, stopping at the first failure. The result is the
        collection of the analysis steps; on success the settings hold the
        last value, and an unknown name leaves them as they were. */
    method Sweep(parameter: string, values: seq<real>, targetYear: int,
                 esConfig: EnergySystem.Config, m: EconomicModel.Model,
                 env: EnvironmentalModel.EnvironmentalConfig, irr: seq<real> -> Option<real>,
                 draws: nat -> int -> seq<seq<real>>, ghost c: Settings,
                 ghost runs: seq<Result<seq<RunScenarios.YearRow>>>, ghost steps: seq<Result<SensitivityRow>>)
      returns (r: Result<seq<SensitivityRow>>)
      requires EnergySystem.ValidConfig(esConfig) && DrawsFit(esConfig, draws)
      requires runs == PassRuns(c, esConfig, m, env, draws, |values|)
      requires steps == AnalysisRows(c, parameter, values, targetYear, runs)
      requires config == c
      modifies this
      ensures r == Collect(steps)
      ensures config.startYear == c.startYear && config.endYear == c.endYear
      ensures config.employmentFactors == c.employmentFactors
      ensures ParseParameter(parameter).None? ==> config == c
      ensures r.Ok? && |values| > 0 ==>
                SetParameter(c, parameter, values[|values| - 1]).Ok? &&
                config == SetParameter(c, parameter, values[|values| - 1]).value &&
                config.startYear <= targetYear <= config.endYear
    {
      var rows: seq<SensitivityRow> := [];
      var i := 0;
      while i < |values|
        invariant 0 <= i <= |values| && |rows| == i
        invariant Collect(steps[..i]) == Ok(rows)
        invariant config.startYear == c.startYear && config.endYear == c.endYear
        invariant config.employmentFactors == c.employmentFactors
        invariant i == 0 ==> config == c
        invariant i > 0 ==> SetParameter(c, parameter, values[i - 1]).Ok? &&
                            config == SetParameter(c, parameter, values[i - 1]).value
        invariant i > 0 ==> config.startYear <= targetYear <= config.endYear
      {
        var row := AnalyseStep(parameter, values, i, targetYear, esConfig, m, env, irr, draws, c, runs, steps, rows);
        if row.Err? {
          if i > 0 {
            SetParameterDefined(c, parameter, values[i - 1]);
          }
          return Err(row.error);
        }
        rows := rows + [row.value];
        i := i + 1;
      }
      if i > 0 {
        SetParameterDefined(c, parameter, values[i - 1]);
      }
      assert steps[..i] == steps;
      r := Ok(rows);
    }

    /** For each value in turn: set the parameter, re-run the base case on a
        new energy system (pass i with draw i of the noise) and keep the
        target year's row. The first failure ends the analysis with
        its error (an unknown name before anything is run, a target year
        outside the horizon as IndexError). Since setting a parameter never
        moves the horizon, each step is the analysis step of its value on
        the original settings. On success there is one row per value,
        labelled with it, and the settings keep the last value. */
    method RunSensitivityAnalysis(parameter: string, values: seq<real>, targetYear: int,
                                  esConfig: EnergySystem.Config, m: EconomicModel.Model,
                                  env: EnvironmentalModel.EnvironmentalConfig, irr: seq<real> -> Option<real>,
                                  draws: nat -> int -> seq<seq<real>>)
      returns (r: Result<seq<SensitivityRow>>)
      requires EnergySystem.ValidConfig(esConfig) && DrawsFit(esConfig, draws)
      modifies this
      ensures ParseParameter(parameter).None? && |values| > 0 ==>
                r == Err(ValueError("Unknown parameter: " + parameter)) && config == old(config)
      ensures config.startYear == old(config).startYear && config.endYear == old(config).endYear
      ensures config.employmentFactors == old(config).employmentFactors
      ensures r == Analysis(old(config), parameter, values, targetYear, esConfig, m, env, draws)
      ensures r.Ok? ==> |r.value| == |values| && forall i :: 0 <= i < |values| ==> r.value[i].value == values[i]
      ensures r.Ok? && |values| > 0 ==>
                SetParameter(old(config), parameter, values[|values| - 1]).Ok? &&
                config == SetParameter(old(config), parameter, values[|values| - 1]).value &&
                config.startYear <= targetYear <= config.endYear
    {
      ghost var runs := PassRuns(config, esConfig, m, env, draws, |values|);
      ghost var steps := AnalysisRows(config, parameter, values, targetYear, runs);
      r := Sweep(parameter, values, targetYear, esConfig, m, env, irr, draws, config, runs, steps);
      if |values| > 0 {
        AnalysisOfBaseRuns(old(config), parameter, values, targetYear, esConfig, m, env, draws);
      }
    }

    /** The analysis called without a target year: the default target is
        2050. */
    method RunSensitivityAnalysisTo2050(parameter: string, values: seq<real>,
                                        esConfig: EnergySystem.Config, m: EconomicModel.Model,
                                        env: EnvironmentalModel.EnvironmentalConfig, irr: seq<real> -> Option<real>,
                                        draws: nat -> int -> seq<seq<real>>)
      returns (r: Result<seq<SensitivityRow>>)
      requires EnergySystem.ValidConfig(esConfig) && DrawsFit(esConfig, draws)
      modifies this
      ensures r == Analysis(old(config), parameter, values, 2050, esConfig, m, env, draws)
    {
      r := RunSensitivityAnalysis(parameter, values, 2050, esConfig, m, env, irr, draws);
    }
  }
}
