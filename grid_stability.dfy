// The grid-stability calculator: power balance, frequency deviation and
// clamped voltage and reserve indices for one snapshot of generation and
// load, the same over a time profile, and reliability fractions over the
// resulting table. The model's frequency (50 Hz) and voltage (1 p.u.) are set
// once and never change, so everything here is a function of its inputs.

module GridStability {
  import opened Common

  datatype GridParameters = GridParameters(
    baseLoad: real,                   // MW
    peakLoad: real,                   // MW
    voltageLevels: seq<real>,         // kV
    transmissionLoss: real,
    spinningReserve: real,            // share of the load
    frequencyBand: (real, real),      // Hz
    voltageBand: (real, real))        // p.u.

  /** The nominal frequency, in Hz. */
  const BaseFrequency: real := 50.0

  datatype PowerFlow = PowerFlow(
    powerBalance: real,
    frequencyDeviation: real,
    voltageStability: real,
    reserveAdequacy: real)

  /** `_calculate_frequency_deviation`: the imbalance relative to the base
      load, in Hz of the nominal frequency. */
  function FrequencyDeviation(params: GridParameters, powerBalance: real): real
    requires params.baseLoad != 0.0
  {
    powerBalance / params.baseLoad * BaseFrequency
  }

  /** `_calculate_voltage_stability`: 1 when generation matches the load,
      falling with the relative mismatch, never below 0. */
  function VoltageStability(totalGeneration: real, load: real): (r: real)
    requires load != 0.0
    ensures 0.0 <= r <= 1.0
    ensures r == 1.0 <==> totalGeneration == load
  {
    Max(0.0, 1.0 - Abs(1.0 - totalGeneration / load))
  }

  /** `_calculate_reserve_adequacy`: a tenth of the generation over the
      required reserve, capped at 1. */
  function ReserveAdequacy(params: GridParameters, totalGeneration: real, load: real): (r: real)
    requires load * params.spinningReserve != 0.0
    ensures r <= 1.0
    ensures r == 1.0 <==> totalGeneration * 0.1 / (load * params.spinningReserve) >= 1.0
  {
    Min(1.0, totalGeneration * 0.1 / (load * params.spinningReserve))
  }

  /** `calculate_power_flow` on float inputs: each of the three divisions
      raises ZeroDivisionError on a zero divisor, the base load's first, then
      the load's, then the required reserve's. */
  function PowerFlowOf(params: GridParameters, generation: seq<(string, real)>, load: real): (r: Result<PowerFlow>)
    ensures r.Err? <==> params.baseLoad == 0.0 || load == 0.0 || params.spinningReserve == 0.0
    ensures r.Err? ==> r.error == ZeroDivisionError
    ensures r.Ok? ==> r.value.powerBalance == Sum(Values(generation)) - load
  {
    var totalGeneration := Sum(Values(generation));
    var balance := totalGeneration - load;
    if params.baseLoad == 0.0 || load == 0.0 || load * params.spinningReserve == 0.0 then Err(ZeroDivisionError)
    else
      Ok(PowerFlow(balance, FrequencyDeviation(params, balance),
                   VoltageStability(totalGeneration, load),
                   ReserveAdequacy(params, totalGeneration, load)))
  }

  /** The frequency deviation is the balance scaled by the nominal frequency
      over the base load, so it is 0 exactly when generation meets the load,
      and the two stability indices lie in [0, 1] and at most 1. */
  lemma PowerFlowMetrics(params: GridParameters, generation: seq<(string, real)>, load: real)
    requires PowerFlowOf(params, generation, load).Ok?
    ensures var f := PowerFlowOf(params, generation, load).value;
            f.frequencyDeviation * params.baseLoad == f.powerBalance * BaseFrequency &&
            (f.frequencyDeviation == 0.0 <==> Sum(Values(generation)) == load) &&
            0.0 <= f.voltageStability <= 1.0 && f.reserveAdequacy <= 1.0
  {
    var f := PowerFlowOf(params, generation, load).value;
    assert f.powerBalance / params.baseLoad * params.baseLoad == f.powerBalance;
  }

  datatype StabilityRow = StabilityRow(timestamp: int, flow: PowerFlow)

  /** One generation snapshot per timestamp, generators by name. */
  type GenerationProfile = seq<(int, seq<(string, real)>)>

  /** `analyze_stability`: the power flow of every snapshot against the load
      found at its timestamp (a missing one raises KeyError); the first
      failing snapshot decides the error. */
  function AnalyzeStability(params: GridParameters, profile: GenerationProfile, loadProfile: seq<(int, real)>)
    : (r: Result<seq<StabilityRow>>)
  {
    if |profile| == 0 then Ok([])
    else
      var n := |profile| - 1;
      var (t, generation) := profile[n];
      match AnalyzeStability(params, profile[..n], loadProfile)
      case Err(e) => Err(e)
      case Ok(rows) =>
        match Find(loadProfile, t)
        case None => Err(RowKeyError(t))
        case Some(load) =>
          match PowerFlowOf(params, generation, load)
          case Err(e) => Err(e)
          case Ok(flow) => Ok(rows + [StabilityRow(t, flow)])
  }

  /** One row per snapshot, in order, each the power flow at its load. */
  lemma {:induction false} AnalyzeStabilityRows(params: GridParameters, profile: GenerationProfile,
                                                loadProfile: seq<(int, real)>)
    ensures var r := AnalyzeStability(params, profile, loadProfile);
            r.Ok? ==> |r.value| == |profile| &&
                      forall i :: 0 <= i < |profile| ==>
                        r.value[i].timestamp == profile[i].0 &&
                        Find(loadProfile, profile[i].0).Some? &&
                        PowerFlowOf(params, profile[i].1, Find(loadProfile, profile[i].0).value) == Ok(r.value[i].flow)
  {
    if |profile| > 0 {
      var n := |profile| - 1;
      AnalyzeStabilityRows(params, profile[..n], loadProfile);
      assert forall i :: 0 <= i < n ==> profile[..n][i] == profile[i];
    }
  }

  /** With no zero divisor, the table fails exactly when some snapshot's
      timestamp has no load. */
  lemma {:induction false} AnalyzeStabilityFails(params: GridParameters, profile: GenerationProfile,
                                                 loadProfile: seq<(int, real)>)
    requires params.baseLoad != 0.0 && params.spinningReserve != 0.0
    requires forall i :: 0 <= i < |loadProfile| ==> loadProfile[i].1 != 0.0
    ensures AnalyzeStability(params, profile, loadProfile).Ok? <==>
            forall i :: 0 <= i < |profile| ==> profile[i].0 in Keys(loadProfile)
  {
    if |profile| > 0 {
      var n := |profile| - 1;
      AnalyzeStabilityFails(params, profile[..n], loadProfile);
      assert forall i :: 0 <= i < n ==> profile[..n][i] == profile[i];
      FindPresent(loadProfile, profile[n].0);
    }
  }

  datatype ReliabilityMetrics = ReliabilityMetrics(
    frequencyStability: real,
    voltageStability: real,
    reserveAdequacy: real,
    systemReliability: real)

  /** The voltage threshold (80%) and the reserve threshold (90%). */
  const VoltageThreshold: real := 0.8
  const ReserveThreshold: real := 0.9

  /** A row's frequency counts as stable when the given quantity lies in the
      frequency band. */
  predicate InBand(band: (real, real), x: real)
  {
    band.0 <= x <= band.1
  }

  /** The share of rows whose deviation, as written, lies in the band. */
  function DeviationInBand(params: GridParameters, rows: seq<StabilityRow>): (r: seq<bool>)
    ensures |r| == |rows|
    ensures forall i :: 0 <= i < |rows| ==> (r[i] <==> InBand(params.frequencyBand, rows[i].flow.frequencyDeviation))
  {
    seq(|rows|, i requires 0 <= i < |rows| => InBand(params.frequencyBand, rows[i].flow.frequencyDeviation))
  }

  /** The share of rows whose frequency, nominal plus deviation, lies in the
      band. */
  function FrequencyInBand(params: GridParameters, rows: seq<StabilityRow>): (r: seq<bool>)
    ensures |r| == |rows|
    ensures forall i :: 0 <= i < |rows| ==>
              (r[i] <==> InBand(params.frequencyBand, BaseFrequency + rows[i].flow.frequencyDeviation))
  {
    seq(|rows|, i requires 0 <= i < |rows| => InBand(params.frequencyBand, BaseFrequency + rows[i].flow.frequencyDeviation))
  }

  function VoltageStable(rows: seq<StabilityRow>): (r: seq<bool>)
    ensures |r| == |rows|
    ensures forall i :: 0 <= i < |rows| ==> (r[i] <==> rows[i].flow.voltageStability >= VoltageThreshold)
  {
    seq(|rows|, i requires 0 <= i < |rows| => rows[i].flow.voltageStability >= VoltageThreshold)
  }

  function ReserveAdequate(rows: seq<StabilityRow>): (r: seq<bool>)
    ensures |r| == |rows|
    ensures forall i :: 0 <= i < |rows| ==> (r[i] <==> rows[i].flow.reserveAdequacy >= ReserveThreshold)
  {
    seq(|rows|, i requires 0 <= i < |rows| => rows[i].flow.reserveAdequacy >= ReserveThreshold)
  }

  /** The frequency fraction of the given flags, the voltage and reserve
      fractions, and their mean. A stability table without rows is the frame
      of an empty record list, which has no columns, so the first column
      read, `frequency_deviation`, raises KeyError. */
  function Reliability(rows: seq<StabilityRow>, frequency: seq<bool>): Result<ReliabilityMetrics>
    requires |frequency| == |rows|
  {
    if |rows| == 0 then Err(KeyError("frequency_deviation"))
    else
      var f := Fraction(frequency).value;
      var v := Fraction(VoltageStable(rows)).value;
      var a := Fraction(ReserveAdequate(rows)).value;
      Ok(ReliabilityMetrics(f, v, a, (f + v + a) / 3.0))
  }

  /** `calculate_reliability_metrics` as written: the frequency deviation is
      compared with the frequency band itself. */
  function ReliabilityMetricsAsWritten(params: GridParameters, rows: seq<StabilityRow>): Result<ReliabilityMetrics>
  {
    Reliability(rows, DeviationInBand(params, rows))
  }

  /** `calculate_reliability_metrics` as intended: the frequency, nominal
      plus deviation, is compared with the band. */
  function ReliabilityMetricsOf(params: GridParameters, rows: seq<StabilityRow>): Result<ReliabilityMetrics>
  {
    Reliability(rows, FrequencyInBand(params, rows))
  }

  /** An empty table raises KeyError at its first column read; otherwise the
      three fractions and the system index lie in [0, 1]. The same holds as
      written. */
  lemma ReliabilityBounds(params: GridParameters, rows: seq<StabilityRow>)
    ensures var m := ReliabilityMetricsOf(params, rows);
            (m.Err? <==> |rows| == 0) && (m.Err? ==> m.error == KeyError("frequency_deviation")) &&
            (m.Ok? ==>
               0.0 <= m.value.frequencyStability <= 1.0 && 0.0 <= m.value.voltageStability <= 1.0 &&
               0.0 <= m.value.reserveAdequacy <= 1.0 && 0.0 <= m.value.systemReliability <= 1.0)
    ensures var m := ReliabilityMetricsAsWritten(params, rows);
            (m.Err? <==> |rows| == 0) && (m.Err? ==> m.error == KeyError("frequency_deviation")) &&
            (m.Ok? ==> 0.0 <= m.value.frequencyStability <= 1.0 && 0.0 <= m.value.systemReliability <= 1.0)
  {
  }

  /** The default band (49.5 Hz to 50.5 Hz). */
  function DefaultFrequencyBand(): (real, real) { (49.5, 50.5) }

  /** As written, a grid in perfect balance under the default band never
      counts as frequency-stable, since its deviation of 0 Hz lies outside
      49.5..50.5. */
  lemma BalancedGridUnstableAsWritten(params: GridParameters, rows: seq<StabilityRow>)
    requires params.frequencyBand == DefaultFrequencyBand() && |rows| > 0
    requires forall i :: 0 <= i < |rows| ==> rows[i].flow.frequencyDeviation == 0.0
    ensures ReliabilityMetricsAsWritten(params, rows).Ok?
    ensures ReliabilityMetricsAsWritten(params, rows).value.frequencyStability == 0.0
  {
    var flags := DeviationInBand(params, rows);
    CountNone(flags);
  }

  /** As intended, the same balanced grid is fully frequency-stable. */
  lemma BalancedGridStable(params: GridParameters, rows: seq<StabilityRow>)
    requires params.frequencyBand == DefaultFrequencyBand() && |rows| > 0
    requires forall i :: 0 <= i < |rows| ==> rows[i].flow.frequencyDeviation == 0.0
    ensures ReliabilityMetricsOf(params, rows).Ok?
    ensures ReliabilityMetricsOf(params, rows).value.frequencyStability == 1.0
  {
    var flags := FrequencyInBand(params, rows);
    CountEvery(flags);
    var n := |flags| as real;
    assert n / n == 1.0;
  }

  /** A deviation inside the band around the nominal frequency counts as
      stable, and one outside does not. */
  lemma FrequencyStableIff(params: GridParameters, rows: seq<StabilityRow>, i: nat)
    requires i < |rows|
    ensures FrequencyInBand(params, rows)[i] <==>
            params.frequencyBand.0 - BaseFrequency <= rows[i].flow.frequencyDeviation <= params.frequencyBand.1 - BaseFrequency
  {
  }

  lemma {:induction false} CountNone(flags: seq<bool>)
    requires forall i :: 0 <= i < |flags| ==> !flags[i]
    ensures Count(flags) == 0
  {
    if |flags| > 0 {
      CountNone(flags[..|flags| - 1]);
    }
  }

  lemma {:induction false} CountEvery(flags: seq<bool>)
    requires forall i :: 0 <= i < |flags| ==> flags[i]
    ensures Count(flags) == |flags|
  {
    if |flags| > 0 {
      CountEvery(flags[..|flags| - 1]);
    }
  }
}
