// The demand-response calculator: clamped price and temperature factors, a
// load-reduction table per timestamp, events that record their reductions in
// a log, and program metrics over a reduction table.
//
// A time series is a sequence of (timestamp, value) pairs with timestamps in
// hours; looking up a missing timestamp raises KeyError, as indexing a
// pandas Series by label does.

module DemandResponse {
  import opened Common

  datatype DemandResponseType = PriceResponse | IncentiveBased | Emergency | DirectLoadControl

  datatype DemandResponseParameters = DemandResponseParameters(
    programType: DemandResponseType,
    participationRate: real,
    responseDelay: real,     // minutes
    duration: real,          // hours
    maxReduction: real,      // MW
    minReduction: real,      // MW
    incentiveRate: real,     // USD/kWh
    notificationTime: real)  // hours

  type Series = seq<(int, real)>

  /** `_calculate_price_elasticity`: half the relative price excess,
      clamped to [0, 1]. The prices are numpy floats, so a zero average does
      not raise: a non-negative price over it gives +inf or NaN, which the
      clamp turns into 1, and a negative one gives -inf, clamped to 0. */
  function PriceElasticity(currentPrice: real, averagePrice: real): (r: real)
    ensures 0.0 <= r <= 1.0
  {
    if averagePrice == 0.0 then (if currentPrice >= 0.0 then 1.0 else 0.0)
    else Max(0.0, Min(1.0, 0.5 * (currentPrice / averagePrice - 1.0)))
  }

  /** A price at or below a positive average gives no elasticity. */
  lemma NoElasticityAtOrBelowAverage(currentPrice: real, averagePrice: real)
    requires averagePrice > 0.0 && currentPrice <= averagePrice
    ensures PriceElasticity(currentPrice, averagePrice) == 0.0
  {
    assert currentPrice / averagePrice <= 1.0;
  }

  /** The comfort temperature, in degrees Celsius. */
  const OptimalTemperature: real := 22.0

  /** `_calculate_temperature_sensitivity`: falls linearly from 1 at the
      comfort temperature to 0 twenty degrees away, clamped to [0, 1]. */
  function TemperatureSensitivity(temperature: real): (r: real)
    ensures 0.0 <= r <= 1.0
  {
    Max(0.0, Min(1.0, 1.0 - Abs(temperature - OptimalTemperature) / 20.0))
  }

  /** Full sensitivity at the comfort temperature, none twenty degrees or
      more away from it. */
  lemma TemperatureSensitivityEnds(temperature: real)
    ensures TemperatureSensitivity(OptimalTemperature) == 1.0
    ensures Abs(temperature - OptimalTemperature) >= 20.0 ==> TemperatureSensitivity(temperature) == 0.0
  {
  }

  /** The reduction kept between the program's minimum and maximum. */
  function ClampReduction(params: DemandResponseParameters, baseReduction: real): real
  {
    Min(Max(baseReduction, params.minReduction), params.maxReduction)
  }

  lemma ClampReductionBounds(params: DemandResponseParameters, baseReduction: real)
    requires params.minReduction <= params.maxReduction
    ensures params.minReduction <= ClampReduction(params, baseReduction) <= params.maxReduction
    ensures params.minReduction <= baseReduction <= params.maxReduction ==>
              ClampReduction(params, baseReduction) == baseReduction
  {
  }

  datatype ReductionRow = ReductionRow(
    timestamp: int,
    baseLoad: real,
    price: real,
    temperature: real,
    priceElasticity: real,
    tempSensitivity: real,
    loadReduction: real,
    reducedLoad: real)

  /** The row of one base-load entry: its price and temperature looked up
      by timestamp (the price first), the elasticity against the mean of the
      whole price series. */
  function ReductionRowOf(params: DemandResponseParameters, load: (int, real), price: Series, temperature: Series)
    : (r: Result<ReductionRow>)
  {
    var t := load.0;
    match Find(price, t)
    case None => Err(RowKeyError(t))
    case Some(p) =>
      var average := Sum(Values(price)) / |price| as real;
      match Find(temperature, t)
      case None => Err(RowKeyError(t))
      case Some(temp) =>
        var elasticity := PriceElasticity(p, average);
        var sensitivity := TemperatureSensitivity(temp);
        var baseReduction := params.maxReduction * params.participationRate * elasticity * sensitivity;
        var reduction := ClampReduction(params, baseReduction);
        Ok(ReductionRow(t, load.1, p, temp, elasticity, sensitivity, reduction, load.1 - reduction))
  }

  /** `calculate_load_reduction` over the base-load entries in order; the
      first entry whose timestamp is missing from the price or the
      temperature series raises KeyError. */
  function Reductions(params: DemandResponseParameters, loads: Series, price: Series, temperature: Series)
    : Result<seq<ReductionRow>>
  {
    if |loads| == 0 then Ok([])
    else
      var n := |loads| - 1;
      match Reductions(params, loads[..n], price, temperature)
      case Err(e) => Err(e)
      case Ok(rows) =>
        match ReductionRowOf(params, loads[n], price, temperature)
        case Err(e) => Err(e)
        case Ok(row) => Ok(rows + [row])
  }

  /** What a row promises about its base-load entry. */
  predicate RowFor(params: DemandResponseParameters, load: (int, real), row: ReductionRow)
  {
    row.timestamp == load.0 && row.baseLoad == load.1 &&
    row.reducedLoad == load.1 - row.loadReduction &&
    0.0 <= row.priceElasticity <= 1.0 && 0.0 <= row.tempSensitivity <= 1.0 &&
    (params.minReduction <= params.maxReduction ==>
       params.minReduction <= row.loadReduction <= params.maxReduction)
  }

  /** A row exists exactly when both series hold the timestamp, and then it
      keeps its promises. */
  lemma ReductionRowOfSpec(params: DemandResponseParameters, load: (int, real), price: Series, temperature: Series)
    ensures ReductionRowOf(params, load, price, temperature).Ok? <==>
            load.0 in Keys(price) && load.0 in Keys(temperature)
    ensures ReductionRowOf(params, load, price, temperature).Err? ==>
            ReductionRowOf(params, load, price, temperature).error == RowKeyError(load.0)
    ensures ReductionRowOf(params, load, price, temperature).Ok? ==>
            RowFor(params, load, ReductionRowOf(params, load, price, temperature).value)
  {
    FindPresent(price, load.0);
    FindPresent(temperature, load.0);
    var r := ReductionRowOf(params, load, price, temperature);
    if r.Ok? && params.minReduction <= params.maxReduction {
      ClampReductionBounds(params, params.maxReduction * params.participationRate * r.value.priceElasticity * r.value.tempSensitivity);
    }
  }

  /** The table has one row per base-load entry, each keeping its promises,
      exactly when every timestamp is found in both series; otherwise the
      error names a missing timestamp. */
  lemma {:induction false} ReductionsSpec(params: DemandResponseParameters, loads: Series, price: Series, temperature: Series)
    ensures Reductions(params, loads, price, temperature).Ok? <==>
            forall i :: 0 <= i < |loads| ==> loads[i].0 in Keys(price) && loads[i].0 in Keys(temperature)
    ensures Reductions(params, loads, price, temperature).Err? ==>
            exists i :: 0 <= i < |loads| && Reductions(params, loads, price, temperature).error == RowKeyError(loads[i].0)
    ensures Reductions(params, loads, price, temperature).Ok? ==>
            var rows := Reductions(params, loads, price, temperature).value;
            |rows| == |loads| && forall i :: 0 <= i < |loads| ==> RowFor(params, loads[i], rows[i])
  {
    if |loads| > 0 {
      var n := |loads| - 1;
      ReductionsSpec(params, loads[..n], price, temperature);
      ReductionRowOfSpec(params, loads[n], price, temperature);
      assert forall i :: 0 <= i < n ==> loads[..n][i] == loads[i];
    }
  }

  /** Once a prefix failed, every longer prefix fails with the same error. */
  lemma {:induction false} ReductionsErrorPersists(params: DemandResponseParameters, loads: Series, price: Series,
                                                   temperature: Series, k: nat)
    requires k <= |loads| && Reductions(params, loads[..k], price, temperature).Err?
    ensures Reductions(params, loads, price, temperature) == Reductions(params, loads[..k], price, temperature)
    decreases |loads| - k
  {
    if k < |loads| {
      assert loads[..k + 1][..k] == loads[..k];
      ReductionsErrorPersists(params, loads, price, temperature, k + 1);
    } else {
      assert loads[..k] == loads;
    }
  }

  /** A series holding `x` at every timestamp of `s`, as
      `pd.Series(x, index=s.index)`. */
  function Constant(s: Series, x: real): (r: Series)
    ensures |r| == |s|
    ensures forall i :: 0 <= i < |s| ==> r[i].0 == s[i].0 && r[i].1 == x
  {
    seq(|s|, i requires 0 <= i < |s| => (s[i].0, x))
  }

  lemma {:induction false} FindConstant(s: Series, x: real, t: int)
    requires t in Keys(s)
    ensures Find(Constant(s, x), t) == Some(x)
  {
    if s[0].0 != t {
      assert Constant(s, x)[1..] == Constant(s[1..], x);
      KeysFirst(s);
      FindConstant(s[1..], x, t);
    }
  }

  lemma ConstantAverage(s: Series, x: real)
    requires |s| > 0
    ensures Sum(Values(Constant(s, x))) / |s| as real == x
  {
    assert Values(Constant(s, x)) == Repeat(x, |s|);
    SumRepeat(x, |s|);
    ScaledOver(|s| as real, x);
  }

  lemma ScaledOver(n: real, x: real)
    requires n != 0.0
    ensures n * x / n == x
  {
  }

  /** The reduction every row of an event gets: the placeholder price equals
      its own mean, so there is no elasticity and the base reduction is 0. */
  function PlaceholderReduction(params: DemandResponseParameters): real
  {
    Min(Max(0.0, params.minReduction), params.maxReduction)
  }

  /** Under the placeholder price (1.0) and temperature (25.0) every entry
      gets a row, and every reduction is the placeholder reduction. */
  lemma {:induction false} PlaceholderReductions(params: DemandResponseParameters, loads: Series, all: Series)
    requires forall i :: 0 <= i < |loads| ==> loads[i].0 in Keys(all)
    ensures var r := Reductions(params, loads, Constant(all, 1.0), Constant(all, 25.0));
            r.Ok? && |r.value| == |loads| &&
            forall i :: 0 <= i < |loads| ==> r.value[i].loadReduction == PlaceholderReduction(params)
  {
    if |loads| > 0 {
      var n := |loads| - 1;
      assert forall i :: 0 <= i < n ==> loads[..n][i] == loads[i];
      PlaceholderReductions(params, loads[..n], all);
      var t := loads[n].0;
      FindConstant(all, 1.0, t);
      FindConstant(all, 25.0, t);
      KeysNonEmpty(all, t);
      ConstantAverage(all, 1.0);
      assert PriceElasticity(1.0, 1.0) == 0.0;
    }
  }

  lemma KeysNonEmpty(s: Series, t: int)
    requires t in Keys(s)
    ensures |s| > 0
  {
  }

  /** The entries of a load profile from the start of an event to its end,
      both included, as label slicing on a sorted time index selects them. */
  function EventLoad(profile: Series, start: int, end: real): (r: Series)
    ensures forall i :: 0 <= i < |r| ==> r[i] in profile && start <= r[i].0 && r[i].0 as real <= end
  {
    if |profile| == 0 then []
    else
      var n := |profile| - 1;
      var rest := EventLoad(profile[..n], start, end);
      if start <= profile[n].0 && profile[n].0 as real <= end then rest + [profile[n]] else rest
  }

  /** Every entry inside the window is selected. */
  lemma {:induction false} EventLoadComplete(profile: Series, start: int, end: real)
    ensures forall i :: 0 <= i < |profile| && start <= profile[i].0 && profile[i].0 as real <= end ==>
              profile[i] in EventLoad(profile, start, end)
  {
    if |profile| > 0 {
      var n := |profile| - 1;
      EventLoadComplete(profile[..n], start, end);
      assert forall i :: 0 <= i < n ==> profile[..n][i] == profile[i];
    }
  }

  /** The record an event leaves in the log. */
  datatype EventRecord = EventRecord(
    startTime: int,
    endTime: real,
    duration: real,
    avgReduction: real,
    totalReduction: real)

  function LoadReductions(rows: seq<ReductionRow>): (r: seq<real>)
    ensures |r| == |rows| && forall i :: 0 <= i < |rows| ==> r[i] == rows[i].loadReduction
  {
    seq(|rows|, i requires 0 <= i < |rows| => rows[i].loadReduction)
  }

  datatype ProgramMetrics = ProgramMetrics(
    reliability: real,
    responseCompliance: real,
    totalReduction: real,
    incentiveCost: real,
    effectiveness: Option<real>,        // None: NaN or infinite
    eventCount: nat)

  function AtLeast(s: seq<real>, bound: real): (r: seq<bool>)
    ensures |r| == |s| && forall i :: 0 <= i < |s| ==> r[i] == (s[i] >= bound)
  {
    seq(|s|, i requires 0 <= i < |s| => s[i] >= bound)
  }

  function Positive(s: seq<real>): (r: seq<bool>)
    ensures |r| == |s| && forall i :: 0 <= i < |s| ==> r[i] == (s[i] > 0.0)
  {
    seq(|s|, i requires 0 <= i < |s| => s[i] > 0.0)
  }

  /** `calculate_program_metrics`: reliability is the share of rows reaching
      the minimum reduction, compliance the share with a positive one, the
      incentive cost is the total reduction at the incentive rate, and the
      effectiveness is the mean reduction over the maximum (numpy division,
      so a zero maximum gives a non-finite value rather than an error). A
      reduction table without rows is the frame of an empty record list,
      which has no columns, so reading `load_reduction` raises KeyError. */
  function ProgramMetricsOf(params: DemandResponseParameters, rows: seq<ReductionRow>, eventCount: nat)
    : (r: Result<ProgramMetrics>)
    ensures r.Err? <==> |rows| == 0
    ensures r.Err? ==> r.error == KeyError("load_reduction")
    ensures r.Ok? ==> 0.0 <= r.value.reliability <= 1.0 && 0.0 <= r.value.responseCompliance <= 1.0
    ensures r.Ok? ==> r.value.incentiveCost == r.value.totalReduction * params.incentiveRate
    ensures r.Ok? ==> r.value.totalReduction == Sum(LoadReductions(rows))
    ensures r.Ok? ==> (r.value.effectiveness.Some? <==> params.maxReduction != 0.0)
    ensures r.Ok? ==> r.value.eventCount == eventCount
  {
    if |rows| == 0 then Err(KeyError("load_reduction"))
    else
      var reductions := LoadReductions(rows);
      var total := Sum(reductions);
      var effectiveness :=
        if params.maxReduction == 0.0 then None
        else Some(Mean(reductions).value / params.maxReduction);
      Ok(ProgramMetrics(Fraction(AtLeast(reductions, params.minReduction)).value,
                        Fraction(Positive(reductions)).value,
                        total, total * params.incentiveRate, effectiveness, eventCount))
  }

  lemma {:induction false} CountAll(flags: seq<bool>)
    requires forall i :: 0 <= i < |flags| ==> flags[i]
    ensures Count(flags) == |flags|
  {
    if |flags| > 0 {
      CountAll(flags[..|flags| - 1]);
    }
  }

  /** Rows that all reach the minimum reduction give a reliability of 1. */
  lemma AllReachMinimum(params: DemandResponseParameters, rows: seq<ReductionRow>, eventCount: nat)
    requires |rows| > 0
    requires forall i :: 0 <= i < |rows| ==> rows[i].loadReduction >= params.minReduction
    ensures ProgramMetricsOf(params, rows, eventCount).Ok?
    ensures ProgramMetricsOf(params, rows, eventCount).value.reliability == 1.0
  {
    var flags := AtLeast(LoadReductions(rows), params.minReduction);
    CountAll(flags);
    assert Count(flags) == |flags| > 0;
    var n := |flags| as real;
    assert n / n == 1.0;
    assert Fraction(flags) == Some(n / n);
    assert ProgramMetricsOf(params, rows, eventCount).value.reliability == Fraction(flags).value;
  }

  /** A table produced by `calculate_load_reduction` (with a minimum not
      above the maximum) is fully reliable: every row reaches the minimum. */
  lemma ReductionTableReliable(params: DemandResponseParameters, loads: Series, price: Series,
                               temperature: Series, eventCount: nat)
    requires params.minReduction <= params.maxReduction
    requires Reductions(params, loads, price, temperature).Ok? && |loads| > 0
    ensures ProgramMetricsOf(params, Reductions(params, loads, price, temperature).value, eventCount).Ok?
    ensures ProgramMetricsOf(params, Reductions(params, loads, price, temperature).value, eventCount).value.reliability
            == 1.0
  {
    ReductionsSpec(params, loads, price, temperature);
    var rows := Reductions(params, loads, price, temperature).value;
    forall i | 0 <= i < |rows|
      ensures rows[i].loadReduction >= params.minReduction
    {
      assert RowFor(params, loads[i], rows[i]);
    }
    AllReachMinimum(params, rows, eventCount);
  }

  class DemandResponseModel {
    const params: DemandResponseParameters
    var activeEvents: seq<EventRecord>

    constructor(params: DemandResponseParameters)
      ensures this.params == params && activeEvents == []
    {
      this.params := params;
      activeEvents := [];
    }

    /** `calculate_load_reduction`, row by row. */
    method CalculateLoadReduction(baseLoad: Series, price: Series, temperature: Series)
      returns (r: Result<seq<ReductionRow>>)
      ensures r == Reductions(params, baseLoad, price, temperature)
    {
      var results: seq<ReductionRow> := [];
      var k := 0;
      while k < |baseLoad|
        invariant 0 <= k <= |baseLoad|
        invariant Reductions(params, baseLoad[..k], price, temperature) == Ok(results)
      {
        assert baseLoad[..k + 1][..k] == baseLoad[..k];
        var (timestamp, load) := baseLoad[k];
        var currentPrice := Find(price, timestamp);
        if currentPrice.None? {
          ReductionsErrorPersists(params, baseLoad, price, temperature, k + 1);
          return Err(RowKeyError(timestamp));
        }
        var averagePrice := Sum(Values(price)) / |price| as real;
        var currentTemperature := Find(temperature, timestamp);
        if currentTemperature.None? {
          ReductionsErrorPersists(params, baseLoad, price, temperature, k + 1);
          return Err(RowKeyError(timestamp));
        }
        var priceElasticity := PriceElasticity(currentPrice.value, averagePrice);
        var tempSensitivity := TemperatureSensitivity(currentTemperature.value);
        var baseReduction := params.maxReduction * params.participationRate * priceElasticity * tempSensitivity;
        var reduction := ClampReduction(params, baseReduction);
        var row := ReductionRow(timestamp, load, currentPrice.value, currentTemperature.value,
                                priceElasticity, tempSensitivity, reduction, load - reduction);
        assert ReductionRowOf(params, baseLoad[k], price, temperature) == Ok(row);
        results := results + [row];
        k := k + 1;
      }
      assert baseLoad[..k] == baseLoad;
      r := Ok(results);
    }

    /** `simulate_demand_response_event`: the reductions over the event's
        window under the placeholder price and temperature, and one more
        record in the event log. A window holding no entry gives a reduction
        frame without columns, so reading its `load_reduction` raises
        KeyError before anything is logged. */
    method SimulateDemandResponseEvent(loadProfile: Series, eventStart: int, eventDuration: real)
      returns (r: Result<seq<ReductionRow>>)
      modifies this
      ensures var eventLoad := EventLoad(loadProfile, eventStart, eventStart as real + eventDuration);
              eventLoad == [] ==> r == Err(KeyError("load_reduction")) && activeEvents == old(activeEvents)
      ensures var eventLoad := EventLoad(loadProfile, eventStart, eventStart as real + eventDuration);
              eventLoad != [] ==>
                r.Ok? && |r.value| == |eventLoad| &&
                Reductions(params, eventLoad, Constant(eventLoad, 1.0), Constant(eventLoad, 25.0)) == r
      ensures r.Ok? ==> forall i :: 0 <= i < |r.value| ==> r.value[i].loadReduction == PlaceholderReduction(params)
      ensures r.Ok? ==>
                activeEvents == old(activeEvents) +
                  [EventRecord(eventStart, eventStart as real + eventDuration, eventDuration,
                               Mean(LoadReductions(r.value)).value, Sum(LoadReductions(r.value)))]
    {
      var eventEnd := eventStart as real + eventDuration;
      var eventLoad := EventLoad(loadProfile, eventStart, eventEnd);
      KeysOfOwn(eventLoad);
      PlaceholderReductions(params, eventLoad, eventLoad);
      var reduction := CalculateLoadReduction(eventLoad, Constant(eventLoad, 1.0), Constant(eventLoad, 25.0));
      var reductions := LoadReductions(reduction.value);
      if |reductions| == 0 {
        return Err(KeyError("load_reduction"));
      }
      activeEvents := activeEvents + [EventRecord(eventStart, eventEnd, eventDuration, Mean(reductions).value, Sum(reductions))];
      r := reduction;
    }

    /** `calculate_program_metrics`, the event count read from the log. */
    function CalculateProgramMetrics(loadReductions: seq<ReductionRow>): (r: Result<ProgramMetrics>)
      reads this
      ensures r == ProgramMetricsOf(params, loadReductions, |activeEvents|)
    {
      ProgramMetricsOf(params, loadReductions, |activeEvents|)
    }
  }

  lemma KeysOfOwn(s: Series)
    ensures forall i :: 0 <= i < |s| ==> s[i].0 in Keys(s)
  {
  }
}
