// The storage calculator: a battery whose usable capacity degrades year by
// year and whose cycle counter rises with every charge or discharge step, an
// annual operation step that starts from an empty store, and the cost
// accounting over the operation rows.

module StorageModel {
  import opened Common

  datatype StorageTechnology = LithiumIon | PumpedHydro | FlowBattery | Thermal | Hydrogen

  datatype StorageParameters = StorageParameters(
    technology: StorageTechnology,
    capacity: real,      // MWh
    power: real,         // MW
    efficiency: real,    // round trip
    lifetime: int,       // years
    capex: real,         // USD/kWh
    opex: real,          // USD/kWh/year
    degradation: real,   // annual capacity loss
    responseTime: real)  // seconds

  /** The price series as the operation step reads it: empty, or its mean
      and its median. */
  datatype PriceStats = NoPrices | Prices(mean: real, median: real)

  /** The single row of an operation step. */
  datatype OperationRow = OperationRow(
    netPower: real,
    chargePower: real,
    dischargePower: real,
    storedEnergy: real,
    price: real)

  /** A row together with whether the step counted a cycle. */
  datatype Operation = Operation(row: OperationRow, cycled: bool)

  /** The power rating over a year of operation. */
  const HoursPerYear: real := 8760.0

  /** The mean price, 0 for an empty series. */
  function AveragePrice(price: PriceStats): real
  {
    if price.NoPrices? then 0.0 else price.mean
  }

  /** Charge when the mean price lies below the median, or with no prices. */
  predicate ChargeSignal(price: PriceStats)
  {
    price.NoPrices? || price.mean < price.median
  }

  /** Discharge when the mean price lies above the median, or with no
      prices. */
  predicate DischargeSignal(price: PriceStats)
  {
    price.NoPrices? || price.mean > price.median
  }

  function Min3(a: real, b: real, c: real): (r: real)
    ensures r <= a && r <= b && r <= c
  {
    Min(Min(a, b), c)
  }

  /** The operation step for a net power and a price series, the store
      empty at the start. A surplus with a charge signal charges up to the
      surplus, the annual power rating and the room left in the store over
      the efficiency (a zero efficiency raises ZeroDivisionError); a deficit
      with a discharge signal discharges up to the deficit, the annual
      rating and the (empty) store. Either step counts a cycle. */
  function OperationOf(params: StorageParameters, currentCapacity: real, netPower: real, price: PriceStats)
    : (r: Result<Operation>)
    ensures r.Err? <==> netPower > 0.0 && ChargeSignal(price) && params.efficiency == 0.0
    ensures r.Err? ==> r.error == ZeroDivisionError
    ensures r.Ok? ==> r.value.row.netPower == netPower && r.value.row.price == AveragePrice(price)
  {
    var stored := 0.0;
    var avg := AveragePrice(price);
    if netPower > 0.0 then
      if ChargeSignal(price) then
        if params.efficiency == 0.0 then Err(ZeroDivisionError)
        else
          var charge := Min3(netPower, params.power * HoursPerYear, (currentCapacity - stored) / params.efficiency);
          Ok(Operation(OperationRow(netPower, charge, 0.0, stored + charge * params.efficiency, avg), true))
      else
        Ok(Operation(OperationRow(netPower, 0.0, 0.0, stored, avg), false))
    else if DischargeSignal(price) then
      var discharge := Min3(Abs(netPower), params.power * HoursPerYear, stored);
      Ok(Operation(OperationRow(netPower, 0.0, if netPower < 0.0 then discharge else 0.0, stored - discharge, avg), true))
    else
      Ok(Operation(OperationRow(netPower, 0.0, 0.0, stored, avg), false))
  }

  /** A cycle is counted exactly when the step charges on a surplus or
      discharges on a deficit, even when nothing is discharged. */
  lemma CycleCounted(params: StorageParameters, currentCapacity: real, netPower: real, price: PriceStats)
    requires OperationOf(params, currentCapacity, netPower, price).Ok?
    ensures OperationOf(params, currentCapacity, netPower, price).value.cycled <==>
            (netPower > 0.0 && ChargeSignal(price)) || (netPower <= 0.0 && DischargeSignal(price))
  {
  }

  /** The row reports charging only on a surplus and discharging only on a
      deficit. */
  lemma RowSigns(params: StorageParameters, currentCapacity: real, netPower: real, price: PriceStats)
    requires OperationOf(params, currentCapacity, netPower, price).Ok?
    ensures var row := OperationOf(params, currentCapacity, netPower, price).value.row;
            (netPower <= 0.0 ==> row.chargePower == 0.0) && (netPower >= 0.0 ==> row.dischargePower == 0.0)
  {
  }

  /** On a surplus with a positive efficiency, what is stored never exceeds
      the current capacity. */
  lemma ChargeWithinCapacity(params: StorageParameters, currentCapacity: real, netPower: real, price: PriceStats)
    requires params.efficiency > 0.0 && currentCapacity >= 0.0
    requires netPower > 0.0
    ensures OperationOf(params, currentCapacity, netPower, price).Ok?
    ensures OperationOf(params, currentCapacity, netPower, price).value.row.storedEnergy <= currentCapacity
  {
    if ChargeSignal(price) {
      var e := params.efficiency;
      var charge := Min3(netPower, params.power * HoursPerYear, (currentCapacity - 0.0) / e);
      assert charge <= currentCapacity / e;
      ScaleMonotone(charge, currentCapacity / e, e);
      assert currentCapacity / e * e == currentCapacity;
    }
  }

  /** The store starts empty, so with a non-negative power rating a deficit
      never discharges anything and leaves nothing stored. */
  lemma DischargeAlwaysZero(params: StorageParameters, currentCapacity: real, netPower: real, price: PriceStats)
    requires params.power >= 0.0 && netPower <= 0.0
    ensures OperationOf(params, currentCapacity, netPower, price).Ok?
    ensures OperationOf(params, currentCapacity, netPower, price).value.row.dischargePower == 0.0
    ensures OperationOf(params, currentCapacity, netPower, price).value.row.storedEnergy == 0.0
  {
  }

  datatype StorageEconomics = StorageEconomics(
    totalThroughput: real,
    revenue: real,
    capex: real,
    opex: real,
    degradationCost: real,
    totalCost: real,
    npv: real,
    cycles: int)

  function ChargePowers(rows: seq<OperationRow>): (r: seq<real>)
    ensures |r| == |rows| && forall i :: 0 <= i < |rows| ==> r[i] == rows[i].chargePower
  {
    seq(|rows|, i requires 0 <= i < |rows| => rows[i].chargePower)
  }

  function DischargePowers(rows: seq<OperationRow>): (r: seq<real>)
    ensures |r| == |rows| && forall i :: 0 <= i < |rows| ==> r[i] == rows[i].dischargePower
  {
    seq(|rows|, i requires 0 <= i < |rows| => rows[i].dischargePower)
  }

  /** Discharge times price, row by row. */
  function Revenues(rows: seq<OperationRow>): (r: seq<real>)
    ensures |r| == |rows| && forall i :: 0 <= i < |rows| ==> r[i] == rows[i].dischargePower * rows[i].price
  {
    seq(|rows|, i requires 0 <= i < |rows| => rows[i].dischargePower * rows[i].price)
  }

  /** The economics of a set of operation rows: capital cost, operating cost
      over the lifetime, and the capital lost to degradation over the
      lifetime, `(1 - degradation) ** lifetime` raising ZeroDivisionError for
      a zero base and a negative lifetime. */
  function EconomicsOf(params: StorageParameters, cycles: int, rows: seq<OperationRow>): (r: Result<StorageEconomics>)
    ensures r.Err? <==> !PowDefined(1.0 - params.degradation, params.lifetime)
    ensures r.Ok? ==> r.value.totalCost == r.value.capex + r.value.opex + r.value.degradationCost
    ensures r.Ok? ==> r.value.npv == r.value.revenue - r.value.totalCost
    ensures r.Ok? ==> r.value.cycles == cycles
  {
    if !PowDefined(1.0 - params.degradation, params.lifetime) then Err(ZeroDivisionError)
    else
      var throughput := Sum(ChargePowers(rows)) + Sum(DischargePowers(rows));
      var revenue := Sum(Revenues(rows));
      var capex := params.capacity * params.capex;
      var opex := params.capacity * params.opex * params.lifetime as real;
      var degradationCost := params.capacity * params.capex * (1.0 - IntPow(1.0 - params.degradation, params.lifetime));
      var totalCost := capex + opex + degradationCost;
      Ok(StorageEconomics(throughput, revenue, capex, opex, degradationCost, totalCost, revenue - totalCost, cycles))
  }

  lemma {:induction false} PowOfOne(n: nat)
    ensures Pow(1.0, n) == 1.0
  {
    if n > 0 {
      PowOfOne(n - 1);
    }
  }

  /** Without degradation no capital is lost, whatever the lifetime. */
  lemma NoDegradationNoCost(params: StorageParameters, cycles: int, rows: seq<OperationRow>)
    requires params.degradation == 0.0
    ensures EconomicsOf(params, cycles, rows).Ok?
    ensures EconomicsOf(params, cycles, rows).value.degradationCost == 0.0
  {
    if params.lifetime >= 0 {
      PowOfOne(params.lifetime);
    } else {
      PowOfOne(-params.lifetime);
    }
  }

  lemma {:induction false} SumZeros(s: seq<real>)
    requires forall i :: 0 <= i < |s| ==> s[i] == 0.0
    ensures Sum(s) == 0.0
  {
    if |s| > 0 {
      SumZeros(s[..|s| - 1]);
    }
  }

  /** `row` is the row of some operation step under `params`. */
  ghost predicate IsOperationRow(params: StorageParameters, row: OperationRow)
  {
    exists c, n, p :: OperationOf(params, c, n, p).Ok? && OperationOf(params, c, n, p).value.row == row
  }

  /** Since nothing is ever discharged (power rating non-negative), rows
      produced by operation steps earn no revenue, and the net present value
      is minus the total cost. */
  lemma NoArbitrageRevenue(params: StorageParameters, cycles: int, rows: seq<OperationRow>)
    requires params.power >= 0.0
    requires forall i :: 0 <= i < |rows| ==> IsOperationRow(params, rows[i])
    requires PowDefined(1.0 - params.degradation, params.lifetime)
    ensures EconomicsOf(params, cycles, rows).value.revenue == 0.0
    ensures EconomicsOf(params, cycles, rows).value.npv == -EconomicsOf(params, cycles, rows).value.totalCost
  {
    forall i | 0 <= i < |rows|
      ensures Revenues(rows)[i] == 0.0
    {
      var c, n, p :| OperationOf(params, c, n, p).Ok? && OperationOf(params, c, n, p).value.row == rows[i];
      if n <= 0.0 {
        DischargeAlwaysZero(params, c, n, p);
      } else {
        RowSigns(params, c, n, p);
      }
    }
    SumZeros(Revenues(rows));
  }

  /** Capacity after one year of degradation. */
  function Degraded(capacity: real, degradation: real): real
  {
    capacity * (1.0 - degradation)
  }

  /** A degradation rate between 0 and 1 keeps the capacity between 0 and
      what it was. */
  lemma DegradedWithin(capacity: real, degradation: real)
    requires capacity >= 0.0 && 0.0 <= degradation <= 1.0
    ensures 0.0 <= Degraded(capacity, degradation) <= capacity
  {
    ScaleMonotone(0.0, capacity, 1.0 - degradation);
    ScaleMonotone(1.0 - degradation, 1.0, capacity);
  }

  class Storage {
    const params: StorageParameters
    var currentCapacity: real
    var cycles: int

    /** The usable capacity lies between 0 and the rated capacity and the
        counter is non-negative. */
    ghost predicate Valid()
      reads this
    {
      0.0 <= currentCapacity <= params.capacity && cycles >= 0
    }

    constructor(params: StorageParameters)
      ensures this.params == params
      ensures currentCapacity == params.capacity && cycles == 0
      ensures params.capacity >= 0.0 ==> Valid()
    {
      this.params := params;
      currentCapacity := params.capacity;
      cycles := 0;
    }

    /** `calculate_storage_operation`: one annual step on the summed
        generation less the load. */
    method CalculateStorageOperation(generation: seq<real>, load: real, price: PriceStats)
      returns (r: Result<seq<OperationRow>>)
      modifies this
      ensures var op := OperationOf(params, old(currentCapacity), Sum(generation) - load, price);
              (op.Ok? ==> r == Ok([op.value.row]) && cycles == old(cycles) + (if op.value.cycled then 1 else 0)) &&
              (op.Err? ==> r == Err(op.error) && cycles == old(cycles))
      ensures currentCapacity == old(currentCapacity)
      ensures old(Valid()) ==> Valid()
    {
      var currentEnergy := 0.0;
      var avgNetPower := Sum(generation) - load;
      var avgPrice := if price.NoPrices? then 0.0 else price.mean;
      var chargePower := 0.0;
      var dischargePower := 0.0;
      ghost var op := OperationOf(params, currentCapacity, avgNetPower, price);
      if avgNetPower > 0.0 {
        if price.NoPrices? || price.mean < price.median {
          if params.efficiency == 0.0 {
            return Err(ZeroDivisionError);
          }
          chargePower := Min3(avgNetPower, params.power * HoursPerYear, (currentCapacity - currentEnergy) / params.efficiency);
          currentEnergy := currentEnergy + chargePower * params.efficiency;
          cycles := cycles + 1;
          assert op.Ok?;
          assert op.value.cycled;
          assert op.value.row.chargePower == chargePower;
          assert op.value.row.storedEnergy == currentEnergy;
          assert op.value.row.price == avgPrice;
        } else {
          chargePower := 0.0;
        }
      } else {
        if price.NoPrices? || price.mean > price.median {
          dischargePower := Min3(Abs(avgNetPower), params.power * HoursPerYear, currentEnergy);
          currentEnergy := currentEnergy - dischargePower;
          cycles := cycles + 1;
          assert op.value.row.dischargePower == (if avgNetPower < 0.0 then dischargePower else 0.0);
        } else {
          dischargePower := 0.0;
        }
      }
      var row := OperationRow(avgNetPower,
                              if avgNetPower > 0.0 then chargePower else 0.0,
                              if avgNetPower < 0.0 then dischargePower else 0.0,
                              currentEnergy, avgPrice);
      assert op.value.row == row;
      r := Ok([row]);
    }

    /** `calculate_economics`: costs of the stored parameters and the cycle
        count so far. */
    function CalculateEconomics(rows: seq<OperationRow>): (r: Result<StorageEconomics>)
      reads this
      ensures r == EconomicsOf(params, cycles, rows)
    {
      EconomicsOf(params, cycles, rows)
    }

    /** `update_capacity`: one year of degradation; nothing else changes. */
    method UpdateCapacity()
      modifies this
      ensures currentCapacity == Degraded(old(currentCapacity), params.degradation)
      ensures cycles == old(cycles)
      ensures old(Valid()) && 0.0 <= params.degradation <= 1.0 ==> Valid()
    {
      if 0.0 <= currentCapacity && 0.0 <= params.degradation <= 1.0 {
        DegradedWithin(currentCapacity, params.degradation);
      }
      currentCapacity := currentCapacity * (1.0 - params.degradation);
    }
  }
}
