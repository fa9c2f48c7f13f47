// The electricity market: registered generators, the annual clearing
// price, merit-order dispatch and market concentration.

module MarketModel {
  import opened Common

  datatype MarketType = DayAhead | RealTime | Balancing | CapacityMarket

  datatype Generator = Generator(
    name: string,
    technology: string,
    capacity: real,       // MW
    minOutput: real,      // MW
    rampRate: real,       // MW/hour
    variableCost: real,   // USD/MWh
    fixedCost: real,      // USD/MW/year
    startCost: real,      // USD
    minUptime: real,      // hours
    minDowntime: real)    // hours

  datatype MarketParameters = MarketParameters(
    marketType: MarketType,
    priceCap: real,
    priceFloor: real,
    demandElasticity: real,
    clearingInterval: real,
    reserveMargin: real)

  /** Registered generators by name, in registration order. */
  type Generators = seq<(string, Generator)>

  function Capacities(gens: Generators): (caps: seq<real>)
    ensures |caps| == |gens|
    ensures forall i :: 0 <= i < |gens| ==> caps[i] == gens[i].1.capacity
  {
    seq(|gens|, i requires 0 <= i < |gens| => gens[i].1.capacity)
  }

  predicate NonNegativeCapacities(gens: Generators)
  {
    forall i :: 0 <= i < |gens| ==> gens[i].1.capacity >= 0.0
  }

  // ---------------------------------------------------------------------
  // Annual clearing

  /** The price when supply covers demand, in USD/MWh. */
  const DefaultPrice: real := 50.0

  /** The single annual clearing row. */
  datatype ClearingRow = ClearingRow(demand: real, renewableGeneration: real, marketPrice: real, balance: real)

  /** Clearing as intended: conventional supply is the registered capacity
      less the renewable generation; the price is the default while supply
      covers demand and the price cap otherwise. */
  function ClearMarketRow(gens: Generators, params: MarketParameters, demand: real, renewable: real): (r: ClearingRow)
    ensures r.demand == demand && r.renewableGeneration == renewable
    ensures r.balance + demand + renewable == Sum(Capacities(gens))
    ensures r.marketPrice == if Sum(Capacities(gens)) - renewable >= demand then DefaultPrice else params.priceCap
  {
    var available := Sum(Capacities(gens)) - renewable;
    var balance := available - demand;
    ClearingRow(demand, renewable, if balance >= 0.0 then DefaultPrice else params.priceCap, balance)
  }

  /** Clearing as written: summing `gen.capacity` over the dictionary visits
      its keys, which are names, so any registered generator raises
      AttributeError; with none the capacity is 0. */
  function ClearMarketAsWritten(gens: Generators, params: MarketParameters, demand: real, renewable: real)
    : (r: Result<ClearingRow>)
    ensures r.Ok? <==> |gens| == 0
    ensures r.Err? ==> r.error == AttributeError("capacity")
    ensures r.Ok? ==> r.value == ClearMarketRow(gens, params, demand, renewable)
  {
    if |gens| > 0 then Err(AttributeError("capacity"))
    else Ok(ClearingRow(demand, renewable, if 0.0 - renewable - demand >= 0.0 then DefaultPrice else params.priceCap,
                        0.0 - renewable - demand))
  }

  /** More capacity never turns a cleared market into a capped one. */
  lemma ClearingPriceMonotone(gens: Generators, more: Generators, params: MarketParameters, demand: real, renewable: real)
    requires Sum(Capacities(gens)) <= Sum(Capacities(more))
    requires ClearMarketRow(gens, params, demand, renewable).balance >= 0.0
    ensures ClearMarketRow(more, params, demand, renewable).marketPrice == DefaultPrice
    ensures ClearMarketRow(more, params, demand, renewable).balance >= ClearMarketRow(gens, params, demand, renewable).balance
  {
  }

  /** One registered generator of 100 MW with 50 MWh demand and no
      renewables: the clearing as written raises, the intended clearing
      settles at the default price with a balance of 50. */
  lemma ClearMarketFinding(params: MarketParameters)
    ensures var g := [("g", Generator("g", "coal", 100.0, 0.0, 0.0, 30.0, 0.0, 0.0, 0.0, 0.0))];
            ClearMarketAsWritten(g, params, 50.0, 0.0) == Err(AttributeError("capacity")) &&
            ClearMarketRow(g, params, 50.0, 0.0) == ClearingRow(50.0, 0.0, DefaultPrice, 50.0)
  {
    var g := [("g", Generator("g", "coal", 100.0, 0.0, 0.0, 30.0, 0.0, 0.0, 0.0, 0.0))];
    assert Capacities(g) == [100.0];
    assert Capacities(g)[..0] == [];
    assert Sum(Capacities(g)) == Sum([]) + 100.0;
  }

  // ---------------------------------------------------------------------
  // Merit order

  predicate CostSorted(s: Generators)
  {
    forall i, j :: 0 <= i < j < |s| ==> s[i].1.variableCost <= s[j].1.variableCost
  }

  /** Inserts g after every entry that is not dearer, so that entries of
      equal cost keep their order. */
  function InsertByCost(g: (string, Generator), s: Generators): Generators
  {
    if |s| == 0 then [g]
    else if g.1.variableCost < s[0].1.variableCost then [g] + s
    else [s[0]] + InsertByCost(g, s[1..])
  }

  /** Inserting adds exactly the one entry. */
  lemma {:induction false} InsertByCostPermutes(g: (string, Generator), s: Generators)
    ensures multiset(InsertByCost(g, s)) == multiset(s) + multiset{g}
  {
    if |s| > 0 && g.1.variableCost >= s[0].1.variableCost {
      InsertByCostPermutes(g, s[1..]);
      assert s == [s[0]] + s[1..];
    }
  }

  /** A cost no greater than g's and every entry's bounds the result. */
  lemma {:induction false} InsertByCostLowerBound(g: (string, Generator), s: Generators, c: real)
    requires c <= g.1.variableCost
    requires forall i :: 0 <= i < |s| ==> c <= s[i].1.variableCost
    ensures forall i :: 0 <= i < |InsertByCost(g, s)| ==> c <= InsertByCost(g, s)[i].1.variableCost
  {
    if |s| > 0 && g.1.variableCost >= s[0].1.variableCost {
      InsertByCostLowerBound(g, s[1..], c);
    }
  }

  /** Inserting into a sorted sequence keeps it sorted. */
  lemma {:induction false} InsertByCostSorted(g: (string, Generator), s: Generators)
    requires CostSorted(s)
    ensures CostSorted(InsertByCost(g, s))
  {
    if |s| > 0 {
      var r := InsertByCost(g, s);
      if g.1.variableCost < s[0].1.variableCost {
        assert r == [g] + s;
      } else {
        var rest := InsertByCost(g, s[1..]);
        InsertByCostSorted(g, s[1..]);
        InsertByCostLowerBound(g, s[1..], s[0].1.variableCost);
        assert r == [s[0]] + rest;
        forall i, j | 0 <= i < j < |r|
          ensures r[i].1.variableCost <= r[j].1.variableCost
        {
          if i > 0 {
            assert r[i] == rest[i - 1] && r[j] == rest[j - 1];
          } else {
            assert r[j] == rest[j - 1];
          }
        }
      }
    }
  }

  /** `sorted(generators.items(), key=variable_cost)`: a stable sort by
      variable cost. */
  function SortByCost(gens: Generators): Generators
  {
    if |gens| == 0 then []
    else
      var n := |gens| - 1;
      InsertByCost(gens[n], SortByCost(gens[..n]))
  }

  /** The sort returns the same generators, in cost order. */
  lemma {:induction false} SortByCostSpec(gens: Generators)
    ensures multiset(SortByCost(gens)) == multiset(gens)
    ensures CostSorted(SortByCost(gens))
  {
    if |gens| > 0 {
      var n := |gens| - 1;
      SortByCostSpec(gens[..n]);
      InsertByCostPermutes(gens[n], SortByCost(gens[..n]));
      InsertByCostSorted(gens[n], SortByCost(gens[..n]));
      assert gens == gens[..n] + [gens[n]];
    }
  }

  /** The generators of cost c, in the order they appear. */
  function WithCost(s: Generators, c: real): (r: Generators)
    ensures forall i :: 0 <= i < |r| ==> r[i] in s && r[i].1.variableCost == c
  {
    if |s| == 0 then []
    else (if s[0].1.variableCost == c then [s[0]] else []) + WithCost(s[1..], c)
  }

  lemma {:induction false} WithCostAppend(a: Generators, b: Generators, c: real)
    ensures WithCost(a + b, c) == WithCost(a, c) + WithCost(b, c)
  {
    if |a| > 0 {
      assert (a + b)[1..] == a[1..] + b;
      WithCostAppend(a[1..], b, c);
    } else {
      assert a + b == b;
    }
  }

  lemma {:induction false} WithCostAbove(s: Generators, c: real)
    requires forall i :: 0 <= i < |s| ==> s[i].1.variableCost > c
    ensures WithCost(s, c) == []
  {
    if |s| > 0 {
      WithCostAbove(s[1..], c);
    }
  }

  /** Inserting into a sorted sequence puts g after every entry of its own
      cost. */
  lemma {:induction false} InsertByCostWithCost(g: (string, Generator), s: Generators, c: real)
    requires CostSorted(s)
    ensures WithCost(InsertByCost(g, s), c) == WithCost(s, c) + (if g.1.variableCost == c then [g] else [])
  {
    var tail := if g.1.variableCost == c then [g] else [];
    if |s| == 0 {
      assert WithCost([g], c) == tail + WithCost([], c);
    } else if g.1.variableCost < s[0].1.variableCost {
      var r := [g] + s;
      assert r[1..] == s;
      assert WithCost(r, c) == tail + WithCost(s, c);
      if g.1.variableCost == c {
        WithCostAbove(s, c);
      }
    } else {
      var rest := InsertByCost(g, s[1..]);
      var r := [s[0]] + rest;
      assert r[1..] == rest;
      var head := if s[0].1.variableCost == c then [s[0]] else [];
      assert WithCost(r, c) == head + WithCost(rest, c);
      assert WithCost(s, c) == head + WithCost(s[1..], c);
      InsertByCostWithCost(g, s[1..], c);
    }
  }

  /** The sort is stable: for every cost, the generators of that cost come
      out in the order they were registered. */
  lemma {:induction false} SortByCostStable(gens: Generators, c: real)
    ensures WithCost(SortByCost(gens), c) == WithCost(gens, c)
  {
    if |gens| > 0 {
      var n := |gens| - 1;
      SortByCostStable(gens[..n], c);
      SortByCostSpec(gens[..n]);
      InsertByCostWithCost(gens[n], SortByCost(gens[..n]), c);
      assert gens == gens[..n] + [gens[n]];
      WithCostAppend(gens[..n], [gens[n]], c);
      assert WithCost([gens[n]], c) == (if gens[n].1.variableCost == c then [gens[n]] else []) + WithCost([], c);
    }
  }

  /** When every generator has the same cost, the sort changes nothing. */
  lemma {:induction false} SortByCostTies(gens: Generators)
    requires forall i, j :: 0 <= i < j < |gens| ==> gens[i].1.variableCost == gens[j].1.variableCost
    ensures SortByCost(gens) == gens
  {
    if |gens| > 0 {
      var n := |gens| - 1;
      SortByCostTies(gens[..n]);
      InsertAtEnd(gens[n], gens[..n]);
      assert gens[..n] + [gens[n]] == gens;
    }
  }

  lemma {:induction false} InsertAtEnd(g: (string, Generator), s: Generators)
    requires forall i :: 0 <= i < |s| ==> s[i].1.variableCost <= g.1.variableCost
    ensures InsertByCost(g, s) == s + [g]
  {
    if |s| > 0 {
      InsertAtEnd(g, s[1..]);
      assert [s[0]] + (s[1..] + [g]) == s + [g];
    }
  }

  /** The greedy fill in cost order: while demand remains, each generator
      takes all of it it can; once none remains, the rest get 0. */
  function MeritOrder(s: Generators, remaining: real): (r: seq<(string, real)>)
    ensures |r| == |s|
  {
    if |s| == 0 then []
    else
      var d := Take(s[0].1.capacity, remaining);
      [(s[0].0, d)] + MeritOrder(s[1..], remaining - d)
  }

  /** What one generator takes of the demand still unserved. */
  function Take(capacity: real, remaining: real): real
  {
    if remaining <= 0.0 then 0.0 else Min(capacity, remaining)
  }

  /** Step `i` of the fill: generator `i` takes its share of what remains
      and the rest are filled with what it leaves. */
  lemma MeritOrderAt(s: Generators, i: nat, remaining: real)
    requires i < |s|
    ensures MeritOrder(s[i..], remaining) ==
            [(s[i].0, Take(s[i].1.capacity, remaining))] + MeritOrder(s[i + 1..], remaining - Take(s[i].1.capacity, remaining))
  {
    assert s[i..][1..] == s[i + 1..];
  }

  /** The dispatch names the generators in the order given. */
  lemma {:induction false} MeritOrderNames(s: Generators, remaining: real)
    ensures forall i :: 0 <= i < |s| ==> MeritOrder(s, remaining)[i].0 == s[i].0
  {
    if |s| > 0 {
      var d := Take(s[0].1.capacity, remaining);
      MeritOrderNames(s[1..], remaining - d);
      var r := MeritOrder(s, remaining);
      assert r[1..] == MeritOrder(s[1..], remaining - d);
      forall i | 1 <= i < |s|
        ensures r[i].0 == s[i].0
      {
        assert r[i] == r[1..][i - 1];
      }
    }
  }

  /** With nothing left to serve every generator gets 0. */
  lemma {:induction false} MeritOrderExhausted(s: Generators, remaining: real)
    requires remaining <= 0.0
    ensures forall i :: 0 <= i < |s| ==> MeritOrder(s, remaining)[i].1 == 0.0
  {
    if |s| > 0 {
      MeritOrderExhausted(s[1..], remaining);
    }
  }

  /** Each generator's dispatch lies between 0 and its capacity. */
  lemma {:induction false} MeritOrderBounds(s: Generators, remaining: real)
    requires NonNegativeCapacities(s)
    ensures forall i :: 0 <= i < |s| ==> 0.0 <= MeritOrder(s, remaining)[i].1 <= s[i].1.capacity
  {
    if |s| > 0 {
      var d := Take(s[0].1.capacity, remaining);
      MeritOrderBounds(s[1..], remaining - d);
    }
  }

  /** The total dispatched is the demand, floored at 0 and capped by the
      total capacity. */
  lemma {:induction false} MeritOrderTotal(s: Generators, remaining: real)
    requires NonNegativeCapacities(s)
    ensures Sum(Values(MeritOrder(s, remaining))) == Min(Max(remaining, 0.0), Sum(Capacities(s)))
  {
    if |s| > 0 {
      var c := s[0].1.capacity;
      var d := Take(c, remaining);
      var rest := Values(MeritOrder(s[1..], remaining - d));
      var restCaps := Capacities(s[1..]);
      MeritOrderTotal(s[1..], remaining - d);
      MeritOrderSplit(s, remaining);
      SumFirst(d, rest);
      SumFirst(c, restCaps);
      CapacitiesNonNegative(s[1..]);
      TakeThenRest(c, remaining, Sum(rest), Sum(restCaps), Sum(Values(MeritOrder(s, remaining))), Sum(Capacities(s)));
    }
  }

  /** The first generator's take and its capacity head the dispatch and the
      capacities. */
  lemma MeritOrderSplit(s: Generators, remaining: real)
    requires |s| > 0
    ensures var d := Take(s[0].1.capacity, remaining);
      Values(MeritOrder(s, remaining)) == [d] + Values(MeritOrder(s[1..], remaining - d))
    ensures Capacities(s) == [s[0].1.capacity] + Capacities(s[1..])
  {
    var d := Take(s[0].1.capacity, remaining);
    var r := MeritOrder(s, remaining);
    assert r == [(s[0].0, d)] + MeritOrder(s[1..], remaining - d);
    ValuesFirst(r);
    assert r[1..] == MeritOrder(s[1..], remaining - d);
  }

  lemma CapacitiesNonNegative(s: Generators)
    requires NonNegativeCapacities(s)
    ensures Sum(Capacities(s)) >= 0.0
  {
    SumNonNegative(Capacities(s));
  }

  /** Taking the first generator's share and capping the rest by the other
      capacities caps the whole by the total capacity. */
  lemma TakeThenRest(c: real, remaining: real, restTotal: real, restCaps: real, total: real, caps: real)
    requires c >= 0.0 && restCaps >= 0.0
    requires restTotal == Min(Max(remaining - Take(c, remaining), 0.0), restCaps)
    requires total == Take(c, remaining) + restTotal && caps == c + restCaps
    ensures total == Min(Max(remaining, 0.0), caps)
  {
  }

  /** A generator is dispatched at all only when every cheaper generator
      before it runs at full capacity. */
  lemma {:induction false} MeritOrderPriority(s: Generators, remaining: real, j: nat)
    requires NonNegativeCapacities(s)
    requires j < |s| && MeritOrder(s, remaining)[j].1 > 0.0
    ensures forall i :: 0 <= i < j ==> MeritOrder(s, remaining)[i].1 == s[i].1.capacity
  {
    if j > 0 {
      var r := MeritOrder(s, remaining);
      var d := Take(s[0].1.capacity, remaining);
      assert r[1..] == MeritOrder(s[1..], remaining - d);
      assert r[j] == r[1..][j - 1];
      if remaining - d <= 0.0 {
        MeritOrderExhausted(s[1..], remaining - d);
        assert false;
      }
      MeritOrderPriority(s[1..], remaining - d, j - 1);
      forall i | 1 <= i < j
        ensures r[i].1 == s[i].1.capacity
      {
        assert r[i] == r[1..][i - 1];
      }
    }
  }

  /** Total cost of a dispatch: each generator's output times its variable
      cost (the generator looked up by name is the one dispatched). */
  function DispatchCost(s: Generators, dispatch: seq<(string, real)>): real
    requires |dispatch| == |s|
  {
    Sum(seq(|s|, i requires 0 <= i < |s| => dispatch[i].1 * s[i].1.variableCost))
  }

  datatype DispatchRow = DispatchRow(
    timestamp: int,
    demand: real,
    renewableGeneration: real,
    residualDemand: real,
    dispatch: seq<(string, real)>,
    totalCost: real)

  /** The row of one timestamp: the residual demand dispatched in merit
      order. */
  function DispatchRowOf(gens: Generators, timestamp: int, demand: real, renewable: real): DispatchRow
  {
    var s := SortByCost(gens);
    var dispatch := MeritOrder(s, demand - renewable);
    DispatchRow(timestamp, demand, renewable, demand - renewable, dispatch, DispatchCost(s, dispatch))
  }

  /** `row` is the dispatch row of demand entry `d`, its renewable
      generation found by timestamp. */
  predicate RowOf(gens: Generators, renewable: seq<(int, real)>, d: (int, real), row: DispatchRow)
  {
    Find(renewable, d.0).Some? && row == DispatchRowOf(gens, d.0, d.1, Find(renewable, d.0).value)
  }

  // ---------------------------------------------------------------------
  // Market concentration

  datatype MarketPower = MarketPower(hhi: real, marketShares: seq<(string, real)>)

  /** Every dispatch entry of every row, in order. */
  function Entries(rows: seq<DispatchRow>): seq<(string, real)>
  {
    if |rows| == 0 then [] else Entries(rows[..|rows| - 1]) + rows[|rows| - 1].dispatch
  }

  /** Output summed per generator, generators in order of first
      appearance. */
  function Accumulate(entries: seq<(string, real)>): seq<(string, real)>
  {
    if |entries| == 0 then []
    else
      var n := |entries| - 1;
      AddTo(Accumulate(entries[..n]), entries[n].0, entries[n].1)
  }

  /** Accumulating neither loses nor invents output. */
  lemma {:induction false} AccumulateTotal(entries: seq<(string, real)>)
    ensures Sum(Values(Accumulate(entries))) == Sum(Values(entries))
  {
    if |entries| > 0 {
      var n := |entries| - 1;
      AccumulateTotal(entries[..n]);
      AddToTotal(Accumulate(entries[..n]), entries[n].0, entries[n].1);
      assert Values(entries)[..n] == Values(entries[..n]);
    }
  }

  /** Accumulating non-negative output gives non-negative totals. */
  lemma {:induction false} AccumulateNonNegative(entries: seq<(string, real)>)
    requires forall i :: 0 <= i < |entries| ==> entries[i].1 >= 0.0
    ensures forall i :: 0 <= i < |Accumulate(entries)| ==> Accumulate(entries)[i].1 >= 0.0
  {
    if |entries| > 0 {
      var n := |entries| - 1;
      AccumulateNonNegative(entries[..n]);
      AddToNonNegative(Accumulate(entries[..n]), entries[n].0, entries[n].1);
    }
  }

  lemma {:induction false} AddToNonNegative(d: seq<(string, real)>, k: string, v: real)
    requires v >= 0.0 && forall i :: 0 <= i < |d| ==> d[i].1 >= 0.0
    ensures forall i :: 0 <= i < |AddTo(d, k, v)| ==> AddTo(d, k, v)[i].1 >= 0.0
  {
    if |d| > 0 && d[0].0 != k {
      AddToNonNegative(d[1..], k, v);
      var r := AddTo(d, k, v);
      assert r == [d[0]] + AddTo(d[1..], k, v);
    }
  }

  function Square(x: real): (r: real)
    ensures r >= 0.0
  {
    x * x
  }

  function Squares(s: seq<real>): (r: seq<real>)
    ensures |r| == |s|
    ensures forall i :: 0 <= i < |s| ==> r[i] == Square(s[i])
  {
    seq(|s|, i requires 0 <= i < |s| => Square(s[i]))
  }

  /** Each generator's share of the total output. */
  function Shares(totals: seq<(string, real)>, total: real): (r: seq<(string, real)>)
    requires total != 0.0
    ensures |r| == |totals|
    ensures forall i :: 0 <= i < |totals| ==> r[i].0 == totals[i].0 && r[i].1 == totals[i].1 / total
  {
    seq(|totals|, i requires 0 <= i < |totals| => (totals[i].0, totals[i].1 / total))
  }

  /** Concentration of the accumulated output: the Herfindahl-Hirschman
      index is the sum of squared shares. With output on record and none in
      total the division raises ZeroDivisionError; with nothing on record
      the index is 0. */
  function MarketPowerOf(totals: seq<(string, real)>, total: real): (r: Result<MarketPower>)
    ensures r.Err? <==> |totals| > 0 && total == 0.0
    ensures r.Err? ==> r.error == ZeroDivisionError
  {
    if |totals| == 0 then Ok(MarketPower(0.0, []))
    else if total == 0.0 then Err(ZeroDivisionError)
    else
      var shares := Shares(totals, total);
      Ok(MarketPower(Sum(Squares(Values(shares))), shares))
  }

  /** The shares add up to the recorded output over the total. */
  lemma SharesTotal(totals: seq<(string, real)>, total: real)
    requires total != 0.0
    ensures Sum(Values(Shares(totals, total))) == Sum(Values(totals)) / total
  {
    var shares := Shares(totals, total);
    forall i | 0 <= i < |totals|
      ensures Values(shares)[i] == Values(totals)[i] / total
    {
    }
    SumDivided(Values(totals), total, Values(shares));
  }

  /** When the total is the sum of the recorded output, the shares add up to
      1 and, none of them negative, the index is at most 1. */
  lemma SharesBounds(totals: seq<(string, real)>, total: real)
    requires |totals| > 0 && total != 0.0 && total == Sum(Values(totals))
    requires forall i :: 0 <= i < |totals| ==> totals[i].1 >= 0.0
    ensures MarketPowerOf(totals, total).Ok?
    ensures Sum(Values(MarketPowerOf(totals, total).value.marketShares)) == 1.0
    ensures MarketPowerOf(totals, total).value.hhi <= 1.0
  {
    var shares := Shares(totals, total);
    SharesTotal(totals, total);
    DivideSelf(total);
    assert Sum(Values(totals)) / total == total / total;
    SharesNonNegative(totals, total);
    SumOfSquaresBound(Values(shares));
  }

  lemma DivideSelf(x: real)
    requires x != 0.0
    ensures x / x == 1.0
  {
  }

  lemma SharesNonNegative(totals: seq<(string, real)>, total: real)
    requires total != 0.0 && total == Sum(Values(totals))
    requires forall i :: 0 <= i < |totals| ==> totals[i].1 >= 0.0
    ensures forall i :: 0 <= i < |totals| ==> Values(Shares(totals, total))[i] >= 0.0
  {
    SumNonNegative(Values(totals));
    var shares := Shares(totals, total);
    forall i | 0 <= i < |shares|
      ensures Values(shares)[i] >= 0.0
    {
      assert Values(shares)[i] == totals[i].1 / total;
    }
  }

  /** Over every dispatch entry with no negative output, the shares add up
      to 1 and the index lies between 0 and 1. */
  lemma MarketPowerBounds(entries: seq<(string, real)>)
    requires forall i :: 0 <= i < |entries| ==> entries[i].1 >= 0.0
    ensures var r := MarketPowerOf(Accumulate(entries), Sum(Values(entries)));
            r.Ok? ==> 0.0 <= r.value.hhi <= 1.0 &&
                      (|entries| > 0 ==> Sum(Values(r.value.marketShares)) == 1.0)
  {
    var totals := Accumulate(entries);
    var total := Sum(Values(entries));
    AccumulateTotal(entries);
    AccumulateNonNegative(entries);
    if |entries| > 0 {
      AccumulateNonEmpty(entries);
    }
    if |totals| > 0 && total != 0.0 {
      SharesBounds(totals, total);
      var shares := Shares(totals, total);
      SumNonNegative(Squares(Values(shares)));
    }
  }

  lemma {:induction false} AccumulateNonEmpty(entries: seq<(string, real)>)
    requires |entries| > 0
    ensures |Accumulate(entries)| > 0
  {
    var n := |entries| - 1;
    AddToNonEmpty(Accumulate(entries[..n]), entries[n].0, entries[n].1);
  }

  lemma {:induction false} AddToNonEmpty(d: seq<(string, real)>, k: string, v: real)
    ensures |AddTo(d, k, v)| > 0
  {
  }

  /** For non-negative terms the sum of squares is at most the square of the
      sum. */
  lemma {:induction false} SumOfSquaresBound(s: seq<real>)
    requires forall i :: 0 <= i < |s| ==> s[i] >= 0.0
    ensures Sum(Squares(s)) <= Sum(s) * Sum(s)
  {
    if |s| > 0 {
      var n := |s| - 1;
      SumOfSquaresBound(s[..n]);
      SumNonNegative(s[..n]);
      assert Squares(s)[..n] == Squares(s[..n]);
      var a, x := Sum(s[..n]), s[n];
      assert (a + x) * (a + x) == a * a + 2.0 * a * x + x * x;
      assert a * x >= 0.0;
    }
  }

  /** `analyze_market_power`: output summed per generator over every row's
      dispatch, then shares and index. */
  method AnalyzeMarketPower(rows: seq<DispatchRow>) returns (r: Result<MarketPower>)
    ensures r == MarketPowerOf(Accumulate(Entries(rows)), Sum(Values(Entries(rows))))
  {
    var marketShares: seq<(string, real)> := [];
    var totalGeneration := 0.0;
    var k := 0;
    while k < |rows|
      invariant 0 <= k <= |rows|
      invariant marketShares == Accumulate(Entries(rows[..k]))
      invariant totalGeneration == Sum(Values(Entries(rows[..k])))
    {
      assert rows[..k + 1][..k] == rows[..k];
      marketShares, totalGeneration := AddDispatch(marketShares, totalGeneration, rows[k].dispatch, Entries(rows[..k]));
      k := k + 1;
    }
    assert rows[..k] == rows;
    r := MarketPowerOf(marketShares, totalGeneration);
  }

  /** The inner loop of `analyze_market_power`: one row's dispatch added to
      the per-generator totals and the overall total kept so far for the
      entries `done`. */
  method AddDispatch(shares: seq<(string, real)>, total: real, dispatch: seq<(string, real)>,
                     ghost done: seq<(string, real)>)
    returns (shares': seq<(string, real)>, total': real)
    requires shares == Accumulate(done) && total == Sum(Values(done))
    ensures shares' == Accumulate(done + dispatch)
    ensures total' == Sum(Values(done + dispatch))
  {
    shares', total' := shares, total;
    var j := 0;
    assert done + dispatch[..j] == done;
    while j < |dispatch|
      invariant 0 <= j <= |dispatch|
      invariant shares' == Accumulate(done + dispatch[..j])
      invariant total' == Sum(Values(done + dispatch[..j]))
    {
      AccumulateStep(done + dispatch[..j], dispatch[j]);
      assert done + dispatch[..j + 1] == (done + dispatch[..j]) + [dispatch[j]];
      shares' := AddTo(shares', dispatch[j].0, dispatch[j].1);
      total' := total' + dispatch[j].1;
      j := j + 1;
    }
    assert dispatch[..j] == dispatch;
  }

  /** One more entry: its output is added to its generator and the total. */
  lemma AccumulateStep(entries: seq<(string, real)>, e: (string, real))
    ensures Accumulate(entries + [e]) == AddTo(Accumulate(entries), e.0, e.1)
    ensures Sum(Values(entries + [e])) == Sum(Values(entries)) + e.1
  {
    assert (entries + [e])[..|entries|] == entries;
    assert Values(entries + [e])[..|entries|] == Values(entries);
  }

  // ---------------------------------------------------------------------
  // The market

  class Market {
    const params: MarketParameters
    var generators: Generators

    ghost predicate Valid()
      reads this
    {
      DistinctKeys(generators)
    }

    constructor (params: MarketParameters)
      ensures Valid() && this.params == params && generators == []
    {
      this.params := params;
      generators := [];
    }

    /** `generators[g.name] = g`: registers the generator under its name,
        replacing an earlier one of that name in its place. */
    method AddGenerator(g: Generator)
      requires Valid()
      modifies this
      ensures Valid()
      ensures generators == Put(old(generators), g.name, g)
      ensures Find(generators, g.name) == Some(g)
      ensures forall n :: n != g.name ==> Find(generators, n) == Find(old(generators), n)
    {
      PutDistinct(generators, g.name, g);
      forall n {
        PutFind(generators, g.name, g, n);
      }
      generators := Put(generators, g.name, g);
    }

    /** The annual clearing as intended. */
    function ClearMarket(demand: real, renewable: real): (r: ClearingRow)
      reads this
      ensures r == ClearMarketRow(generators, params, demand, renewable)
    {
      ClearMarketRow(generators, params, demand, renewable)
    }

    /** `_optimize_dispatch`: the generators in cost order, each taking the
        demand still unserved up to its capacity. */
    method OptimizeDispatch(demand: real) returns (dispatch: seq<(string, real)>)
      ensures dispatch == MeritOrder(SortByCost(generators), demand)
    {
      var sorted := SortByCost(generators);
      dispatch := [];
      var remaining := demand;
      var i := 0;
      while i < |sorted|
        invariant 0 <= i <= |sorted|
        invariant MeritOrder(sorted, demand) == dispatch + MeritOrder(sorted[i..], remaining)
      {
        var name, generator := sorted[i].0, sorted[i].1;
        MeritOrderAt(sorted, i, remaining);
        ghost var step := Take(generator.capacity, remaining);
        ghost var rest := MeritOrder(sorted[i + 1..], remaining - step);
        ghost var before := dispatch;
        ghost var left := remaining - step;
        if remaining <= 0.0 {
          dispatch := dispatch + [(name, 0.0)];
        } else {
          var d := Min(generator.capacity, remaining);
          dispatch := dispatch + [(name, d)];
          remaining := remaining - d;
        }
        assert dispatch == before + [(name, step)];
        assert remaining == left;
        AppendAssoc(before, (name, step), rest);
        i := i + 1;
      }
      assert sorted[i..] == [];
    }

    /** `optimize_generator_dispatch`: one row per demand timestamp, the
        renewable generation looked up by timestamp (a missing one raises
        KeyError). */
    method OptimizeGeneratorDispatch(demand: seq<(int, real)>, renewable: seq<(int, real)>)
      returns (r: Result<seq<DispatchRow>>)
      ensures r.Ok? <==> forall i :: 0 <= i < |demand| ==> demand[i].0 in Keys(renewable)
      ensures r.Err? ==> exists k :: 0 <= k < |demand| && demand[k].0 !in Keys(renewable) &&
                                     (forall i :: 0 <= i < k ==> demand[i].0 in Keys(renewable)) &&
                                     r.error == RowKeyError(demand[k].0)
      ensures r.Ok? ==> |r.value| == |demand|
      ensures r.Ok? ==> forall i :: 0 <= i < |demand| ==> RowOf(generators, renewable, demand[i], r.value[i])
    {
      var rows: seq<DispatchRow> := [];
      var k := 0;
      while k < |demand|
        invariant 0 <= k <= |demand| && |rows| == k
        invariant forall i :: 0 <= i < k ==> demand[i].0 in Keys(renewable)
        invariant forall i :: 0 <= i < k ==> RowOf(generators, renewable, demand[i], rows[i])
      {
        var row := DispatchAt(demand[k], renewable);
        if row.Err? {
          return Err(row.error);
        }
        rows := rows + [row.value];
        k := k + 1;
      }
      r := Ok(rows);
    }

    /** One pass of the dispatch loop: the renewable generation at the
        demand's timestamp (KeyError when it has none), the residual demand
        and its merit-order dispatch with its cost. */
    method DispatchAt(d: (int, real), renewable: seq<(int, real)>) returns (r: Result<DispatchRow>)
      ensures r.Ok? <==> d.0 in Keys(renewable)
      ensures r.Err? ==> r.error == RowKeyError(d.0)
      ensures r.Ok? ==> RowOf(generators, renewable, d, r.value)
    {
      var (timestamp, currentDemand) := d;
      var found := Find(renewable, timestamp);
      FindPresent(renewable, timestamp);
      if found.None? {
        return Err(RowKeyError(timestamp));
      }
      var currentRenewable := found.value;
      var residual := currentDemand - currentRenewable;
      var dispatch := OptimizeDispatch(residual);
      var totalCost := DispatchCost(SortByCost(generators), dispatch);
      r := Ok(DispatchRow(timestamp, currentDemand, currentRenewable, residual, dispatch, totalCost));
    }
  }
}
