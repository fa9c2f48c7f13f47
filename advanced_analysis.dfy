// The key performance metrics of a results table: growth and reduction
// between its first and last rows, the total investment and the mean levelised
// cost.

module AdvancedAnalysis {
  import opened Common

  /** One year of the results table, with the columns the metrics read. */
  datatype ResultsRow = ResultsRow(
    year: int,
    renewableShare: real,
    emissions: real,
    investment: real,
    lcoe: real,
    waterUse: real,
    employment: real)

  datatype Metrics = Metrics(
    renewableShareGrowth: real,   // percentage points
    emissionsReduction: real,     // millions
    totalInvestment: real,        // billions
    avgLcoe: real,
    waterUseReduction: real,      // millions
    employmentGrowth: real)       // thousands

  function Investments(rows: seq<ResultsRow>): (r: seq<real>)
    ensures |r| == |rows| && forall i :: 0 <= i < |rows| ==> r[i] == rows[i].investment
  {
    seq(|rows|, i requires 0 <= i < |rows| => rows[i].investment)
  }

  function Lcoes(rows: seq<ResultsRow>): (r: seq<real>)
    ensures |r| == |rows| && forall i :: 0 <= i < |rows| ==> r[i] == rows[i].lcoe
  {
    seq(|rows|, i requires 0 <= i < |rows| => rows[i].lcoe)
  }

  /** `calculate_metrics`. The results table is the drivers' run table, a
      frame built from a dictionary of column lists, so an empty one still
      has its columns: the first positional read,
      `results['renewable_share'].iloc[-1]`, raises IndexError. */
  function MetricsOf(rows: seq<ResultsRow>): (r: Result<Metrics>)
    ensures r.Err? <==> |rows| == 0
    ensures r.Err? ==> r.error == IndexError
  {
    if |rows| == 0 then Err(IndexError)
    else
      var first, last := rows[0], rows[|rows| - 1];
      Ok(Metrics(
        (last.renewableShare - first.renewableShare) * 100.0,
        (first.emissions - last.emissions) / 1.0e6,
        Sum(Investments(rows)) / 1.0e9,
        Sum(Lcoes(rows)) / |rows| as real,
        (first.waterUse - last.waterUse) / 1.0e6,
        (last.employment - first.employment) / 1.0e3))
  }

  /** Each first-to-last metric has the sign of its change: growth is
      positive exactly when the last row is above the first, reduction
      exactly when it is below; a single row changes nothing. */
  lemma MetricsSigns(rows: seq<ResultsRow>)
    requires |rows| > 0
    ensures var m := MetricsOf(rows).value; var first, last := rows[0], rows[|rows| - 1];
      (m.renewableShareGrowth > 0.0 <==> last.renewableShare > first.renewableShare) &&
      (m.emissionsReduction > 0.0 <==> last.emissions < first.emissions) &&
      (m.waterUseReduction > 0.0 <==> last.waterUse < first.waterUse) &&
      (m.employmentGrowth > 0.0 <==> last.employment > first.employment) &&
      (|rows| == 1 ==> m.renewableShareGrowth == 0.0 && m.emissionsReduction == 0.0 &&
                       m.waterUseReduction == 0.0 && m.employmentGrowth == 0.0)
  {
  }

  /** Positive yearly investments give a positive total. */
  lemma TotalInvestmentPositive(rows: seq<ResultsRow>)
    requires |rows| > 0 && forall i :: 0 <= i < |rows| ==> rows[i].investment > 0.0
    ensures MetricsOf(rows).value.totalInvestment > 0.0
  {
    var s := Investments(rows);
    var n := |rows| - 1;
    SumNonNegative(s[..n]);
    assert Sum(s) == Sum(s[..n]) + s[n];
  }

  /** The mean levelised cost lies between the smallest and largest yearly
      costs: between any bounds that hold for every row. */
  lemma AvgLcoeBetween(rows: seq<ResultsRow>, lo: real, hi: real)
    requires |rows| > 0 && forall i :: 0 <= i < |rows| ==> lo <= rows[i].lcoe <= hi
    ensures lo <= MetricsOf(rows).value.avgLcoe <= hi
  {
    var n := |rows|;
    var s := Lcoes(rows);
    SumMonotone(Repeat(lo, n), s);
    SumMonotone(s, Repeat(hi, n));
    SumRepeat(lo, n);
    SumRepeat(hi, n);
    DivideBetween(Sum(s), n as real, lo, hi);
  }

  lemma DivideBetween(x: real, n: real, lo: real, hi: real)
    requires n > 0.0 && n * lo <= x <= n * hi
    ensures lo <= x / n <= hi
  {
    assert x / n - lo == (x - n * lo) / n;
    assert hi - x / n == (n * hi - x) / n;
  }
}
