// The national energy-system model: an hourly time index over the planning
// horizon, one capacity column and one generation column per
// (technology, region) pair, seeded with the 2024 solar fleet, and the
// yearly generation simulation, capacity additions, renewable share and
// summary computed from those tables.

module EnergySystem {
  import opened Common

  // ---------------------------------------------------------------------
  // Configuration

  /** A technology entry; only the capacity factor is read by this model,
      and battery storage has none. */
  datatype TechSpec = TechSpec(name: string, capacityFactor: Option<real>)

  datatype Config = Config(
    startYear: int,
    endYear: int,
    regions: seq<string>,
    technologies: seq<TechSpec>)

  function DefaultRegions(): seq<string>
  {
    ["Dhaka", "Chittagong", "Khulna", "Rajshahi", "Sylhet", "Barishal", "Rangpur", "Mymensingh"]
  }

  function DefaultConfig(): Config
  {
    Config(2024, 2050, DefaultRegions(),
      [TechSpec("solar_pv", Some(0.15)),
       TechSpec("wind", Some(0.25)),
       TechSpec("biomass", Some(0.75)),
       TechSpec("battery_storage", None)])
  }

  /** The hourly index runs from January 1 of the first year to December 31
      of the last; an inverted horizon gives an empty index, which the seeding
      step cannot write into. */
  predicate ValidConfig(c: Config)
  {
    c.startYear <= c.endYear
  }

  // ---------------------------------------------------------------------
  // Calendar of the hourly index

  predicate IsLeap(y: int)
  {
    y % 4 == 0 && (y % 100 != 0 || y % 400 == 0)
  }

  function HoursIn(y: int): (h: nat)
    ensures h == 8760 || h == 8784
  {
    if IsLeap(y) then 8784 else 8760
  }

  /** Hours from January 1, 00:00 of `start` to January 1, 00:00 of `y`. */
  function YearOffset(start: int, y: int): nat
    requires start <= y
    decreases y - start
  {
    if y == start then 0 else YearOffset(start, y - 1) + HoursIn(y - 1)
  }

  lemma {:induction false} YearOffsetGrows(start: int, a: int, b: int)
    requires start <= a < b
    ensures YearOffset(start, a) + HoursIn(a) <= YearOffset(start, b)
    decreases b - a
  {
    if b > a + 1 {
      YearOffsetGrows(start, a, b - 1);
    }
  }

  /** The index ends at December 31, 00:00 of the last year, so that year
      contributes 23 hours fewer than a full year. */
  function NumBuckets(c: Config): (n: nat)
    requires ValidConfig(c)
    ensures n >= 1
  {
    YearOffset(c.startYear, c.endYear) + HoursIn(c.endYear) - 23
  }

  predicate InRange(c: Config, y: int)
  {
    c.startYear <= y <= c.endYear
  }

  /** First bucket of the mask `Jan 1 <= t <= Dec 31` (both at 00:00). */
  function MaskStart(c: Config, y: int): nat
  {
    if InRange(c, y) then YearOffset(c.startYear, y) else 0
  }

  /** Number of buckets in that mask: every hour from January 1, 00:00 to
      December 31, 00:00 inclusive; years outside the index have none. */
  function MaskLen(c: Config, y: int): nat
  {
    if InRange(c, y) then HoursIn(y) - 23 else 0
  }

  predicate InMask(c: Config, y: int, i: nat)
  {
    MaskStart(c, y) <= i < MaskStart(c, y) + MaskLen(c, y)
  }

  /** The bucket of December 31, 00:00 of an indexed year. */
  function YearEndRow(c: Config, y: int): (i: nat)
    requires InRange(c, y)
    ensures InMask(c, y, i)
    ensures i < NumBuckets(c)
  {
    MaskFits(c, y);
    YearOffset(c.startYear, y) + HoursIn(y) - 24
  }

  lemma MaskFits(c: Config, y: int)
    requires ValidConfig(c)
    ensures MaskStart(c, y) + MaskLen(c, y) <= NumBuckets(c)
  {
    if InRange(c, y) && y < c.endYear {
      YearOffsetGrows(c.startYear, y, c.endYear);
    }
  }

  /** The 23 buckets from December 31, 01:00 to 23:00 of a year belong to no
      year's mask: the summaries and the simulation never see them. */
  lemma Dec31LateHoursUnmasked(c: Config, y: int, i: nat, other: int)
    requires InRange(c, y)
    requires YearOffset(c.startYear, y) + HoursIn(y) - 24 < i < YearOffset(c.startYear, y) + HoursIn(y)
    ensures !InMask(c, other, i)
  {
    if InRange(c, other) {
      var sy, so := YearOffset(c.startYear, y), YearOffset(c.startYear, other);
      assert MaskStart(c, other) == so && MaskLen(c, other) == HoursIn(other) - 23;
      if other < y {
        YearOffsetGrows(c.startYear, other, y);
        assert so + HoursIn(other) <= sy;
      } else if other > y {
        YearOffsetGrows(c.startYear, y, other);
        assert sy + HoursIn(y) <= so;
      }
    }
  }

  /** First bucket of the mask `t >= Jan 1 of y` used by add_capacity. */
  function FromBucket(c: Config, y: int): (k: nat)
    requires ValidConfig(c)
    ensures k <= NumBuckets(c)
    ensures y > c.startYear ==> k > 0
  {
    if y <= c.startYear then 0
    else if y > c.endYear then NumBuckets(c)
    else
      MaskFits(c, y);
      YearOffsetGrows(c.startYear, c.startYear, y);
      YearOffset(c.startYear, y)
  }

  // ---------------------------------------------------------------------
  // Columns: technology-major, one per (technology, region)

  /** `[f(tech, region) for tech in technologies for region in regions]`. */
  function PerColumn<X>(techs: seq<TechSpec>, regions: seq<string>, f: (TechSpec, string) -> X): (r: seq<X>)
    ensures |r| == Area(|techs|, |regions|)
  {
    if |techs| == 0 then []
    else
      var block := seq(|regions|, k requires 0 <= k < |regions| => f(techs[0], regions[k]));
      var rest := PerColumn(techs[1..], regions, f);
      MulStep(|techs|, |regions|);
      block + rest
  }

  /** Column t * |regions| + r belongs to technology t and region r. */
  lemma {:induction false} PerColumnAt<X>(techs: seq<TechSpec>, regions: seq<string>,
                                          f: (TechSpec, string) -> X, t: nat, r: nat)
    requires t < |techs| && r < |regions|
    ensures t * |regions| + r < |PerColumn(techs, regions, f)|
    ensures PerColumn(techs, regions, f)[t * |regions| + r] == f(techs[t], regions[r])
  {
    var n := |regions|;
    var block := seq(n, k requires 0 <= k < n => f(techs[0], regions[k]));
    var rest := PerColumn(techs[1..], regions, f);
    assert PerColumn(techs, regions, f) == block + rest;
    if t == 0 {
      assert t * n + r == r;
    } else {
      PerColumnAt(techs[1..], regions, f, t - 1, r);
      var i := (t - 1) * n + r;
      MulStep(t, n);
      assert t * n + r == n + i;
      assert techs[1..][t - 1] == techs[t];
      assert (block + rest)[n + i] == rest[i];
    }
  }

  /** The number of columns of `t` technologies over `n` regions. */
  function Area(t: nat, n: nat): nat
  {
    t * n
  }

  lemma MulStep(t: int, n: int)
    ensures t * n == (t - 1) * n + n
  {
  }

  /** The block of columns of technology t ends within the table. */
  lemma BlockFits(t: nat, m: nat, n: nat)
    requires t < m
    ensures t * n + n == (t + 1) * n <= m * n
  {
    MulStep(t + 1, n);
    MulMonotone(t + 1, m, n);
  }

  lemma {:induction false} MulMonotone(a: nat, b: nat, n: nat)
    requires a <= b
    ensures a * n <= b * n
    decreases b - a
  {
    if a < b {
      MulMonotone(a + 1, b, n);
      MulStep(a + 1, n);
    }
  }

  function ColumnName(t: TechSpec, region: string): string
  {
    t.name + "_" + region
  }

  function ColumnFactor(t: TechSpec, region: string): Option<real>
  {
    t.capacityFactor
  }

  function Columns(c: Config): seq<string>
  {
    PerColumn(c.technologies, c.regions, ColumnName)
  }

  /** The capacity factor looked up for each column (None: KeyError). */
  function ColumnFactors(c: Config): seq<Option<real>>
  {
    PerColumn(c.technologies, c.regions, ColumnFactor)
  }

  /** Position of the first column with this name; None is a KeyError. */
  function Position(names: seq<string>, name: string): (r: Option<nat>)
    ensures r.Some? ==> r.value < |names| && names[r.value] == name
    ensures r.None? <==> name !in names
  {
    if |names| == 0 then None
    else if names[0] == name then Some(0)
    else match Position(names[1..], name)
      case None => None
      case Some(j) => Some(j + 1)
  }

  // ---------------------------------------------------------------------
  // Tables: column-major, NaN cells as None

  type Table = seq<seq<Option<real>>>

  predicate IsTable(t: Table, cols: nat, rows: nat)
  {
    |t| == cols && forall c :: 0 <= c < cols ==> |t[c]| == rows
  }

  function EmptyTable(cols: nat, rows: nat): (t: Table)
    ensures IsTable(t, cols, rows)
  {
    seq(cols, c => seq(rows, i => None))
  }

  /** A cell's contribution to a pandas sum: NaN is skipped. */
  function Val(x: Option<real>): real
  {
    if x.Some? then x.value else 0.0
  }

  /** NaN propagates through arithmetic. */
  function AddOpt(x: Option<real>, y: real): Option<real>
  {
    if x.Some? then Some(x.value + y) else None
  }

  function MulOpt(x: Option<real>, y: real): Option<real>
  {
    if x.Some? then Some(x.value * y) else None
  }

  predicate NonNegativeCells(t: Table)
  {
    forall c, i :: 0 <= c < |t| && 0 <= i < |t[c]| && t[c][i].Some? ==> t[c][i].value >= 0.0
  }

  /** Sum of a column over the buckets [lo, lo + len). */
  function MaskSum(col: seq<Option<real>>, lo: nat, len: nat): real
    requires lo + len <= |col|
  {
    Sum(seq(len, k requires 0 <= k < len => Val(col[lo + k])))
  }

  function ColumnTotals(t: Table, lo: nat, len: nat): (s: seq<real>)
    requires forall c :: 0 <= c < |t| ==> lo + len <= |t[c]|
    ensures |s| == |t|
  {
    seq(|t|, c requires 0 <= c < |t| => MaskSum(t[c], lo, len))
  }

  lemma MaskSumNonNegative(col: seq<Option<real>>, lo: nat, len: nat)
    requires lo + len <= |col|
    requires forall i :: 0 <= i < |col| && col[i].Some? ==> col[i].value >= 0.0
    ensures MaskSum(col, lo, len) >= 0.0
  {
    var s := seq(len, k requires 0 <= k < len => Val(col[lo + k]));
    assert forall k :: 0 <= k < len ==> s[k] >= 0.0 by {
      forall k | 0 <= k < len ensures s[k] >= 0.0 {
        assert s[k] == Val(col[lo + k]);
      }
    }
    SumNonNegative(s);
  }

  /** One row of the table, column by column. */
  function RowValues(t: Table, i: nat): (s: seq<real>)
    requires forall c :: 0 <= c < |t| ==> i < |t[c]|
    ensures |s| == |t|
  {
    seq(|t|, c requires 0 <= c < |t| => Val(t[c][i]))
  }

  // ---------------------------------------------------------------------
  // Initial solar fleet

  /** Regional shares of the 946 MW installed solar capacity of 2024. */
  function SolarDistribution(): seq<(string, real)>
  {
    [("Dhaka", 0.15), ("Chittagong", 0.20), ("Khulna", 0.15), ("Rajshahi", 0.15),
     ("Sylhet", 0.10), ("Barishal", 0.10), ("Rangpur", 0.10), ("Mymensingh", 0.05)]
  }

  const InitialSolarMw: real := 946.0

  function SolarColumn(k: nat): string
    requires k < |SolarDistribution()|
  {
    "solar_pv_" + SolarDistribution()[k].0
  }

  function SolarSeed(k: nat): real
    requires k < |SolarDistribution()|
  {
    InitialSolarMw * SolarDistribution()[k].1
  }

  /** How many leading distribution entries have a column; the next one (if
      any) raises KeyError. */
  function SeedableCount(names: seq<string>): (n: nat)
    ensures n <= |SolarDistribution()|
    ensures forall k :: 0 <= k < n ==> SolarColumn(k) in names
    ensures n < |SolarDistribution()| ==> SolarColumn(n) !in names
  {
    SeedableFrom(names, 0)
  }

  function SeedableFrom(names: seq<string>, k: nat): (n: nat)
    requires k <= |SolarDistribution()|
    requires forall j :: 0 <= j < k ==> SolarColumn(j) in names
    ensures k <= n <= |SolarDistribution()|
    ensures forall j :: 0 <= j < n ==> SolarColumn(j) in names
    ensures n < |SolarDistribution()| ==> SolarColumn(n) !in names
    decreases |SolarDistribution()| - k
  {
    if k == |SolarDistribution()| || SolarColumn(k) !in names then k
    else SeedableFrom(names, k + 1)
  }

  lemma SeedingContinues(names: seq<string>, k: nat)
    requires k < |SolarDistribution()| && k <= SeedableCount(names) && SolarColumn(k) in names
    ensures k < SeedableCount(names)
  {
  }

  lemma SeedingStops(names: seq<string>, k: nat)
    requires k < |SolarDistribution()| && k <= SeedableCount(names) && SolarColumn(k) !in names
    ensures k == SeedableCount(names)
  {
  }

  lemma SolarColumnsDistinct(j: nat, k: nat)
    requires j < k < |SolarDistribution()|
    ensures SolarColumn(j) != SolarColumn(k)
  {
    var p := "solar_pv_";
    assert SolarColumn(j)[|p|..] == SolarDistribution()[j].0;
    assert SolarColumn(k)[|p|..] == SolarDistribution()[k].0;
    assert Keys(SolarDistribution()) == DefaultRegions();
  }

  function SetCell(t: Table, c: nat, i: nat, v: Option<real>): (r: Table)
    requires c < |t| && i < |t[c]|
    ensures |r| == |t| && forall d :: 0 <= d < |t| ==> |r[d]| == |t[d]|
  {
    t[c := t[c][i := v]]
  }

  /** The table after the first n seeding writes. */
  function Seeded(t: Table, names: seq<string>, n: nat): (r: Table)
    requires |t| == |names| && n <= |SolarDistribution()|
    requires forall c :: 0 <= c < |t| ==> |t[c]| >= 1
    requires forall k :: 0 <= k < n ==> SolarColumn(k) in names
    ensures |r| == |t| && forall c :: 0 <= c < |t| ==> |r[c]| == |t[c]|
    ensures forall k :: 0 <= k < n ==> r[Position(names, SolarColumn(k)).value][0] == Some(SolarSeed(k))
    ensures forall c, i :: 0 <= c < |t| && 0 <= i < |t[c]| &&
              (i != 0 || forall k :: 0 <= k < n ==> c != Position(names, SolarColumn(k)).value)
              ==> r[c][i] == t[c][i]
  {
    if n == 0 then t
    else
      var prev := Seeded(t, names, n - 1);
      var c := Position(names, SolarColumn(n - 1)).value;
      SeedPositionsDistinct(names, n - 1);
      SetCell(prev, c, 0, Some(SolarSeed(n - 1)))
  }

  /** One more seeding write keeps the shape of a table. */
  lemma SeededStep(t: Table, names: seq<string>, k: nat, rows: nat)
    requires IsTable(t, |names|, rows) && rows >= 1 && k < |SolarDistribution()|
    requires forall j :: 0 <= j <= k ==> SolarColumn(j) in names
    ensures Position(names, SolarColumn(k)).Some?
    ensures Seeded(t, names, k + 1) ==
            SetCell(Seeded(t, names, k), Position(names, SolarColumn(k)).value, 0, Some(SolarSeed(k)))
    ensures IsTable(Seeded(t, names, k + 1), |names|, rows)
  {
  }

  lemma SeedPositionsDistinct(names: seq<string>, m: nat)
    requires m < |SolarDistribution()|
    requires forall k :: 0 <= k <= m ==> SolarColumn(k) in names
    ensures forall k :: 0 <= k < m ==>
              Position(names, SolarColumn(k)).value != Position(names, SolarColumn(m)).value
  {
    forall k | 0 <= k < m
      ensures Position(names, SolarColumn(k)).value != Position(names, SolarColumn(m)).value
    {
      SolarColumnsDistinct(k, m);
    }
  }

  /** The shares split the whole 946 MW. */
  lemma {:induction false} SolarSharesSumToWhole()
    ensures Sum(Values(SolarDistribution())) == 1.0
    ensures Sum(seq(|SolarDistribution()|, k requires 0 <= k < |SolarDistribution()| => SolarSeed(k))) == InitialSolarMw
  {
    var v := Values(SolarDistribution());
    assert v == [0.15, 0.20, 0.15, 0.15] + [0.10, 0.10, 0.10, 0.05];
    SumAppend([0.15, 0.20, 0.15, 0.15], [0.10, 0.10, 0.10, 0.05]);
    SumOfFour(0.15, 0.20, 0.15, 0.15);
    SumOfFour(0.10, 0.10, 0.10, 0.05);
    var s := seq(|SolarDistribution()|, k requires 0 <= k < |SolarDistribution()| => SolarSeed(k));
    SumScaled(v, InitialSolarMw, s);
  }

  lemma SumOfFour(a: real, b: real, c: real, d: real)
    ensures Sum([a, b, c, d]) == a + b + c + d
  {
    assert [a][..0] == [];
    assert Sum([a]) == a;
    assert [a, b][..1] == [a];
    assert Sum([a, b]) == a + b;
    assert [a, b, c][..2] == [a, b];
    assert Sum([a, b, c]) == a + b + c;
    assert [a, b, c, d][..3] == [a, b, c];
  }

  /** Every default region has its solar column, so seeding succeeds. */
  lemma DefaultSeedingSucceeds()
    ensures SeedableCount(Columns(DefaultConfig())) == |SolarDistribution()|
  {
    var c := DefaultConfig();
    assert Keys(SolarDistribution()) == c.regions;
    forall k | 0 <= k < |SolarDistribution()|
      ensures SolarColumn(k) in Columns(c)
    {
      PerColumnAt(c.technologies, c.regions, ColumnName, 0, k);
      assert ColumnName(c.technologies[0], c.regions[k]) == "solar_pv" + "_" + c.regions[k];
      assert "solar_pv" + "_" + c.regions[k] == "solar_pv_" + c.regions[k];
    }
  }

  /** With the default technologies, battery storage (the fourth block of
      eight columns) has no capacity factor: the first 24 columns are
      simulated and the 25th raises KeyError. */
  lemma DefaultSimulationStopsAtBattery()
    ensures FirstMissing(ColumnFactors(DefaultConfig())) == 24
  {
    var c := DefaultConfig();
    var f := ColumnFactors(c);
    forall k | 0 <= k < 24
      ensures f[k].Some?
    {
      PerColumnAt(c.technologies, c.regions, ColumnFactor, k / 8, k % 8);
    }
    PerColumnAt(c.technologies, c.regions, ColumnFactor, 3, 0);
    FirstMissingUnique(f, 24);
  }

  // ---------------------------------------------------------------------
  // Generation of one column for one year

  /** Columns before the first one whose technology has no capacity factor. */
  function FirstMissing(f: seq<Option<real>>): (p: nat)
    ensures p <= |f|
    ensures forall k :: 0 <= k < p ==> f[k].Some?
    ensures p < |f| ==> f[p].None?
  {
    if |f| == 0 || f[0].None? then 0 else FirstMissing(f[1..]) + 1
  }

  lemma FirstMissingUnique(f: seq<Option<real>>, p: nat)
    requires p <= |f|
    requires forall k :: 0 <= k < p ==> f[k].Some?
    requires p < |f| ==> f[p].None?
    ensures FirstMissing(f) == p
  {
  }

  /** One simulated cell: capacity times the noisy capacity factor clipped
      to [0, 1]; a missing capacity stays missing. */
  function SimCell(cap: Option<real>, cf: real, noise: real): (r: Option<real>)
    ensures r.Some? <==> cap.Some?
    ensures cap.Some? && cap.value >= 0.0 ==> 0.0 <= r.value <= cap.value
  {
    if cap.None? then None
    else
      var e := Clip(cf + noise, 0.0, 1.0);
      var x := cap.value;
      ScaleWithinUnit(x, e);
      Some(x * e)
  }

  /** The generation column after simulating one year: simulated cells inside
      the mask, the old generation outside. */
  function SimColumn(cap: seq<Option<real>>, gen: seq<Option<real>>, cf: real,
                     noise: seq<real>, lo: nat, len: nat): (r: seq<Option<real>>)
    requires |cap| == |gen| && lo + len <= |gen| && |noise| == len
    ensures |r| == |gen|
    ensures forall i :: 0 <= i < |gen| && !(lo <= i < lo + len) ==> r[i] == gen[i]
    ensures forall i :: lo <= i < lo + len ==> r[i] == SimCell(cap[i], cf, noise[i - lo])
  {
    seq(|gen|, i requires 0 <= i < |gen| =>
      if lo <= i < lo + len then SimCell(cap[i], cf, noise[i - lo]) else gen[i])
  }

  lemma ScaleWithinUnit(x: real, e: real)
    requires 0.0 <= e <= 1.0
    ensures x >= 0.0 ==> 0.0 <= x * e <= x
  {
    assert x - x * e == x * (1.0 - e);
  }

  /** Shapes that simulating needs: one capacity column, one capacity factor
      and one noise row per generation column, and the mask inside the index. */
  predicate SimInputs(gen: Table, cap: Table, f: seq<Option<real>>, noise: seq<seq<real>>,
                      lo: nat, len: nat)
  {
    |cap| == |gen| == |f| == |noise| &&
    forall c :: 0 <= c < |gen| ==> |cap[c]| == |gen[c]| && lo + len <= |gen[c]| && |noise[c]| == len
  }

  /** The generation table once the first p columns are simulated. */
  function Simulated(gen: Table, cap: Table, f: seq<Option<real>>, noise: seq<seq<real>>,
                     lo: nat, len: nat, p: nat): (r: Table)
    requires SimInputs(gen, cap, f, noise, lo, len) && p <= |gen|
    requires forall k :: 0 <= k < p ==> f[k].Some?
    ensures |r| == |gen| && forall c :: 0 <= c < |gen| ==> |r[c]| == |gen[c]|
  {
    seq(|gen|, c requires 0 <= c < |gen| =>
      if c < p then SimColumn(cap[c], gen[c], f[c].value, noise[c], lo, len) else gen[c])
  }

  lemma SimulatedStep(gen: Table, cap: Table, f: seq<Option<real>>, noise: seq<seq<real>>,
                      lo: nat, len: nat, p: nat)
    requires SimInputs(gen, cap, f, noise, lo, len) && p < |gen|
    requires forall k :: 0 <= k <= p ==> f[k].Some?
    ensures Simulated(gen, cap, f, noise, lo, len, p)[p] == gen[p]
    ensures Simulated(gen, cap, f, noise, lo, len, p)[p := SimColumn(cap[p], gen[p], f[p].value, noise[p], lo, len)]
            == Simulated(gen, cap, f, noise, lo, len, p + 1)
  {
  }

  /** Simulating keeps generation non-negative when capacity is. */
  lemma SimulatedNonNegative(gen: Table, cap: Table, f: seq<Option<real>>, noise: seq<seq<real>>,
                             lo: nat, len: nat, p: nat)
    requires SimInputs(gen, cap, f, noise, lo, len) && p <= |gen|
    requires forall k :: 0 <= k < p ==> f[k].Some?
    requires NonNegativeCells(gen) && NonNegativeCells(cap)
    ensures NonNegativeCells(Simulated(gen, cap, f, noise, lo, len, p))
  {
  }

  /** One draw of noise per bucket of the year's mask, per column. */
  predicate NoiseFits(c: Config, year: int, noise: seq<seq<real>>)
  {
    |noise| == |Columns(c)| &&
    forall k :: 0 <= k < |noise| ==> |noise[k]| == MaskLen(c, year)
  }

  // ---------------------------------------------------------------------
  // Renewable share and summary

  /** Python's substring test `p in s`. */
  predicate Contains(s: string, p: string)
    decreases |s|
  {
    p <= s || (|s| > 0 && Contains(s[1..], p))
  }

  /** A column counts as renewable when its name contains one of the three
      renewable technology names. */
  predicate IsRenewableColumn(name: string)
  {
    Contains(name, "solar_pv") || Contains(name, "wind") || Contains(name, "biomass")
  }

  function RenewableOnly(names: seq<string>, totals: seq<real>): (s: seq<real>)
    requires |names| == |totals|
    ensures |s| == |totals|
  {
    seq(|totals|, c requires 0 <= c < |totals| => if IsRenewableColumn(names[c]) then totals[c] else 0.0)
  }

  /** `ren / total if total > 0 else 0`. */
  function ShareOf(ren: real, total: real): (r: real)
    ensures 0.0 <= ren <= total ==> 0.0 <= r <= 1.0
    ensures total <= 0.0 ==> r == 0.0
    ensures total > 0.0 ==> r * total == ren
  {
    if total > 0.0 then ren / total else 0.0
  }

  /** With no negative cell, the renewable part is between 0 and the total. */
  lemma RenewableWithinTotal(t: Table, names: seq<string>, lo: nat, len: nat)
    requires |names| == |t|
    requires forall c :: 0 <= c < |t| ==> lo + len <= |t[c]|
    ensures NonNegativeCells(t) ==>
              0.0 <= Sum(RenewableOnly(names, ColumnTotals(t, lo, len))) <= Sum(ColumnTotals(t, lo, len))
  {
    var totals := ColumnTotals(t, lo, len);
    if NonNegativeCells(t) {
      forall c | 0 <= c < |totals| ensures totals[c] >= 0.0 {
        MaskSumNonNegative(t[c], lo, len);
      }
      SumNonNegative(RenewableOnly(names, totals));
      SumMonotone(RenewableOnly(names, totals), totals);
    }
  }

  /** `name.split('_')[0]`: the text before the first underscore. */
  function TechKey(name: string): string
  {
    if |name| == 0 || name[0] == '_' then ""
    else [name[0]] + TechKey(name[1..])
  }

  /** The key is the text up to, not including, the first underscore, or
      the whole name when it has none. */
  lemma {:induction false} TechKeyIsPrefix(name: string)
    ensures '_' !in TechKey(name)
    ensures '_' in name ==> TechKey(name) + "_" <= name
    ensures '_' !in name ==> TechKey(name) == name
  {
    if |name| > 0 && name[0] != '_' {
      TechKeyIsPrefix(name[1..]);
      assert name == [name[0]] + name[1..];
    }
  }

  lemma {:induction false} TechKeyOfJoined(p: string, rest: string)
    requires '_' !in p
    ensures TechKey(p + "_" + rest) == p
  {
    if |p| > 0 {
      assert (p + "_" + rest)[1..] == p[1..] + "_" + rest;
      TechKeyOfJoined(p[1..], rest);
      assert p == [p[0]] + p[1..];
    } else {
      assert p + "_" + rest == "_" + rest;
    }
  }

  /** Summary keys are the text before the first underscore, so the solar
      and battery columns are reported as "solar" and "battery", names the
      cost tables do not know. */
  lemma TechKeyExamples()
    ensures TechKey("solar_pv_Dhaka") == "solar"
    ensures TechKey("battery_storage_Sylhet") == "battery"
    ensures TechKey("wind_Khulna") == "wind"
  {
    assert "solar_pv_Dhaka" == "solar" + "_" + "pv_Dhaka";
    TechKeyOfJoined("solar", "pv_Dhaka");
    assert "battery_storage_Sylhet" == "battery" + "_" + "storage_Sylhet";
    TechKeyOfJoined("battery", "storage_Sylhet");
    assert "wind_Khulna" == "wind" + "_" + "Khulna";
    TechKeyOfJoined("wind", "Khulna");
  }

  /** The group key of every column. */
  function TechKeys(names: seq<string>): (ks: seq<string>)
    ensures |ks| == |names|
    ensures forall i :: 0 <= i < |names| ==> ks[i] == TechKey(names[i])
  {
    seq(|names|, i requires 0 <= i < |names| => TechKey(names[i]))
  }

  /** The summing step of `groupby(key).sum()`: values summed per key,
      groups in order of first appearance (GroupByPrefix then sorts them). */
  function GroupBy<K(==)>(keys: seq<K>, vals: seq<real>): seq<(K, real)>
    requires |keys| == |vals|
  {
    if |keys| == 0 then []
    else AddTo(GroupBy(keys[..|keys| - 1], vals[..|vals| - 1]), keys[|keys| - 1], vals[|vals| - 1])
  }

  /** Sum of the values whose key is k. */
  function KeyTotal<K(==)>(keys: seq<K>, vals: seq<real>, k: K): real
    requires |keys| == |vals|
  {
    if |keys| == 0 then 0.0
    else KeyTotal(keys[..|keys| - 1], vals[..|vals| - 1], k)
         + (if keys[|keys| - 1] == k then vals[|vals| - 1] else 0.0)
  }

  /** Python's `<` on strings: code point by code point, a proper prefix
      coming first. */
  predicate StrLess(a: string, b: string)
  {
    if |a| == 0 then |b| > 0
    else if |b| == 0 then false
    else a[0] < b[0] || (a[0] == b[0] && StrLess(a[1..], b[1..]))
  }

  /** Two different strings are ordered one way or the other. */
  lemma {:induction false} StrLessTotal(a: string, b: string)
    requires a != b
    ensures StrLess(a, b) || StrLess(b, a)
  {
    if |a| > 0 && |b| > 0 && a[0] == b[0] {
      assert a == [a[0]] + a[1..] && b == [b[0]] + b[1..];
      StrLessTotal(a[1..], b[1..]);
    }
  }

  /** Entries in strictly ascending key order. */
  predicate KeysAscending(d: seq<(string, real)>)
  {
    forall i :: 0 <= i < |d| - 1 ==> StrLess(d[i].0, d[i + 1].0)
  }

  /** One group put in its place among groups sorted by key. */
  function InsertByKey(p: (string, real), d: seq<(string, real)>): (r: seq<(string, real)>)
    ensures |r| == |d| + 1
  {
    if |d| == 0 then [p]
    else if StrLess(p.0, d[0].0) then [p] + d
    else [d[0]] + InsertByKey(p, d[1..])
  }

  /** The `sort=True` default of pandas' groupby: the groups ordered by key. */
  function SortByKey(d: seq<(string, real)>): (r: seq<(string, real)>)
    ensures |r| == |d|
  {
    if |d| == 0 then [] else InsertByKey(d[0], SortByKey(d[1..]))
  }

  /** Inserting a new key adds exactly that group. */
  lemma {:induction false} InsertByKeyFind(p: (string, real), d: seq<(string, real)>, k: string)
    requires p.0 !in Keys(d)
    ensures Find(InsertByKey(p, d), k) == if k == p.0 then Some(p.1) else Find(d, k)
  {
    var r := InsertByKey(p, d);
    if |d| > 0 {
      KeysFirst(d);
      if StrLess(p.0, d[0].0) {
        assert r[1..] == d;
      } else {
        assert r[0] == d[0] && r[1..] == InsertByKey(p, d[1..]);
        InsertByKeyFind(p, d[1..], k);
      }
    }
  }

  /** Inserting a group adds its value to the total. */
  lemma {:induction false} InsertByKeyTotal(p: (string, real), d: seq<(string, real)>)
    ensures Sum(Values(InsertByKey(p, d))) == p.1 + Sum(Values(d))
  {
    var r := InsertByKey(p, d);
    ValuesFirst(r);
    if |d| == 0 {
      assert r[1..] == [];
      SumFirst(p.1, []);
    } else {
      ValuesFirst(d);
      SumFirst(d[0].1, Values(d[1..]));
      if StrLess(p.0, d[0].0) {
        assert r[1..] == d;
        SumFirst(p.1, Values(d));
      } else {
        assert r[0] == d[0] && r[1..] == InsertByKey(p, d[1..]);
        InsertByKeyTotal(p, d[1..]);
        SumFirst(d[0].1, Values(r[1..]));
      }
    }
  }

  /** Inserting a new key into ascending groups keeps them ascending; the
      first group is the new one or the old first. */
  lemma {:induction false} InsertByKeyAscending(p: (string, real), d: seq<(string, real)>)
    requires KeysAscending(d) && p.0 !in Keys(d)
    ensures KeysAscending(InsertByKey(p, d))
    ensures InsertByKey(p, d)[0] == p || (|d| > 0 && InsertByKey(p, d)[0] == d[0])
  {
    var r := InsertByKey(p, d);
    if |d| > 0 && !StrLess(p.0, d[0].0) {
      KeysFirst(d);
      var rest := InsertByKey(p, d[1..]);
      assert r == [d[0]] + rest;
      InsertByKeyAscending(p, d[1..]);
      StrLessTotal(p.0, d[0].0);
      assert StrLess(d[0].0, rest[0].0);
      forall i | 0 <= i < |r| - 1
        ensures StrLess(r[i].0, r[i + 1].0)
      {
        if i > 0 {
          assert r[i] == rest[i - 1] && r[i + 1] == rest[i];
        }
      }
    }
  }

  /** Sorting groups with distinct keys keeps every group and its value. */
  lemma {:induction false} SortByKeyFind(d: seq<(string, real)>, k: string)
    requires DistinctKeys(d)
    ensures Find(SortByKey(d), k) == Find(d, k)
  {
    if |d| > 0 {
      var rest := d[1..];
      DistinctTail(d);
      SortByKeyFind(rest, d[0].0);
      FindPresent(rest, d[0].0);
      FindPresent(SortByKey(rest), d[0].0);
      InsertByKeyFind(d[0], SortByKey(rest), k);
      SortByKeyFind(rest, k);
    }
  }

  /** Sorting keeps the total. */
  lemma {:induction false} SortByKeyTotal(d: seq<(string, real)>)
    ensures Sum(Values(SortByKey(d))) == Sum(Values(d))
  {
    if |d| > 0 {
      SortByKeyTotal(d[1..]);
      InsertByKeyTotal(d[0], SortByKey(d[1..]));
      ValuesFirst(d);
      SumFirst(d[0].1, Values(d[1..]));
    }
  }

  /** Sorting groups with distinct keys puts them in strictly ascending key
      order. */
  lemma {:induction false} SortByKeyAscending(d: seq<(string, real)>)
    requires DistinctKeys(d)
    ensures KeysAscending(SortByKey(d))
  {
    if |d| > 0 {
      var rest := d[1..];
      DistinctTail(d);
      SortByKeyAscending(rest);
      SortByKeyFind(rest, d[0].0);
      FindPresent(rest, d[0].0);
      FindPresent(SortByKey(rest), d[0].0);
      InsertByKeyAscending(d[0], SortByKey(rest));
    }
  }

  /** The groups of `groupby(key).sum()` have distinct keys. */
  lemma {:induction false} GroupByDistinct<K>(keys: seq<K>, vals: seq<real>)
    requires |keys| == |vals|
    ensures DistinctKeys(GroupBy(keys, vals))
  {
    if |keys| > 0 {
      var n := |keys| - 1;
      GroupByDistinct(keys[..n], vals[..n]);
      AddToDistinct(GroupBy(keys[..n], vals[..n]), keys[n], vals[n]);
    }
  }

  /** Column values grouped by technology prefix; pandas sorts the group
      keys, so the groups come in ascending key order (for the default
      table: battery, biomass, solar, wind). */
  function GroupByPrefix(names: seq<string>, vals: seq<real>): seq<(string, real)>
    requires |names| == |vals|
  {
    SortByKey(GroupBy(TechKeys(names), vals))
  }

  /** One region's four default columns group as battery, biomass, solar,
      wind: the sorted keys, not the column order. */
  lemma GroupOrderExample()
    ensures GroupByPrefix(["solar_pv_Dhaka", "wind_Dhaka", "biomass_Dhaka", "battery_storage_Dhaka"],
                          [1.0, 2.0, 3.0, 4.0])
            == [("battery", 4.0), ("biomass", 3.0), ("solar", 1.0), ("wind", 2.0)]
  {
    ExampleKeys();
    ExampleGroups();
    ExampleSorted();
  }

  lemma ExampleKeys()
    ensures TechKeys(["solar_pv_Dhaka", "wind_Dhaka", "biomass_Dhaka", "battery_storage_Dhaka"])
            == ["solar", "wind", "biomass", "battery"]
  {
    ExampleKeysA();
    ExampleKeysB();
    KeysOfFour("solar_pv_Dhaka", "wind_Dhaka", "biomass_Dhaka", "battery_storage_Dhaka");
  }

  lemma ExampleKeysA()
    ensures TechKey("solar_pv_Dhaka") == "solar" && TechKey("wind_Dhaka") == "wind"
  {
    assert "solar_pv_Dhaka" == "solar" + "_" + "pv_Dhaka";
    TechKeyOfJoined("solar", "pv_Dhaka");
    assert "wind_Dhaka" == "wind" + "_" + "Dhaka";
    TechKeyOfJoined("wind", "Dhaka");
  }

  lemma ExampleKeysB()
    ensures TechKey("biomass_Dhaka") == "biomass" && TechKey("battery_storage_Dhaka") == "battery"
  {
    assert "biomass_Dhaka" == "biomass" + "_" + "Dhaka";
    TechKeyOfJoined("biomass", "Dhaka");
    assert "battery_storage_Dhaka" == "battery" + "_" + "storage_Dhaka";
    TechKeyOfJoined("battery", "storage_Dhaka");
  }

  lemma KeysOfFour(a: string, b: string, c: string, d: string)
    ensures TechKeys([a, b, c, d]) == [TechKey(a), TechKey(b), TechKey(c), TechKey(d)]
  {
  }

  lemma ExampleGroups()
    ensures GroupBy(["solar", "wind", "biomass", "battery"], [1.0, 2.0, 3.0, 4.0])
            == [("solar", 1.0), ("wind", 2.0), ("biomass", 3.0), ("battery", 4.0)]
  {
    var ks: seq<string> := ["solar", "wind", "biomass", "battery"];
    var vs := [1.0, 2.0, 3.0, 4.0];
    var s, w, bi, ba := ("solar", 1.0), ("wind", 2.0), ("biomass", 3.0), ("battery", 4.0);
    assert ks[..1][..0] == [] && vs[..1][..0] == [];
    assert GroupBy(ks[..1], vs[..1]) == [s];
    assert ks[..2][..1] == ks[..1] && vs[..2][..1] == vs[..1];
    assert GroupBy(ks[..2], vs[..2]) == AddTo([s], "wind", 2.0);
    assert AddTo([s], "wind", 2.0) == [s] + AddTo([], "wind", 2.0);
    assert ks[..3][..2] == ks[..2] && vs[..3][..2] == vs[..2];
    assert GroupBy(ks[..3], vs[..3]) == AddTo([s, w], "biomass", 3.0);
    assert [s, w][1..] == [w];
    assert AddTo([w], "biomass", 3.0) == [w, bi];
    assert AddTo([s, w], "biomass", 3.0) == [s, w, bi];
    assert ks[..3] == ks[..|ks| - 1] && vs[..3] == vs[..|vs| - 1];
    assert GroupBy(ks, vs) == AddTo([s, w, bi], "battery", 4.0);
    assert [s, w, bi][1..] == [w, bi] && [w, bi][1..] == [bi];
    assert AddTo([bi], "battery", 4.0) == [bi, ba];
    assert AddTo([w, bi], "battery", 4.0) == [w, bi, ba];
  }

  lemma ExampleSorted()
    ensures SortByKey([("solar", 1.0), ("wind", 2.0), ("biomass", 3.0), ("battery", 4.0)])
            == [("battery", 4.0), ("biomass", 3.0), ("solar", 1.0), ("wind", 2.0)]
  {
    var s, w, bi, ba := ("solar", 1.0), ("wind", 2.0), ("biomass", 3.0), ("battery", 4.0);
    var g: seq<(string, real)> := [s, w, bi, ba];
    assert !StrLess("biomass", "battery") && !StrLess("wind", "battery") && !StrLess("wind", "biomass");
    assert !StrLess("solar", "battery") && !StrLess("solar", "biomass") && StrLess("solar", "wind");
    assert g[3..] == [ba] && g[3..][1..] == [];
    assert SortByKey(g[3..]) == [ba];
    assert g[2..][1..] == g[3..];
    assert SortByKey(g[2..]) == InsertByKey(bi, [ba]);
    assert InsertByKey(bi, [ba]) == [ba, bi];
    assert g[1..][1..] == g[2..];
    assert SortByKey(g[1..]) == InsertByKey(w, [ba, bi]);
    assert [ba, bi][1..] == [bi];
    assert InsertByKey(w, [bi]) == [bi, w];
    assert InsertByKey(w, [ba, bi]) == [ba, bi, w];
    assert SortByKey(g) == InsertByKey(s, [ba, bi, w]);
    assert [ba, bi, w][1..] == [bi, w] && [bi, w][1..] == [w];
    assert InsertByKey(s, [w]) == [s, w];
    assert InsertByKey(s, [bi, w]) == [bi, s, w];
  }

  /** The prefix groups are in strictly ascending key order and add up to
      the values grouped. */
  lemma GroupByPrefixSortedTotal(names: seq<string>, vals: seq<real>)
    requires |names| == |vals|
    ensures KeysAscending(GroupByPrefix(names, vals))
    ensures Sum(Values(GroupByPrefix(names, vals))) == Sum(vals)
  {
    GroupByDistinct(TechKeys(names), vals);
    SortByKeyAscending(GroupBy(TechKeys(names), vals));
    SortByKeyTotal(GroupBy(TechKeys(names), vals));
    GroupByTotal(TechKeys(names), vals);
  }

  /** One value added to the groups, seen from group k. */
  lemma GroupStep<K>(g: seq<(K, real)>, key: K, v: real, k: K, before: real, had: bool)
    requires Find(g, k) == if had then Some(before) else None
    requires !had ==> before == 0.0
    ensures Find(AddTo(g, key, v), k) ==
            if had || key == k then Some(before + (if key == k then v else 0.0)) else None
  {
    AddToFind(g, key, v, k);
  }

  /** There is one group per key present, holding the sum of exactly the
      values with that key. */
  lemma {:induction false} GroupByFind<K>(keys: seq<K>, vals: seq<real>, k: K)
    requires |keys| == |vals|
    ensures Find(GroupBy(keys, vals), k) == if k in keys then Some(KeyTotal(keys, vals, k)) else None
    ensures k !in keys ==> KeyTotal(keys, vals, k) == 0.0
  {
    if |keys| > 0 {
      var n := |keys| - 1;
      var g, before, had := GroupBy(keys[..n], vals[..n]), KeyTotal(keys[..n], vals[..n], k), k in keys[..n];
      assert keys == keys[..n] + [keys[n]];
      assert (k in keys) == (had || keys[n] == k);
      assert GroupBy(keys, vals) == AddTo(g, keys[n], vals[n]);
      assert KeyTotal(keys, vals, k) == before + (if keys[n] == k then vals[n] else 0.0);
      GroupByFind(keys[..n], vals[..n], k);
      GroupStep(g, keys[n], vals[n], k, before, had);
    }
  }

  /** Grouping by prefix: a group exists exactly for the prefixes of the
      columns, and holds the sum of the columns with that prefix. */
  lemma GroupByPrefixFind(names: seq<string>, vals: seq<real>, k: string)
    requires |names| == |vals|
    ensures Find(GroupByPrefix(names, vals), k).Some? <==> exists i :: 0 <= i < |names| && TechKey(names[i]) == k
    ensures Find(GroupByPrefix(names, vals), k).Some? ==>
              Find(GroupByPrefix(names, vals), k).value == KeyTotal(TechKeys(names), vals, k)
  {
    var ks := TechKeys(names);
    GroupByFind(ks, vals, k);
    GroupByDistinct(ks, vals);
    SortByKeyFind(GroupBy(ks, vals), k);
    if k in ks {
      var i :| 0 <= i < |ks| && ks[i] == k;
      assert TechKey(names[i]) == k;
    }
  }

  /** Grouping neither loses nor invents quantity. */
  lemma {:induction false} GroupByTotal<K>(keys: seq<K>, vals: seq<real>)
    requires |keys| == |vals|
    ensures Sum(Values(GroupBy(keys, vals))) == Sum(vals)
  {
    if |keys| > 0 {
      var n := |keys| - 1;
      assert Sum(vals) == Sum(vals[..n]) + vals[n];
      GroupByTotal(keys[..n], vals[..n]);
      AddToTotal(GroupBy(keys[..n], vals[..n]), keys[n], vals[n]);
    }
  }

  datatype Summary = Summary(
    totalCapacity: real,
    totalGeneration: real,
    renewableShare: real,
    capacityByTechnology: seq<(string, real)>,
    generationByTechnology: seq<(string, real)>)

  /** The generation table after simulating one year: the columns before
      the first technology without a capacity factor get capacity times the
      noisy factor inside the year's mask, everything else is kept. */
  function SimulatedYear(c: Config, capacity: Table, generation: Table, noise: seq<seq<real>>, year: int): (g: Table)
    requires ValidConfig(c) && NoiseFits(c, year, noise)
    requires IsTable(capacity, |Columns(c)|, NumBuckets(c)) && IsTable(generation, |Columns(c)|, NumBuckets(c))
    ensures IsTable(g, |Columns(c)|, NumBuckets(c))
  {
    MaskFits(c, year);
    Simulated(generation, capacity, ColumnFactors(c), noise, MaskStart(c, year), MaskLen(c, year),
              FirstMissing(ColumnFactors(c)))
  }

  /** Generation of each column summed over the year's buckets. */
  function YearTotals(c: Config, t: Table, year: int): (s: seq<real>)
    requires ValidConfig(c) && |t| == |Columns(c)| && forall k :: 0 <= k < |t| ==> |t[k]| == NumBuckets(c)
    ensures |s| == |t|
  {
    MaskFits(c, year);
    ColumnTotals(t, MaskStart(c, year), MaskLen(c, year))
  }

  /** The yearly summary of a system with these tables, generation grouped
      by column prefix. A year outside the index has no December 31 row
      (KeyError). The capacity groups add up to the capacity in that row,
      the generation groups to the year's total generation, and the share
      is the renewable columns' part of that total. */
  function SummaryOf(c: Config, capacity: Table, generation: Table, year: int): (r: Result<Summary>)
    requires ValidConfig(c)
    requires IsTable(capacity, |Columns(c)|, NumBuckets(c)) && IsTable(generation, |Columns(c)|, NumBuckets(c))
    ensures r.Ok? <==> InRange(c, year)
    ensures r.Err? ==> r.error == RowKeyError(year)
    ensures r.Ok? ==> r.value.totalGeneration == Sum(YearTotals(c, generation, year))
    ensures r.Ok? ==> (r.value.renewableShare ==
      ShareOf(Sum(RenewableOnly(Columns(c), YearTotals(c, generation, year))), Sum(YearTotals(c, generation, year))))
    ensures r.Ok? ==> Sum(Values(r.value.capacityByTechnology)) == Sum(RowValues(capacity, YearEndRow(c, year)))
    ensures r.Ok? ==> Sum(Values(r.value.generationByTechnology)) == r.value.totalGeneration
    ensures r.Ok? ==> KeysAscending(r.value.capacityByTechnology) && KeysAscending(r.value.generationByTechnology)
  {
    if !InRange(c, year) then Err(RowKeyError(year))
    else
      MaskFits(c, year);
      var lo, len := MaskStart(c, year), MaskLen(c, year);
      var endRow := RowValues(capacity, YearEndRow(c, year));
      var genTotals := YearTotals(c, generation, year);
      GroupByPrefixSortedTotal(Columns(c), endRow);
      GroupByPrefixSortedTotal(Columns(c), genTotals);
      Ok(Summary(
        Sum(ColumnTotals(capacity, lo, len)),
        Sum(genTotals),
        ShareOf(Sum(RenewableOnly(Columns(c), genTotals)), Sum(genTotals)),
        GroupByPrefix(Columns(c), endRow),
        GroupByPrefix(Columns(c), genTotals)))
  }

  // ---------------------------------------------------------------------
  // The system

  class EnergySystem {
    const config: Config
    const columns: seq<string>
    const buckets: nat
    var capacity: Table
    var generation: Table

    ghost predicate Valid()
      reads this
    {
      ValidConfig(config) && columns == Columns(config) && buckets == NumBuckets(config) &&
      IsTable(capacity, |columns|, buckets) && IsTable(generation, |columns|, buckets)
    }

    /** Builds the empty capacity and generation tables over the hourly index. */
    constructor (cfg: Config)
      requires ValidConfig(cfg)
      ensures Valid() && config == cfg
      ensures capacity == EmptyTable(|columns|, buckets)
      ensures generation == EmptyTable(|columns|, buckets)
    {
      config := cfg;
      columns := Columns(cfg);
      buckets := NumBuckets(cfg);
      capacity := EmptyTable(|Columns(cfg)|, NumBuckets(cfg));
      generation := EmptyTable(|Columns(cfg)|, NumBuckets(cfg));
    }

    /** Writes each region's share of the 946 MW solar fleet into the first
        bucket of its solar column, in distribution order; a region without
        a column raises KeyError after the earlier regions were written. */
    method SetInitialCapacity() returns (o: Outcome)
      requires Valid()
      modifies this
      ensures Valid() && generation == old(generation)
      ensures capacity == Seeded(old(capacity), columns, SeedableCount(columns))
      ensures o == if SeedableCount(columns) == |SolarDistribution()| then Pass
                   else Fail(KeyError(SolarColumn(SeedableCount(columns))))
    {
      ghost var n := SeedableCount(columns);
      var table := capacity;
      var k := 0;
      while k < |SolarDistribution()| && SolarColumn(k) in columns
        invariant 0 <= k <= n
        invariant capacity == old(capacity) && generation == old(generation)
        invariant table == Seeded(capacity, columns, k)
        invariant IsTable(table, |columns|, buckets)
      {
        SeedingContinues(columns, k);
        SeededStep(capacity, columns, k, buckets);
        table := SetCell(table, Position(columns, SolarColumn(k)).value, 0, Some(SolarSeed(k)));
        k := k + 1;
      }
      capacity := table;
      if k < |SolarDistribution()| {
        SeedingStops(columns, k);
        o := Fail(KeyError(SolarColumn(k)));
      } else {
        o := Pass;
      }
    }

    /** Writes `first bucket + mw` into every bucket from January 1 of the
        year onwards: earlier additions in those buckets are overwritten,
        not accumulated. An unknown column raises KeyError. */
    method AddCapacity(technology: string, region: string, mw: real, year: int) returns (o: Outcome)
      requires Valid()
      modifies this
      ensures Valid() && generation == old(generation)
      ensures Position(columns, technology + "_" + region).None? ==>
                o == Fail(KeyError(technology + "_" + region)) && capacity == old(capacity)
      ensures Position(columns, technology + "_" + region).Some? ==>
                var c := Position(columns, technology + "_" + region).value;
                o == Pass &&
                capacity == old(capacity)[c := Stepped(old(capacity)[c], mw, FromBucket(config, year))]
    {
      var name := technology + "_" + region;
      var c := Position(columns, name);
      if c.None? {
        return Fail(KeyError(name));
      }
      capacity := capacity[c.value := Stepped(capacity[c.value], mw, FromBucket(config, year))];
      o := Pass;
    }

    /** Simulates one year: for each technology, for each region, the
        generation in the year's buckets becomes capacity times the noisy
        capacity factor. A technology without a capacity factor raises
        KeyError('capacity_factor') at its first region, after every earlier
        column was written. */
    method SimulateGeneration(year: int, noise: seq<seq<real>>) returns (o: Outcome)
      requires Valid()
      requires NoiseFits(config, year, noise)
      modifies this
      ensures Valid() && capacity == old(capacity)
      ensures var p := FirstMissing(ColumnFactors(config));
              MaskFitsAll(year) &&
              generation == Simulated(old(generation), capacity, ColumnFactors(config), noise,
                                      MaskStart(config, year), MaskLen(config, year), p) &&
              o == if p == |columns| then Pass else Fail(KeyError("capacity_factor"))
    {
      ghost var f := ColumnFactors(config);
      var lo, len := MaskStart(config, year), MaskLen(config, year);
      MaskFits(config, year);
      assert |f| == |columns|;
      assert SimInputs(old(generation), capacity, f, noise, lo, len);
      var t, c := 0, 0;
      while t < |config.technologies|
        invariant 0 <= t <= |config.technologies| && c == t * |config.regions| <= |columns|
        invariant Valid() && capacity == old(capacity)
        invariant forall k :: 0 <= k < c ==> f[k].Some?
        invariant generation == Simulated(old(generation), capacity, f, noise, lo, len, c)
      {
        BlockFits(t, |config.technologies|, |config.regions|);
        forall k | c <= k < c + |config.regions|
          ensures f[k] == config.technologies[t].capacityFactor
        {
          PerColumnAt(config.technologies, config.regions, ColumnFactor, t, k - c);
        }
        o := SimulateTechnology(t, c, old(generation), f, noise, lo, len);
        if o != Pass {
          return;
        }
        t, c := t + 1, c + |config.regions|;
      }
      assert c == |columns|;
      FirstMissingUnique(f, |columns|);
      o := Pass;
    }

    /** The inner loop of the simulation: every region of technology t, from
        column t * |regions| on. */
    method SimulateTechnology(t: nat, c0: nat, ghost g0: Table, ghost f: seq<Option<real>>,
                              noise: seq<seq<real>>, lo: nat, len: nat) returns (o: Outcome)
      requires Valid() && t < |config.technologies| && c0 + |config.regions| <= |f|
      requires forall k :: c0 <= k < c0 + |config.regions| ==> f[k] == config.technologies[t].capacityFactor
      requires SimInputs(g0, capacity, f, noise, lo, len)
      requires forall k :: 0 <= k < c0 ==> f[k].Some?
      requires generation == Simulated(g0, capacity, f, noise, lo, len, c0)
      modifies this
      ensures Valid() && capacity == old(capacity)
      ensures o == Pass ==>
                (forall k :: 0 <= k < c0 + |config.regions| ==> f[k].Some?) &&
                generation == Simulated(g0, capacity, f, noise, lo, len, c0 + |config.regions|)
      ensures o != Pass ==>
                o == Fail(KeyError("capacity_factor")) && FirstMissing(f) < |f| &&
                generation == Simulated(g0, capacity, f, noise, lo, len, FirstMissing(f))
    {
      var techs, regions := config.technologies, config.regions;
      var c := c0;
      var r := 0;
      while r < |regions|
        invariant 0 <= r <= |regions| && c == c0 + r
        invariant Valid() && capacity == old(capacity)
        invariant forall k :: 0 <= k < c ==> f[k].Some?
        invariant generation == Simulated(g0, capacity, f, noise, lo, len, c)
      {
        var cf := techs[t].capacityFactor;
        if cf.None? {
          FirstMissingUnique(f, c);
          return Fail(KeyError("capacity_factor"));
        }
        WriteColumn(c, cf.value, noise[c], lo, len, g0, f, noise);
        c, r := c + 1, r + 1;
      }
      o := Pass;
    }

    /** `generation.loc[mask, column] = capacity * clipped factor` for column
        c, the next one after the first c simulated columns. */
    method WriteColumn(c: nat, cf: real, noise: seq<real>, lo: nat, len: nat,
                       ghost g0: Table, ghost f: seq<Option<real>>, ghost allNoise: seq<seq<real>>)
      requires Valid() && SimInputs(g0, capacity, f, allNoise, lo, len) && c < |g0|
      requires (forall k :: 0 <= k < c ==> f[k].Some?) && f[c] == Some(cf) && allNoise[c] == noise
      requires generation == Simulated(g0, capacity, f, allNoise, lo, len, c)
      modifies this
      ensures Valid() && capacity == old(capacity)
      ensures generation == Simulated(g0, capacity, f, allNoise, lo, len, c + 1)
    {
      SimulatedStep(g0, capacity, f, allNoise, lo, len, c);
      generation := generation[c := SimColumn(capacity[c], generation[c], cf, noise, lo, len)];
    }

    /** Every year's mask lies within the index. */
    predicate MaskFitsAll(year: int)
      reads this
      requires Valid()
    {
      MaskStart(config, year) + MaskLen(config, year) <= buckets
    }

    /** Share of the year's generation produced by renewable columns; in
        [0, 1] whenever no generation cell is negative, and 0 when nothing
        was generated. */
    function RenewableShare(year: int): (share: real)
      reads this
      requires Valid()
      ensures NonNegativeCells(generation) ==> 0.0 <= share <= 1.0
      ensures YearGeneration(year) <= 0.0 ==> share == 0.0
      ensures YearGeneration(year) > 0.0 ==>
                share * YearGeneration(year) == Sum(RenewableOnly(columns, YearColumnTotals(year)))
    {
      var totals := YearColumnTotals(year);
      var ren := Sum(RenewableOnly(columns, totals));
      var total := Sum(totals);
      MaskFits(config, year);
      RenewableWithinTotal(generation, columns, MaskStart(config, year), MaskLen(config, year));
      ShareOf(ren, total)
    }

    /** Generation of each column summed over the year's buckets. */
    function YearColumnTotals(year: int): (s: seq<real>)
      reads this
      requires Valid()
      ensures |s| == |columns|
    {
      YearTotals(config, generation, year)
    }

    function YearGeneration(year: int): real
      reads this
      requires Valid()
    {
      Sum(YearColumnTotals(year))
    }

    /** The yearly summary of the system's tables (see SummaryOf). */
    function GetSystemSummary(year: int): (r: Result<Summary>)
      reads this
      requires Valid()
      ensures r.Ok? <==> InRange(config, year)
      ensures r.Err? ==> r.error == RowKeyError(year)
      ensures r.Ok? ==> r.value.renewableShare == RenewableShare(year)
      ensures r.Ok? ==> r.value.totalGeneration == YearGeneration(year)
      ensures r.Ok? ==> Sum(Values(r.value.capacityByTechnology)) == Sum(RowValues(capacity, YearEndRow(config, year)))
      ensures r.Ok? ==> Sum(Values(r.value.generationByTechnology)) == r.value.totalGeneration
      ensures r.Ok? ==> KeysAscending(r.value.capacityByTechnology) && KeysAscending(r.value.generationByTechnology)
    {
      SummaryOf(config, capacity, generation, year)
    }

    /** The summary as written: the generation grouping applies
        `x.split('_')` to the row labels, which are timestamps, so every
        indexed year ends in AttributeError (a year outside the index fails
        earlier, on its December 31 row). */
    function GetSystemSummaryAsWritten(year: int): (r: Result<Summary>)
      reads this
      requires Valid()
      ensures r.Err?
      ensures InRange(config, year) ==> r.error == AttributeError("split")
    {
      if !InRange(config, year) then Err(RowKeyError(year))
      else Err(AttributeError("split"))
    }
  }

  /** add_capacity's new column: from bucket k on, the first bucket's value
      plus mw (NaN stays NaN). */
  function Stepped(col: seq<Option<real>>, mw: real, k: nat): (r: seq<Option<real>>)
    requires |col| >= 1
    ensures |r| == |col|
    ensures forall i :: 0 <= i < k && i < |col| ==> r[i] == col[i]
    ensures forall i :: k <= i < |col| ==> r[i] == AddOpt(col[0], mw)
  {
    seq(|col|, i requires 0 <= i < |col| => if i >= k then AddOpt(col[0], mw) else col[i])
  }

  /** Adding the same capacity twice from a later year leaves the table as
      after the first addition: the value written is always the first
      bucket's plus mw, and the first bucket is untouched. */
  lemma SteppedTwiceIsOnce(col: seq<Option<real>>, mw: real, k: nat)
    requires |col| >= 1 && k >= 1
    ensures Stepped(Stepped(col, mw, k), mw, k) == Stepped(col, mw, k)
  {
  }

  /** From the first year on, a second addition does build on the first. */
  lemma SteppedFromStartAccumulates(col: seq<Option<real>>, a: real, b: real)
    requires |col| >= 1 && col[0].Some?
    ensures Stepped(Stepped(col, a, 0), b, 0) == seq(|col|, i => Some(col[0].value + a + b))
  {
  }

  /** The summary grouping described as intended matches the as-written one
      nowhere: on every indexed year the as-written summary fails while the
      grouped one succeeds. */
  lemma SummaryGroupingFinding(es: EnergySystem, year: int)
    requires es.Valid() && InRange(es.config, year)
    ensures es.GetSystemSummaryAsWritten(year) == Err(AttributeError("split"))
    ensures es.GetSystemSummary(year).Ok?
  {
  }
}
