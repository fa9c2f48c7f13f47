# Bangladesh energy transition: a verified model of the annual accounting

This project models, in Dafny, the core of a Python simulation of Bangladesh's
energy transition. It also proves what that code promises.

The model covers:

- the energy system's hourly capacity and generation tables (`EnergySystem`):
  - one column per technology and region;
  - the initial solar capacity;
  - step capacity additions;
  - simulated generation;
  - the renewable share;
  - the per-technology summary.
- the cost calculator (`EconomicModel`):
  - capital and O&M cost;
  - fuel and emission costs;
  - levelized cost;
  - net present value;
  - payback period;
  - the investment appraisal;
  - the yearly metrics.
- the environmental calculator (`EnvironmentalModel`) and the stand-alone helpers (`Helpers`):
  - the lookups;
  - the closed-form levelized cost;
  - hourly demand;
  - capacity factors;
  - unit choice for formatting.
- the scenario driver (`RunScenarios`):
  - the baseline, accelerated and delayed edits of the settings;
  - the yearly aggregation loop.
- the sensitivity driver (`RunSensitivity`).
- the electricity market (`MarketModel`):
  - market clearing;
  - merit-order dispatch;
  - market power.
- battery storage (`StorageModel`).
- demand response (`DemandResponse`).
- grid stability (`GridStability`).
- the transmission network (`TransmissionNetwork`) and the distribution network (`DistributionNetwork`), over a model of the undirected graph they keep (`NetworkGraph`).
- the summary metrics of a results table (`AdvancedAnalysis`).

The default settings table is transcribed as constants (`SimulationConfig`).
`Common` holds the shared vocabulary:

- `Option` and `Result`;
- the Python exceptions the code can raise;
- sums;
- integer powers;
- dictionaries kept as association lists in insertion order.

Conventions:

- Floating-point quantities are `real`.
- A pandas NaN is `None`.
- A Python exception is an `Err` carrying the exception's kind.
- A dictionary that is iterated or summed is a sequence of key–value pairs. It keeps Python's insertion order, and an update replaces the value in place.
- The two per-technology dictionaries of the system summary come from pandas `groupby(...).sum()`, which sorts its group keys. They are in ascending key order: battery, biomass, solar, wind for the default table (`EnergySystem.GroupOrderExample`).
- Objects whose fields the source updates are classes:
  - the energy system;
  - the market;
  - the storage unit;
  - the demand-response programme;
  - the two networks;
  - the scenario;
  - the sensitivity analysis.
- Each method is proved against a specification function, and the properties are lemmas about those functions.
- Randomness and library root finders are parameters:
  - the generation noise, one draw per energy system built (each pass of the sensitivity sweep builds its own, so it gets its own draw);
  - the sine patterns of the demand profile;
  - the IRR root finder.

Where the code and its description disagree, the model follows the code, with one exception: the yearly loop. As written, `get_system_summary` raises AttributeError on every indexed year, and the employment step raises NameError once any technology has positive capacity (both in "## Findings"). The source loop therefore never produces a row. The model's yearly loop runs on the corrected summary (`EnergySystem.SummaryOf`) and the intended employment (`RunScenarios.SumEmployment`). This applies to `RunScenarios.YearOutcome`, `SimulateYear`, `SimulateYears`, `YearlyRun`, `FreshRun`, `SeededRun`, `RunFresh` and `Scenario.Run`, and to the sensitivity driver's base case and sweep, which reuse them.

Otherwise:

- `add_capacity` overwrites every later hour with the first hour's value plus the addition. It does not add to each hour.
- The summary keys are the column-name prefix before the first underscore (`solar`, `battery`).
- `calculate_metrics` skips technologies that are not fuel-price keys. With the default prices, every technology it does cost raises KeyError (`EconomicModel.DefaultPricesCostNothing`).
- With the default technology table, `simulate_generation` raises KeyError('capacity_factor') at `battery_storage`, after writing the earlier columns. With `initialize_demand` left out, the modelled drivers therefore fail on their first year with the default configuration; the source fails earlier, when the energy system is built (see "## Left out"). The model takes the energy configuration as a parameter, so the rest of the loop is modelled and proved too.
- The transmission and distribution models look a line up the way the graph reports its edge. That is not always the way round the line was registered (see Findings). The modelled methods look the line up under either orientation.

## Model

| member | source | states |
|---|---|---|
| AdvancedAnalysis.Investments | bangladesh_energy/analysis/advanced_analysis.py:124 | the investment column, row by row |
| AdvancedAnalysis.Lcoes | bangladesh_energy/analysis/advanced_analysis.py:125 | the levelized-cost column, row by row |
| AdvancedAnalysis.MetricsOf | bangladesh_energy/analysis/advanced_analysis.py:107-139 | the metrics exist exactly when the table has a row; an empty run table keeps its columns, so the first positional read, `results['renewable_share'].iloc[-1]`, raises IndexError |
| AdvancedAnalysis.MetricsSigns | bangladesh_energy/analysis/advanced_analysis.py:111-137 | each first-to-last metric has the sign of its change: growth is positive exactly when the last row is above the first, reduction exactly when it is below, and a single row changes nothing |
| AdvancedAnalysis.TotalInvestmentPositive | bangladesh_energy/analysis/advanced_analysis.py:124 | positive yearly investments give a positive total |
| AdvancedAnalysis.AvgLcoeBetween | bangladesh_energy/analysis/advanced_analysis.py:125 | the mean levelized cost lies between any bounds that hold for every year's cost |
| EnergySystem.HoursIn | bangladesh_energy/models/energy_system.py:56-60 | a year of the hourly index has 8760 hours, or 8784 in a leap year |
| EnergySystem.NumBuckets | bangladesh_energy/models/energy_system.py:56-60 | the hourly index from January 1 of the first year to December 31, 00:00 of the last year has at least one bucket |
| EnergySystem.YearEndRow | bangladesh_energy/models/energy_system.py:172-181 | the December 31 row that the capacity grouping reads lies inside the year's mask and inside the index |
| EnergySystem.MaskFits | bangladesh_energy/models/energy_system.py:132-134 | the mask `Jan 1 <= t <= Dec 31` of an indexed year lies inside the index |
| EnergySystem.Dec31LateHoursUnmasked | bangladesh_energy/models/energy_system.py:132-134 | the 23 hourly buckets after December 31, 00:00 of a year belong to the mask of no year |
| EnergySystem.FromBucket | bangladesh_energy/models/energy_system.py:163-164 | the mask `t >= Jan 1 of y` starts inside the index, and after the first bucket for any year after the first |
| EnergySystem.PerColumn | bangladesh_energy/models/energy_system.py:66-75 | one column per technology and region pair |
| EnergySystem.PerColumnAt | bangladesh_energy/models/energy_system.py:68-69 | column `t * regions + r` belongs to technology t and region r, in that nesting order |
| EnergySystem.Position | bangladesh_energy/models/energy_system.py:102 | a column lookup finds a column of that name, and fails (KeyError) exactly when no column has it |
| EnergySystem.EmptyTable | bangladesh_energy/models/energy_system.py:66-75 | the new capacity and generation frames have one column per name and one row per bucket |
| EnergySystem.SeedableCount | bangladesh_energy/models/energy_system.py:101-102 | the regions seeded before a missing solar column: all earlier ones have a column, the next one has none |
| EnergySystem.Seeded | bangladesh_energy/models/energy_system.py:101-102 | after n seeding writes, the first bucket of each seeded solar column holds its share of 946 MW and every other cell is unchanged |
| EnergySystem.SolarSharesSumToWhole | bangladesh_energy/models/energy_system.py:88-99 | the regional shares sum to 1, so the seeds sum to the 946 MW fleet |
| EnergySystem.DefaultSeedingSucceeds | bangladesh_energy/models/energy_system.py:20-22 | every default region has its solar column, so seeding never raises with the default regions |
| EnergySystem.DefaultSimulationStopsAtBattery | bangladesh_energy/models/energy_system.py:23-49 | battery storage has no capacity factor, so simulating with the default technologies stops at column 24 |
| EnergySystem.FirstMissing | bangladesh_energy/models/energy_system.py:136-139 | the columns before the first technology without a capacity factor all have one, and that column does not |
| EnergySystem.SimCell | bangladesh_energy/models/energy_system.py:142-145 | a simulated cell is NaN exactly when its capacity is NaN, and lies between 0 and a non-negative capacity |
| EnergySystem.SimColumn | bangladesh_energy/models/energy_system.py:145 | only the year's buckets of the column change, each to its simulated cell |
| EnergySystem.SimulatedNonNegative | bangladesh_energy/models/energy_system.py:142-145 | simulating keeps generation non-negative when capacity is non-negative |
| EnergySystem.RenewableOnly | bangladesh_energy/models/energy_system.py:153-155 | one entry per column, renewable columns keeping their total |
| EnergySystem.ShareOf | bangladesh_energy/models/energy_system.py:159 | the share is 0 when the total is not positive; otherwise share times total is the renewable part, in [0, 1] when that part is within the total |
| EnergySystem.RenewableWithinTotal | bangladesh_energy/models/energy_system.py:153-157 | with no negative cell, renewable generation lies between 0 and total generation |
| EnergySystem.TechKeyIsPrefix | bangladesh_energy/models/energy_system.py:181 | `name.split('_')[0]` is the text before the first underscore, or the whole name when it has none |
| EnergySystem.TechKeyOfJoined | bangladesh_energy/models/energy_system.py:181 | the key of `tech_region` is `tech` when `tech` has no underscore |
| EnergySystem.TechKeyExamples | bangladesh_energy/models/energy_system.py:180-183 | the summary keys of solar_pv and battery_storage columns are "solar" and "battery" |
| EnergySystem.GroupByFind | bangladesh_energy/models/energy_system.py:180-183 | `groupby(key).sum()` has a group exactly for each key present, holding the sum of the values with that key |
| EnergySystem.GroupByPrefixFind | bangladesh_energy/models/energy_system.py:180-183 | the prefix groups exist exactly for the prefixes of the columns and hold the sum of those columns |
| EnergySystem.GroupByTotal | bangladesh_energy/models/energy_system.py:180-183 | grouping neither loses nor invents quantity: the groups sum to the total |
| EnergySystem.GroupByDistinct | bangladesh_energy/models/energy_system.py:179-183 | the groups of `groupby(key).sum()` have distinct keys |
| EnergySystem.SortByKey | bangladesh_energy/models/energy_system.py:179-183 | the `sort=True` default of pandas' groupby, by insertion; SortByKeyFind, SortByKeyTotal and SortByKeyAscending state what it keeps and how it orders |
| EnergySystem.SortByKeyFind | bangladesh_energy/models/energy_system.py:179-183 | sorting groups with distinct keys keeps every group and its value, and adds none |
| EnergySystem.SortByKeyTotal | bangladesh_energy/models/energy_system.py:179-183 | sorting keeps the total of the groups |
| EnergySystem.SortByKeyAscending | bangladesh_energy/models/energy_system.py:179-183 | sorted groups with distinct keys are in strictly ascending order under Python's string comparison |
| EnergySystem.StrLessTotal | bangladesh_energy/models/energy_system.py:179-183 | Python's string order is total: of two different keys one sorts first |
| EnergySystem.GroupByPrefixSortedTotal | bangladesh_energy/models/energy_system.py:179-183 | the prefix groups come in strictly ascending key order and add up to the values grouped |
| EnergySystem.GroupOrderExample | bangladesh_energy/models/energy_system.py:179-183 | one region's solar, wind, biomass and battery columns group as battery, biomass, solar, wind |
| EnergySystem.EnergySystem.constructor | bangladesh_energy/models/energy_system.py:54-75 | empty capacity and generation frames over the hourly index, one column per technology and region |
| EnergySystem.EnergySystem.SetInitialCapacity | bangladesh_energy/models/energy_system.py:85-102 | the seeded table of the regions written in order, KeyError at the first region without a solar column, generation unchanged |
| EnergySystem.EnergySystem.AddCapacity | bangladesh_energy/models/energy_system.py:161-167 | the column from January 1 of the year on holds its first bucket plus the addition, KeyError and no change for an unknown column |
| EnergySystem.EnergySystem.SimulateGeneration | bangladesh_energy/models/energy_system.py:130-145 | generation equals the table with the first FirstMissing columns simulated over the year's mask; KeyError('capacity_factor') when a technology has no factor; capacity unchanged |
| EnergySystem.EnergySystem.SimulateTechnology | bangladesh_energy/models/energy_system.py:137-145 | the columns of one technology simulated in region order, or KeyError at its first region without a factor |
| EnergySystem.EnergySystem.WriteColumn | bangladesh_energy/models/energy_system.py:145 | generation equals the table with one more column simulated |
| EnergySystem.EnergySystem.RenewableShare | bangladesh_energy/models/energy_system.py:147-159 | the share is in [0, 1] when no cell is negative, 0 when nothing was generated, and otherwise the renewable part over the total |
| EnergySystem.EnergySystem.YearColumnTotals | bangladesh_energy/models/energy_system.py:157 | one yearly total per column |
| EnergySystem.EnergySystem.GetSystemSummary | bangladesh_energy/models/energy_system.py:169-184 | fails (KeyError on the December 31 row) exactly for a year outside the index; the capacity groups sum to the December 31 row and the generation groups to the total generation; both groupings are in strictly ascending key order, as pandas sorts group keys |
| EnergySystem.EnergySystem.GetSystemSummaryAsWritten | bangladesh_energy/models/energy_system.py:182-183 | the generation grouping fails with AttributeError on every indexed year |
| EnergySystem.Stepped | bangladesh_energy/models/energy_system.py:166-167 | buckets before the year keep their value; every later bucket holds the first bucket plus the addition |
| EnergySystem.SteppedTwiceIsOnce | bangladesh_energy/models/energy_system.py:161-167 | adding the same capacity twice from a later year leaves the column as after one addition (additions overwrite) |
| EnergySystem.SteppedFromStartAccumulates | bangladesh_energy/models/energy_system.py:161-167 | from the first year on, a second addition does build on the first |
| EnergySystem.SummaryGroupingFinding | bangladesh_energy/models/energy_system.py:180-183 | on every indexed year the as-written summary fails while the corrected one succeeds |
| EconomicModel.EvenYearLearning | bangladesh_energy/models/economic_model.py:51-55 | a learning factor that is positive and equals 0.8^k two k years after 2020 exists |
| EconomicModel.LearningFactor | bangladesh_energy/models/economic_model.py:51-58 | the learning factor is positive |
| EconomicModel.Compound | bangladesh_energy/models/economic_model.py:60-62 | the compounded rate is 1 in 2024 and positive for a rate above -100% |
| EconomicModel.CalculateCapex | bangladesh_energy/models/economic_model.py:39-64 | defined exactly for a technology of the cost table whose inflation factor exists; KeyError for an unknown technology, ZeroDivisionError for a zero base raised to a negative power |
| EconomicModel.CapexLinear | bangladesh_energy/models/economic_model.py:64 | capital cost is linear in the capacity |
| EconomicModel.CapexPositive | bangladesh_energy/models/economic_model.py:39-64 | positive capacity of a known technology with inflation above -100% costs a positive amount |
| EconomicModel.CompoundTwoYears | bangladesh_energy/models/economic_model.py:60-62 | two years later the rate has compounded twice more |
| EconomicModel.LearningTwoYears | bangladesh_energy/models/economic_model.py:51-56 | every two years the cost of solar, wind and storage falls by 20%, the others do not change |
| EconomicModel.EscalatedOpexLinear | bangladesh_energy/models/economic_model.py:79-83 | the escalated O&M share grows with the capital cost in proportion |
| EconomicModel.EscalatedOpexPositive | bangladesh_energy/models/economic_model.py:79-83 | a positive capital cost has a positive O&M share |
| EconomicModel.CalculateOpex | bangladesh_energy/models/economic_model.py:66-85 | defined exactly when the capital cost is, the technology has an O&M rate and the escalation exists; the capital cost's errors come first |
| EconomicModel.OpexInBaseYear | bangladesh_energy/models/economic_model.py:78-83 | in 2024 the O&M cost is the rate's share of the capital cost |
| EconomicModel.OpexLinear | bangladesh_energy/models/economic_model.py:78-85 | O&M cost is linear in the capacity |
| EconomicModel.OpexPositive | bangladesh_energy/models/economic_model.py:66-85 | positive capacity of a technology with an O&M rate has a positive O&M cost |
| EconomicModel.CalculateFuelCost | bangladesh_energy/models/economic_model.py:87-95 | defined exactly for a priced fuel whose escalation exists; KeyError for an unknown fuel |
| EconomicModel.FuelCostAdditive | bangladesh_energy/models/economic_model.py:87-95 | fuel cost is additive in the amount, and in 2024 is the base price times the amount |
| EconomicModel.CalculateEmissionsCost | bangladesh_energy/models/economic_model.py:97-99 | with a non-negative carbon price the cost is non-negative exactly for non-negative tonnes or a zero price |
| EconomicModel.EmissionsCostAdditive | bangladesh_energy/models/economic_model.py:97-99 | carbon cost is additive in the tonnes |
| EconomicModel.DiscountedSumLinear | bangladesh_energy/models/economic_model.py:118-127 | the discounted sum of a constant is the constant times the annuity factor |
| EconomicModel.AnnuityPositive | bangladesh_energy/models/economic_model.py:118-127 | a positive discount base gives a positive annuity factor for a non-empty lifetime |
| EconomicModel.AnnuityClosedForm | bangladesh_energy/models/economic_model.py:118-127 | the year-by-year annuity factor equals `(1 - (1 + r) ** -n) / r` |
| EconomicModel.Levelized | bangladesh_energy/models/economic_model.py:118-130 | the ratio is defined exactly when present-value generation is not zero, and otherwise raises ZeroDivisionError |
| EconomicModel.LevelizedAsAnnuity | bangladesh_energy/models/economic_model.py:118-130 | the ratio is (capex + opex A) / (generation A) with A the annuity factor |
| EconomicModel.LevelizedScaleInvariant | bangladesh_energy/models/economic_model.py:118-130 | scaling costs and generation by the same non-zero factor leaves the ratio unchanged |
| EconomicModel.AnnuityFormScale | bangladesh_energy/models/economic_model.py:130 | the annuity form is invariant under scaling by a non-zero factor |
| EconomicModel.CalculateLcoe | bangladesh_energy/models/economic_model.py:101-132 | defined exactly for a technology with a lifetime and defined costs and non-zero present-value generation; zero generation always fails; KeyError before ZeroDivisionError |
| EconomicModel.LcoeAsAnnuity | bangladesh_energy/models/economic_model.py:101-132 | the levelized cost is (capex + opex A) / (generation A) |
| EconomicModel.LcoePositive | bangladesh_energy/models/economic_model.py:101-132 | positive capacity and generation at a positive discount rate give a positive levelized cost |
| EconomicModel.LcoeScaleInvariant | bangladesh_energy/models/economic_model.py:101-132 | scaling a plant's capacity and generation alike leaves its levelized cost unchanged |
| EconomicModel.CalculateNpv | bangladesh_energy/models/economic_model.py:134-139 | fails (ZeroDivisionError) exactly for a discount rate of -100% with two or more flows; no flows are worth 0 |
| EconomicModel.NpvErrors | bangladesh_energy/models/economic_model.py:136-139 | the enumerated sum fails exactly for a zero base with two or more flows |
| EconomicModel.NpvIgnoresYear | bangladesh_energy/models/economic_model.py:134-139 | the `year` argument does not change the result, since `t - year` always starts at 0 |
| EconomicModel.NpvShift | bangladesh_energy/models/economic_model.py:136-139 | the enumeration gives the same sum from any start year |
| EconomicModel.NpvOfInvestment | bangladesh_energy/models/economic_model.py:186-187 | an investment followed by n equal flows is worth minus the investment plus the discounted flows |
| EconomicModel.InvestmentFlows | bangladesh_energy/models/economic_model.py:186 | `[-capex] + [flow] * n` has the investment first and n equal flows after it |
| EconomicModel.PaybackCharacterised | bangladesh_energy/models/economic_model.py:156-164 | the payback year is the first year by whose end the cumulative flows reach the investment; never when no year does |
| EconomicModel.PaybackConstant | bangladesh_energy/models/economic_model.py:189 | with a constant positive flow the payback year is the first whole year covering the investment, never when n flows fall short |
| EconomicModel.PaybackConstantYears | bangladesh_energy/models/economic_model.py:189 | with a constant positive flow, the payback year covers the investment and the year before does not |
| EconomicModel.PaybackConstantNever | bangladesh_energy/models/economic_model.py:189 | with a constant positive flow, there is no payback exactly when there are no flows or n flows fall short |
| EconomicModel.CalculatePaybackPeriod | bangladesh_energy/models/economic_model.py:156-164 | the loop returns the first year whose cumulative flow reaches the investment, or infinity exactly when none does |
| EconomicModel.PaybackPeriod | bangladesh_energy/models/economic_model.py:156-164 | the first year by whose end the cumulative flows reach the investment, or never (PaybackCharacterised, PaybackConstant, PaybackConstantYears and PaybackConstantNever prove it) |
| EconomicModel.TechCosts | bangladesh_energy/models/economic_model.py:169-171 | capital, O&M and levelized cost in that order, the first error ending the computation |
| EconomicModel.AnalyzeInvestment | bangladesh_energy/models/economic_model.py:166-200 | fails exactly when the levelized cost does, with the first cost's error; otherwise revenue at 0.12 USD per kWh, cash flow, NPV of the investment flows, IRR from the root finder and the payback year |
| EconomicModel.Selected | bangladesh_energy/models/economic_model.py:210-213 | the costed entries are entries of the capacity table with a non-zero capacity and a priced technology |
| EconomicModel.FirstUncostable | bangladesh_energy/models/economic_model.py:210-224 | every costed entry before the position has a levelized cost, the one at it has none |
| EconomicModel.CalculateMetrics | bangladesh_energy/models/economic_model.py:202-232 | the loops give the run's tables, or the first error raised |
| EconomicModel.YearErrorPersists | bangladesh_energy/models/economic_model.py:210-224 | once a technology fails, the year fails with its error |
| EconomicModel.MetricsErrorPersists | bangladesh_energy/models/economic_model.py:205-231 | once a year fails, the run fails with its error |
| EconomicModel.YearMetricsDefined | bangladesh_energy/models/economic_model.py:210-224 | a year's tables exist exactly when every costed technology has a levelized cost; otherwise the first without one gives the error |
| EconomicModel.FirstUncostableAppend | bangladesh_energy/models/economic_model.py:210-224 | one more costed entry moves the first uncostable position only when all earlier entries were costable |
| EconomicModel.YearMetricsValues | bangladesh_energy/models/economic_model.py:210-231 | the three tables hold, in capacity-table order, the capital, O&M and levelized cost of each costed technology |
| EconomicModel.YearMetricsLengths | bangladesh_energy/models/economic_model.py:210-224 | one table entry per costed technology |
| EconomicModel.YearMetricsAt | bangladesh_energy/models/economic_model.py:214-224 | entry i of each table is the cost of costed technology i at its generation (0 when it has none) |
| EconomicModel.MetricsYears | bangladesh_energy/models/economic_model.py:205-231 | the run has one entry per input year, in input order |
| EconomicModel.YearMetricsOf | bangladesh_energy/models/economic_model.py:210-231 | one year's capital, O&M and levelized-cost tables, technology by technology, a technology missing from the generation table counted at 0 (YearMetricsDefined, YearMetricsValues, YearMetricsLengths and YearMetricsAt prove them) |
| EconomicModel.Metrics | bangladesh_energy/models/economic_model.py:202-232 | the yearly tables, year by year, the first failing year deciding the error (MetricsYears and MetricsErrorPersists prove it) |
| EconomicModel.DefaultPricesCostNothing | bangladesh_energy/models/economic_model.py:212 | with the default prices a year's tables exist only when nothing is costed; otherwise the first costed fuel raises KeyError |
| EconomicModel.FuelHasNoCost | bangladesh_energy/models/economic_model.py:42-49 | no fuel of the default price table has a capital cost, so it raises KeyError |
| EnvironmentalModel.Footprint | bangladesh_energy/models/environmental_model.py:61-77 | an unknown technology has no footprint; non-negative factors and quantity give a non-negative one |
| EnvironmentalModel.FootprintLinear | bangladesh_energy/models/environmental_model.py:61-77 | a footprint is proportional to its quantity |
| EnvironmentalModel.FootprintAdditive | bangladesh_energy/models/environmental_model.py:61-77 | the footprint of a sum is the sum of the footprints |
| EnvironmentalModel.EmissionsPerMwh | bangladesh_energy/models/environmental_model.py:61-65 | emissions are the generation converted to kWh times the factor, and 0 for an unknown technology |
| EnvironmentalModel.CalculateEmissions | bangladesh_energy/models/environmental_model.py:61-65 | CO2 of the generation converted to kWh times the factor, 0 for an unknown technology (EmissionsPerMwh, Footprint) |
| EnvironmentalModel.CalculateWaterUse | bangladesh_energy/models/environmental_model.py:67-71 | the generation times the water factor, 0 for an unknown technology (Footprint, FootprintLinear, DefaultFootprints) |
| EnvironmentalModel.CalculateLandUse | bangladesh_energy/models/environmental_model.py:73-77 | the capacity times the land-use factor, 0 for an unknown technology (Footprint, FootprintLinear, DefaultFootprints) |
| EnvironmentalModel.DefaultFootprints | bangladesh_energy/models/environmental_model.py:21-50 | sample footprints of the default tables; gas and coal use no land there |
| EnvironmentalModel.ScaleEntries | bangladesh_energy/models/environmental_model.py:105-109 | the scaled dictionary has the same keys in the same order, each value times the quantity |
| EnvironmentalModel.AirPollutantsShape | bangladesh_energy/models/environmental_model.py:79-110 | every technology reports SO2, NOx and PM2.5, in that order: a listed one its factors times the generation, any other 0 |
| EnvironmentalModel.CalculateAirPollutants | bangladesh_energy/models/environmental_model.py:79-110 | SO2, NOx and PM2.5 of the generation: a listed technology its factors times the generation, any other 0 (AirPollutantsShape) |
| EnvironmentalModel.CalculateHealthImpacts | bangladesh_energy/models/environmental_model.py:112-125 | no more entries than pollutants given |
| EnvironmentalModel.HealthKeys | bangladesh_energy/models/environmental_model.py:121-125 | the kept keys are exactly the input keys with a health factor |
| EnvironmentalModel.HealthImpactsKeys | bangladesh_energy/models/environmental_model.py:121-125 | the result keeps exactly the input pollutants with a health factor, in input order |
| EnvironmentalModel.HealthImpactsFind | bangladesh_energy/models/environmental_model.py:121-125 | a pollutant's health entry is its emissions times its factor, and absent without a factor |
| EnvironmentalModel.HealthOfPollutants | bangladesh_energy/models/environmental_model.py:112-125 | the health result of a three-pollutant dictionary |
| EnvironmentalModel.PlantHealthKeys | bangladesh_energy/models/environmental_model.py:79-125 | every pollutant of a plant has a health factor, so its health result names all three |
| EnvironmentalModel.CalculateBiodiversityImpact | bangladesh_energy/models/environmental_model.py:127-144 | the result always names species affected and habitat loss |
| EnvironmentalModel.SpeciesPerHectare | bangladesh_energy/models/environmental_model.py:139-143 | species affected are the hectares lost times the land type's factor |
| EnvironmentalModel.WaterQualityKeys | bangladesh_energy/models/environmental_model.py:146-174 | every technology reports thermal and chemical pollution |
| EnvironmentalModel.CalculateWaterQualityImpact | bangladesh_energy/models/environmental_model.py:146-174 | thermal and chemical pollution of the water use, 0 for an unlisted technology (WaterQualityKeys) |
| EnvironmentalModel.CapacityDictionaries | bangladesh_energy/models/environmental_model.py:176-235 | waste and circular potential are empty for a technology without a table, and otherwise its table scaled by the capacity |
| EnvironmentalModel.CalculateWasteGeneration | bangladesh_energy/models/environmental_model.py:176-206 | the technology's waste table scaled by the capacity, empty without a table (CapacityDictionaries) |
| EnvironmentalModel.CalculateCircularEconomyPotential | bangladesh_energy/models/environmental_model.py:208-235 | the technology's recycling table scaled by the capacity, empty without a table (CapacityDictionaries) |
| EnvironmentalModel.DefaultBenefits | bangladesh_energy/models/environmental_model.py:237-249 | with the default tables each MWh of renewables avoids 500 kg of CO2 and the gas plant's water, pollutants and health effects |
| EnvironmentalModel.CalculateEnvironmentalBenefits | bangladesh_energy/models/environmental_model.py:237-249 | the emissions, water, pollutants and health effects of gas generation of the same size (DefaultBenefits gives the values on the default tables) |
| EnvironmentalModel.WeightsSumToOne | bangladesh_energy/models/environmental_model.py:254-260 | the score weights sum to 1 |
| EnvironmentalModel.ImpactScoreClosedForm | bangladesh_energy/models/environmental_model.py:251-277 | the score is the weighted sum of the normalised impacts, a missing entry counting 0 |
| EnvironmentalModel.EmptyImpactsScoreZero | bangladesh_energy/models/environmental_model.py:251-277 | an empty impacts dictionary scores 0 |
| EnvironmentalModel.CalculateImpactScore | bangladesh_energy/models/environmental_model.py:251-277 | the weighted sum of the normalised impacts, a missing entry counting 0 (ImpactScoreClosedForm, WeightsSumToOne, EmptyImpactsScoreZero) |
| MarketModel.Capacities | bangladesh_energy/models/market_model.py:65 | one capacity per registered generator, in registration order |
| MarketModel.ClearMarketRow | bangladesh_energy/models/market_model.py:65-83 | one row of the given demand and renewable output; the balance is capacity minus renewables minus demand, the price 50 when it is not negative and the price cap otherwise |
| MarketModel.ClearMarketAsWritten | bangladesh_energy/models/market_model.py:65 | iterating the generator dictionary yields names, so clearing fails with AttributeError exactly when a generator is registered |
| MarketModel.ClearingPriceMonotone | bangladesh_energy/models/market_model.py:65-73 | more capacity never turns a cleared market into a capped one, and never lowers the balance |
| MarketModel.ClearMarketFinding | bangladesh_energy/models/market_model.py:65 | one 100 MW generator and 50 MWh of demand: the as-written clearing raises, the intended one clears at 50 with a balance of 50 |
| MarketModel.InsertByCostPermutes | bangladesh_energy/models/market_model.py:213-216 | an insertion step adds exactly the one generator |
| MarketModel.InsertByCostLowerBound | bangladesh_energy/models/market_model.py:213-216 | a cost bounding the inserted generator and every entry bounds the result |
| MarketModel.InsertByCostSorted | bangladesh_energy/models/market_model.py:213-216 | inserting into a cost-sorted sequence keeps it sorted |
| MarketModel.SortByCostSpec | bangladesh_energy/models/market_model.py:213-216 | the sort returns the same generators, in non-decreasing variable cost |
| MarketModel.SortByCostTies | bangladesh_energy/models/market_model.py:213-216 | the sort is stable: generators of one cost keep registration order |
| MarketModel.SortByCost | bangladesh_energy/models/market_model.py:213-216 | `sorted` by variable cost, built by insertion; SortByCostSpec proves it a cost-ordered permutation and SortByCostStable its stability |
| MarketModel.InsertByCostWithCost | bangladesh_energy/models/market_model.py:213-216 | inserting a generator into a cost-sorted sequence keeps the order of every cost class and appends the generator to its own |
| MarketModel.SortByCostStable | bangladesh_energy/models/market_model.py:213-216 | the sort is stable: the generators of any one cost keep their registration order |
| MarketModel.InsertAtEnd | bangladesh_energy/models/market_model.py:213-216 | a generator no cheaper than any entry goes last |
| MarketModel.MeritOrder | bangladesh_energy/models/market_model.py:218-232 | one dispatch entry per generator |
| MarketModel.MeritOrderAt | bangladesh_energy/models/market_model.py:221-230 | step i of the fill: generator i takes its share of what remains after the earlier ones |
| MarketModel.MeritOrderNames | bangladesh_energy/models/market_model.py:221-230 | the dispatch names the generators in sorted order |
| MarketModel.MeritOrderExhausted | bangladesh_energy/models/market_model.py:222-224 | with no demand left every generator gets 0 |
| MarketModel.MeritOrderBounds | bangladesh_energy/models/market_model.py:221-230 | each generator's dispatch lies between 0 and its capacity |
| MarketModel.MeritOrderTotal | bangladesh_energy/models/market_model.py:218-232 | the total dispatched is the demand, floored at 0 and capped by the total capacity |
| MarketModel.MeritOrderSplit | bangladesh_energy/models/market_model.py:221-230 | the first generator's take heads the dispatch and the rest serve what it leaves |
| MarketModel.TakeThenRest | bangladesh_energy/models/market_model.py:226-230 | taking the first share and capping the rest by the other capacities caps the whole by all capacities |
| MarketModel.MeritOrderPriority | bangladesh_energy/models/market_model.py:221-230 | a generator is dispatched only when every cheaper one runs at full capacity |
| MarketModel.DispatchRowOf | bangladesh_energy/models/market_model.py:182-206 | one timestamp's row: the residual demand, its merit-order dispatch over the generators sorted by cost and the dispatch's cost (Market.OptimizeGeneratorDispatch states the table of these rows) |
| MarketModel.AccumulateTotal | bangladesh_energy/models/market_model.py:151-156 | summing output per generator neither loses nor invents output |
| MarketModel.AccumulateNonNegative | bangladesh_energy/models/market_model.py:151-156 | non-negative output gives non-negative per-generator totals |
| MarketModel.Shares | bangladesh_energy/models/market_model.py:167-170 | each generator's share is its output over the total, generators in first-seen order |
| MarketModel.MarketPowerOf | bangladesh_energy/models/market_model.py:158-173 | the concentration fails (ZeroDivisionError) exactly when output is on record and the total is 0; nothing on record gives an index of 0 |
| MarketModel.SharesTotal | bangladesh_energy/models/market_model.py:167-170 | the shares add up to the recorded output over the total |
| MarketModel.SharesBounds | bangladesh_energy/models/market_model.py:158-170 | when the total is the recorded output, the shares add up to 1 and the index is at most 1 |
| MarketModel.SharesNonNegative | bangladesh_energy/models/market_model.py:167-170 | non-negative output over a positive total gives non-negative shares |
| MarketModel.MarketPowerBounds | bangladesh_energy/models/market_model.py:144-173 | over dispatch entries with no negative output, the index lies in [0, 1] and the shares add up to 1 |
| MarketModel.SumOfSquaresBound | bangladesh_energy/models/market_model.py:159-162 | for non-negative terms the sum of squares is at most the square of the sum |
| MarketModel.AnalyzeMarketPower | bangladesh_energy/models/market_model.py:144-173 | the loops give the concentration of the output accumulated over every row's dispatch |
| MarketModel.AddDispatch | bangladesh_energy/models/market_model.py:152-156 | one row's dispatch added to the running per-generator totals and the grand total |
| MarketModel.AccumulateStep | bangladesh_energy/models/market_model.py:153-156 | one more entry adds its output to its generator and to the total |
| MarketModel.Market.constructor | bangladesh_energy/models/market_model.py:45-48 | a market with the given parameters and no generators |
| MarketModel.Market.AddGenerator | bangladesh_energy/models/market_model.py:50-52 | the generator is registered under its name, replacing one of that name in place, and no other entry changes |
| MarketModel.Market.ClearMarket | bangladesh_energy/models/market_model.py:54-83 | the annual clearing row of the registered generators |
| MarketModel.Market.OptimizeDispatch | bangladesh_energy/models/market_model.py:210-232 | the loop gives the merit-order fill of the demand over the generators sorted by cost |
| MarketModel.Market.OptimizeGeneratorDispatch | bangladesh_energy/models/market_model.py:175-208 | fails with KeyError exactly when some demand timestamp has no renewable entry; otherwise one row per timestamp, each the merit-order dispatch of the residual demand with its cost |
| StorageModel.OperationOf | bangladesh_energy/models/storage_model.py:48-84 | the step fails (ZeroDivisionError) exactly when it charges on a surplus with a zero efficiency; the row carries the net power and the mean price, 0 without prices |
| StorageModel.CycleCounted | bangladesh_energy/models/storage_model.py:58-75 | a cycle is counted exactly when the step charges on a surplus or discharges on a deficit, even when nothing is discharged |
| StorageModel.RowSigns | bangladesh_energy/models/storage_model.py:76-83 | the row reports charging only on a surplus and discharging only on a deficit |
| StorageModel.ChargeWithinCapacity | bangladesh_energy/models/storage_model.py:58-63 | on a surplus with a positive efficiency the stored energy never exceeds the current capacity |
| StorageModel.DischargeAlwaysZero | bangladesh_energy/models/storage_model.py:67-75 | the store starts empty, so with a non-negative power rating a deficit discharges nothing and leaves nothing stored |
| StorageModel.EconomicsOf | bangladesh_energy/models/storage_model.py:86-126 | fails only when the degradation power is undefined; total cost is capex plus opex plus degradation cost, NPV is revenue minus total cost, cycles are the counter |
| StorageModel.NoDegradationNoCost | bangladesh_energy/models/storage_model.py:104-109 | without degradation no capital is lost, whatever the lifetime |
| StorageModel.NoArbitrageRevenue | bangladesh_energy/models/storage_model.py:95-115 | rows of operation steps earn no revenue, so the NPV is minus the total cost |
| StorageModel.DegradedWithin | bangladesh_energy/models/storage_model.py:164-166 | a degradation rate in [0, 1] keeps the capacity between 0 and what it was |
| StorageModel.Storage.constructor | bangladesh_energy/models/storage_model.py:35-38 | the usable capacity starts at the rated capacity with no cycles |
| StorageModel.Storage.CalculateStorageOperation | bangladesh_energy/models/storage_model.py:40-84 | the one row of the step on summed generation less load, the counter advanced by one exactly when the step cycles, the error of a zero efficiency, and the capacity unchanged |
| StorageModel.Storage.CalculateEconomics | bangladesh_energy/models/storage_model.py:86-126 | the economics of the stored parameters with the current cycle count |
| StorageModel.Storage.UpdateCapacity | bangladesh_energy/models/storage_model.py:164-166 | the capacity shrinks by one year of degradation and the counter is unchanged, keeping the capacity within bounds |
| DemandResponse.PriceElasticity | bangladesh_energy/models/demand_response.py:84-91 | the elasticity is clamped to [0, 1] |
| DemandResponse.NoElasticityAtOrBelowAverage | bangladesh_energy/models/demand_response.py:89-91 | a price at or below a positive average gives no elasticity |
| DemandResponse.TemperatureSensitivity | bangladesh_energy/models/demand_response.py:93-100 | the sensitivity is clamped to [0, 1] |
| DemandResponse.TemperatureSensitivityEnds | bangladesh_energy/models/demand_response.py:97-100 | full sensitivity at 22 degrees, none twenty degrees or more away |
| DemandResponse.ClampReductionBounds | bangladesh_energy/models/demand_response.py:65-68 | with a minimum not above the maximum the reduction lies between them, and a base reduction already between them is kept |
| DemandResponse.ReductionRowOfSpec | bangladesh_energy/models/demand_response.py:44-80 | a row exists exactly when both series hold the timestamp (KeyError otherwise); it records the base load, price, temperature, elasticity, sensitivity, clamped reduction and reduced load |
| DemandResponse.ReductionsSpec | bangladesh_energy/models/demand_response.py:37-82 | one row per base-load entry in order, each keeping its promises, exactly when every timestamp is in both series; otherwise the error names a missing timestamp |
| DemandResponse.ReductionsErrorPersists | bangladesh_energy/models/demand_response.py:44-80 | once a row fails, the whole table fails with that error |
| DemandResponse.ReductionRowOf | bangladesh_energy/models/demand_response.py:44-80 | one base-load entry's row: price and temperature read at its timestamp, the price first, KeyError when either lacks it; elasticity against the mean of the whole price series, the reduction clamped to the program's bounds, the reduced load the base load minus it (its promises are proved in ReductionRowOfSpec) |
| DemandResponse.Reductions | bangladesh_energy/models/demand_response.py:37-82 | the entries' rows in base-load order, the first entry that fails deciding the error (ReductionsSpec proves one row per entry exactly when every timestamp is in both series; ReductionsErrorPersists that later entries keep an earlier error) |
| DemandResponse.Constant | bangladesh_energy/models/demand_response.py:116-117 | `pd.Series(x, index=...)` holds x at every timestamp of the index |
| DemandResponse.FindConstant | bangladesh_energy/models/demand_response.py:116-117 | the constant series holds x at each of its timestamps |
| DemandResponse.ConstantAverage | bangladesh_energy/models/demand_response.py:46-49 | the mean of a non-empty constant series is the constant |
| DemandResponse.PlaceholderReductions | bangladesh_energy/models/demand_response.py:113-118 | under the placeholder price and temperature every entry gets a row, each with the minimum reduction clamped to the maximum |
| DemandResponse.EventLoad | bangladesh_energy/models/demand_response.py:108-111 | the event's entries come from the profile and lie in the window from its start to its end |
| DemandResponse.EventLoadComplete | bangladesh_energy/models/demand_response.py:108-111 | every profile entry inside the window is selected |
| DemandResponse.ProgramMetricsOf | bangladesh_energy/models/demand_response.py:131-161 | reliability exists exactly for a non-empty table and, like compliance, lies in [0, 1]; the incentive cost is the total reduction at the incentive rate; the event count is the log's length |
| DemandResponse.AllReachMinimum | bangladesh_energy/models/demand_response.py:134-137 | rows that all reach the minimum reduction give a reliability of 1 |
| DemandResponse.ReductionTableReliable | bangladesh_energy/models/demand_response.py:134-137 | a table produced by the reduction calculation with a minimum not above the maximum is fully reliable |
| DemandResponse.DemandResponseModel.constructor | bangladesh_energy/models/demand_response.py:33-35 | a model with the given parameters and an empty event log |
| DemandResponse.DemandResponseModel.CalculateLoadReduction | bangladesh_energy/models/demand_response.py:37-82 | the loop gives the reduction table of the base load, or the first missing timestamp's KeyError |
| DemandResponse.DemandResponseModel.SimulateDemandResponseEvent | bangladesh_energy/models/demand_response.py:102-129 | the reductions over the event window under the placeholder series, each the placeholder reduction, and one more record with their mean and sum in the event log |
| DemandResponse.DemandResponseModel.CalculateProgramMetrics | bangladesh_energy/models/demand_response.py:131-161 | the program metrics with the event count read from the log |
| GridStability.VoltageStability | bangladesh_energy/models/grid_stability.py:61-70 | the index lies in [0, 1] and is 1 exactly when generation matches the load |
| GridStability.ReserveAdequacy | bangladesh_energy/models/grid_stability.py:72-83 | the ratio is capped at 1 and reaches it exactly when a tenth of generation covers the required reserve |
| GridStability.PowerFlowOf | bangladesh_energy/models/grid_stability.py:29-52 | fails (ZeroDivisionError) exactly when the base load, the load or the spinning reserve is 0; the balance is generation minus load |
| GridStability.PowerFlowMetrics | bangladesh_energy/models/grid_stability.py:54-83 | the deviation is the balance over the base load times 50 Hz, 0 exactly when generation meets the load; the voltage index lies in [0, 1] and the reserve ratio at most 1 |
| GridStability.AnalyzeStabilityRows | bangladesh_energy/models/grid_stability.py:85-100 | one row per snapshot in order, each the power flow of its generation at the load of its timestamp |
| GridStability.AnalyzeStabilityFails | bangladesh_energy/models/grid_stability.py:90-96 | with no zero divisor, the table fails exactly when some snapshot's timestamp has no load (KeyError) |
| GridStability.AnalyzeStability | bangladesh_energy/models/grid_stability.py:85-100 | the power flow of each snapshot, in order, at the load read at its timestamp; a missing load raises KeyError and the first failing snapshot decides the error (AnalyzeStabilityRows and AnalyzeStabilityFails prove the rows and when it fails) |
| GridStability.DeviationInBand | bangladesh_energy/models/grid_stability.py:105-108 | as written, a row counts when its frequency deviation lies in the frequency band |
| GridStability.FrequencyInBand | bangladesh_energy/models/grid_stability.py:105-108 | as intended, a row counts when the nominal frequency plus its deviation lies in the band |
| GridStability.VoltageStable | bangladesh_energy/models/grid_stability.py:111-113 | a row counts when its voltage index is at least 0.8 |
| GridStability.ReserveAdequate | bangladesh_energy/models/grid_stability.py:116-118 | a row counts when its reserve ratio is at least 0.9 |
| GridStability.ReliabilityBounds | bangladesh_energy/models/grid_stability.py:102-128 | a table without rows raises KeyError('frequency_deviation'), as intended and as written; otherwise the three fractions and the system index lie in [0, 1] |
| GridStability.Reliability | bangladesh_energy/models/grid_stability.py:102-128 | KeyError('frequency_deviation') for a table without rows; otherwise the frequency fraction of the given flags, the voltage fraction at 0.8, the reserve fraction at 0.9 and their mean (ReliabilityBounds proves each in [0, 1]) |
| GridStability.ReliabilityMetricsAsWritten | bangladesh_energy/models/grid_stability.py:105-108 | the metrics with the frequency deviation itself tested against the band; BalancedGridUnstableAsWritten shows a balanced grid is then never frequency-stable |
| GridStability.ReliabilityMetricsOf | bangladesh_energy/models/grid_stability.py:102-128 | the metrics with the frequency, 50 Hz plus the deviation, tested against the band; ReliabilityBounds, BalancedGridStable and FrequencyStableIff state its results |
| GridStability.BalancedGridUnstableAsWritten | bangladesh_energy/models/grid_stability.py:105-108 | as written, a perfectly balanced grid under the default 49.5-50.5 Hz band is never frequency-stable |
| GridStability.BalancedGridStable | bangladesh_energy/models/grid_stability.py:105-108 | as intended, the same balanced grid is fully frequency-stable |
| GridStability.FrequencyStableIff | bangladesh_energy/models/grid_stability.py:105-108 | a row is frequency-stable exactly when its deviation lies in the band shifted by the nominal frequency |
| NetworkGraph.AddNode | bangladesh_energy/models/transmission_network.py:42-47 | the node is present afterwards, every earlier node stays, no other node appears and the edges are unchanged |
| NetworkGraph.AddEdge | bangladesh_energy/models/transmission_network.py:52-60 | both ends become nodes, the two ends are joined afterwards and every earlier edge is kept |
| NetworkGraph.AddNodeWellFormed | bangladesh_energy/models/transmission_network.py:42-47 | adding a node keeps node names distinct and every edge between known nodes |
| NetworkGraph.AddEdgeWellFormed | bangladesh_energy/models/transmission_network.py:52-60 | adding an edge keeps the graph simple: an edge added a second time, either way round, is not stored twice |
| NetworkGraph.NeighboursAdjacent | bangladesh_energy/models/transmission_network.py:196 | a node is listed among n's neighbours exactly when an edge joins it to n |
| NetworkGraph.IncidentEdges | bangladesh_energy/models/transmission_network.py:196 | the edges listed for n are oriented from n, one per neighbour, in neighbour order |
| NetworkGraph.IncidentEdgesExact | bangladesh_energy/models/transmission_network.py:196-198 | (n, v) is listed for n exactly when n and v are joined, and every listed pair starts at n |
| NetworkGraph.UnseenExact | bangladesh_energy/models/transmission_network.py:76 | a node's reported edges are the pairs from it to a neighbour not visited before it |
| NetworkGraph.ReportedAreEdges | bangladesh_energy/models/transmission_network.py:76-77 | every reported pair is an edge of the graph and starts at one of its nodes |
| NetworkGraph.ReportedCovered | bangladesh_energy/models/transmission_network.py:76-77 | every pair the graph reports joins two nodes that some edge joins |
| NetworkGraph.ReportedGrows | bangladesh_energy/models/transmission_network.py:76 | a pair reported for a prefix of the nodes is reported for all of them |
| NetworkGraph.ReportedComplete | bangladesh_energy/models/transmission_network.py:76 | every edge of a well-formed graph is reported, in one orientation or the other |
| NetworkGraph.ReportedEdges | bangladesh_energy/models/transmission_network.py:76 | the edges in the order `network.edges()` reports them, each once, oriented from the end added first; what it holds is proved in UnseenExact, ReportedAreEdges, ReportedComplete and ReportedFromFirst |
| NetworkGraph.IndexOf | bangladesh_energy/models/transmission_network.py:70 | the position of a node in insertion order holds that node |
| NetworkGraph.ReportedFromFirst | bangladesh_energy/models/transmission_network.py:76-77 | an edge is reported oriented from whichever end was added as a node first |
| NetworkGraph.ReportedLine | bangladesh_energy/models/transmission_network.py:76-78 | when every edge has a line under the key it was added with, a line is found for every reported pair under one of its orientations |
| NetworkGraph.LinesCoverAdd | bangladesh_energy/models/transmission_network.py:49-60 | registering a line under (from, to) and adding its edge keeps every edge keyed in the lines table |
| NetworkGraph.LineOf | bangladesh_energy/models/transmission_network.py:78 | a line is found exactly when the pair or its reverse is a key, and the line returned is stored under one of them |
| NetworkGraph.LineAsWritten | bangladesh_energy/models/transmission_network.py:78 | the lookup `lines[(from, to)]` as written: found exactly when that very pair is a key, the line stored under it, and then the same line as the lookup under either orientation |
| NetworkGraph.LineOfEdge | bangladesh_energy/models/transmission_network.py:76-78 | with every edge keyed, each pair that some edge joins has a line under one of its orientations |
| NetworkGraph.ReversedLineMissed | bangladesh_energy/models/transmission_network.py:76-78 | substation B, then the line A to B: the edge is reported as (B, A), the lookup as written finds nothing (a KeyError) and the line is found under the reversed key |
| NetworkGraph.ReversedExampleLookups | bangladesh_energy/models/transmission_network.py:78 | in a table holding only (A, B), the key (B, A) is missing and (A, B) is found |
| NetworkGraph.ReversedExampleGraph | bangladesh_energy/models/transmission_network.py:39-60 | adding node B and then edge A–B gives nodes B, A and the single edge (A, B) |
| NetworkGraph.ReversedExampleReported | bangladesh_energy/models/transmission_network.py:76 | the graph with nodes B, A and edge (A, B) reports only (B, A) |
| NetworkGraph.ReversedExampleNeighbours | bangladesh_energy/models/transmission_network.py:76 | in that graph B's only neighbour is A and A's only neighbour is B |
| NetworkGraph.LineFlow | bangladesh_energy/models/transmission_network.py:81-96 | the flow fails with ZeroDivisionError exactly when the reactance is zero, or when the capacity and the voltage are both zero |
| NetworkGraph.RawFlowZero | bangladesh_energy/models/transmission_network.py:81-82 | the unclipped flow 0.1 / reactance × voltage is zero exactly when the voltage is zero |
| NetworkGraph.LineFlowClipped | bangladesh_energy/models/transmission_network.py:84-86 | under a non-negative capacity the flow's size is the smaller of the raw flow's size and the capacity, and its sign is the raw flow's |
| NetworkGraph.LineFlowUtilization | bangladesh_energy/models/transmission_network.py:84-96 | under a positive capacity the flow is defined and its utilization is abs(flow) / capacity, between 0 and 1 |
| NetworkGraph.Losses | bangladesh_energy/models/transmission_network.py:167 | the loss column, row by row |
| NetworkGraph.AbsFlows | bangladesh_energy/models/transmission_network.py:168 | the absolute power-flow column, row by row |
| NetworkGraph.LossFactor | bangladesh_energy/models/transmission_network.py:171 | zero when the total flow is not positive; otherwise the factor times the total flow is the total loss; never negative when losses are not |
| TransmissionNetwork.FlowRowOf | bangladesh_energy/models/transmission_network.py:77-97 | a row exists exactly when the line's flow can be computed, and it carries the edge's two ends |
| TransmissionNetwork.FlowRowBounds | bangladesh_energy/models/transmission_network.py:82-96 | a line with a reactance and a positive capacity carries at most its capacity, has a utilization between 0 and 1, and loses no negative power under a non-negative resistance |
| TransmissionNetwork.PowerFlowsRows | bangladesh_energy/models/transmission_network.py:76-99 | the table is produced exactly when every edge has a line whose row can be computed, and then holds one row per edge, in edge order, each that line's row |
| TransmissionNetwork.PowerFlowsRowAt | bangladesh_energy/models/transmission_network.py:91-94 | every row of a produced table names a pair that has a line |
| TransmissionNetwork.PowerFlowsCovered | bangladesh_energy/models/transmission_network.py:76-78 | with every line registered, the only error left over edges of the graph is a division by zero |
| TransmissionNetwork.PowerFlows | bangladesh_energy/models/transmission_network.py:76-99 | the rows of the edges in order, each line found under either orientation, the first edge without a line (KeyError) or with a division by zero deciding the error (PowerFlowsRows, PowerFlowsRowAt and PowerFlowsPrefix prove its rows and errors) |
| TransmissionNetwork.ReportedPowerFlowsErrors | bangladesh_energy/models/transmission_network.py:76-78 | over the edges the graph reports, with every line registered, only a division by zero can fail |
| TransmissionNetwork.HighUtilizationExact | bangladesh_energy/models/transmission_network.py:152 | the filter keeps exactly the rows whose known utilization exceeds 0.8 |
| TransmissionNetwork.HighUtilizationBusy | bangladesh_energy/models/transmission_network.py:152 | every row the filter keeps is busy |
| TransmissionNetwork.BottleneckRowsExact | bangladesh_energy/models/transmission_network.py:154-161 | the bottleneck list is produced exactly when every busy row has a line, and then has one record per busy row, in order |
| TransmissionNetwork.BottlenecksExact | bangladesh_energy/models/transmission_network.py:147-163 | each bottleneck is a busy row of the table, with its utilization, flow and its line's capacity |
| TransmissionNetwork.BottlenecksOfPowerFlows | bangladesh_energy/models/transmission_network.py:147-163 | on a non-empty table the power flow produced, every bottleneck has its line |
| TransmissionNetwork.Bottlenecks | bangladesh_energy/models/transmission_network.py:147-163 | KeyError('utilization') on a table without rows; otherwise one record per row above 80% utilization, with its line's capacity (BottlenecksExact and BottleneckRowsExact prove the records and when they exist) |
| TransmissionNetwork.NetworkLosses | bangladesh_energy/models/transmission_network.py:165-181 | fails (KeyError) exactly on an empty table; the total flow is not negative, loss factor plus efficiency is 1, the factor is 0 under no flow and losses over flow otherwise |
| TransmissionNetwork.NetworkLossesEfficiency | bangladesh_energy/models/transmission_network.py:171-174 | non-negative losses never make the network more than fully efficient |
| TransmissionNetwork.ConnectedCapacityCovered | bangladesh_energy/models/transmission_network.py:196-199 | with every line registered, the capacity of a node's edges is always known |
| TransmissionNetwork.IncidentCovered | bangladesh_energy/models/transmission_network.py:196-199 | with every line registered, the capacity connected to any node is known |
| TransmissionNetwork.ConnectedCapacityAsWritten | bangladesh_energy/models/transmission_network.py:196-199 | the summed capacity of a node's edges, each read as `lines[edge]` in the orientation listed, KeyError for a line registered the other way; ReversedCapacities exhibits that error |
| TransmissionNetwork.ConnectedCapacity | bangladesh_energy/models/transmission_network.py:196-199 | the same sum with each line read under either orientation; ConnectedCapacityCovered and IncidentCovered prove it is always known once every line is registered |
| TransmissionNetwork.PlanAsWritten | bangladesh_energy/models/transmission_network.py:190-212 | one node's screen with the capacity read as written; ReversedExpansion shows it raising KeyError where the corrected screen plans |
| TransmissionNetwork.Plan | bangladesh_energy/models/transmission_network.py:190-212 | one node's screen: KeyError for an unknown substation, no plan without load growth, and otherwise the plan that PlanWithExact characterises |
| TransmissionNetwork.PlanWithExact | bangladesh_energy/models/transmission_network.py:190-212 | a plan is proposed exactly when the load grows, the connected lines cannot carry the growth and the shortfall at 1000 per MW is affordable; it buys the shortfall |
| TransmissionNetwork.ReversedExpansion | bangladesh_energy/models/transmission_network.py:196-198 | substation B, then line A to B of 5 MW, then 10 MW of growth at B: the screen as written raises KeyError on (B, A); the corrected one plans 5 MW for 5000 |
| TransmissionNetwork.ReversedIncident | bangladesh_energy/models/transmission_network.py:196 | in that graph B's one incident edge is listed as (B, A) |
| TransmissionNetwork.ReversedCapacities | bangladesh_energy/models/transmission_network.py:197-199 | the capacity read as written fails on (B, A); read under either orientation it is the line's capacity |
| TransmissionNetwork.ExpansionSound | bangladesh_energy/models/transmission_network.py:183-214 | every plan is for a node with a future load, has positive growth and new capacity, costs 1000 per MW and fits the budget |
| TransmissionNetwork.ExpansionErrors | bangladesh_energy/models/transmission_network.py:190-191 | with every line registered, the screen succeeds exactly when every future load names a known substation |
| TransmissionNetwork.Expansion | bangladesh_energy/models/transmission_network.py:183-214 | the plans of the future loads in order, the first failing node deciding the error (ExpansionSound, ExpansionErrors and ExpansionPrefix prove what each plan is and when the screen fails) |
| TransmissionNetwork.TransmissionNetworkModel.constructor | bangladesh_energy/models/transmission_network.py:34-37 | an empty graph, no substations and no lines; the model's invariant holds |
| TransmissionNetwork.TransmissionNetworkModel.AddSubstation | bangladesh_energy/models/transmission_network.py:39-47 | stores the substation under its name and adds its node, lines unchanged; keeps the graph well formed and every edge keyed |
| TransmissionNetwork.TransmissionNetworkModel.AddTransmissionLine | bangladesh_energy/models/transmission_network.py:49-60 | stores the line under (from, to) and adds its edge, substations unchanged; keeps the graph well formed and every edge keyed |
| TransmissionNetwork.TransmissionNetworkModel.CalculatePowerFlow | bangladesh_energy/models/transmission_network.py:62-99 | the table of the reported edges, each line found under either orientation; only a division by zero can fail |
| TransmissionNetwork.TransmissionNetworkModel.IdentifyBottlenecks | bangladesh_energy/models/transmission_network.py:147-163 | the bottleneck list of the table, as the filter and the per-row records define it |
| TransmissionNetwork.TransmissionNetworkModel.OptimizeNetworkExpansion | bangladesh_energy/models/transmission_network.py:183-214 | the expansion screen over the future loads, which succeeds exactly when every load names a known substation |
| TransmissionNetwork.PowerFlowsPrefix | bangladesh_energy/models/transmission_network.py:76-78 | once an edge fails, the rest of the edges do not change the error |
| TransmissionNetwork.BottleneckRowsPrefix | bangladesh_energy/models/transmission_network.py:154-160 | once a busy row has no line, the rest of the rows do not change the error |
| TransmissionNetwork.ExpansionPrefix | bangladesh_energy/models/transmission_network.py:190-191 | once a node raises, the rest of the loads do not change the error |
| DistributionNetwork.LineRowOf | bangladesh_energy/models/distribution_network.py:108-129 | a row exists exactly when the line's flow can be computed, and it carries the edge's two ends |
| DistributionNetwork.LineRowBounds | bangladesh_energy/models/distribution_network.py:112-128 | a line with a reactance and a positive capacity carries at most its capacity, has a utilization between 0 and 1, and loses no negative power under non-negative resistance and length |
| DistributionNetwork.InjectionsReadExact | bangladesh_energy/models/distribution_network.py:97-104 | the injection reads at a timestamp pass exactly when every node finds its own profile (generation for a generator, load otherwise) and the timestamp in it |
| DistributionNetwork.InjectionRead | bangladesh_energy/models/distribution_network.py:98-104 | one node's injection read: a generator reads its generation profile, any other node its load profile; a missing profile is KeyError, a missing timestamp a row KeyError (InjectionReadErrors, InjectionsReadExact) |
| DistributionNetwork.EdgeRowsExact | bangladesh_energy/models/distribution_network.py:107-129 | the rows at one timestamp are one per edge, in edge order, each that edge's line row stamped with the timestamp |
| DistributionNetwork.EdgeRowsCovered | bangladesh_energy/models/distribution_network.py:107-109 | with every line registered, a division by zero is the only failure over the graph's edges |
| DistributionNetwork.EdgeRows | bangladesh_energy/models/distribution_network.py:107-129 | the rows of the edges at one timestamp, each line found under either orientation; EdgeRowsExact and EdgeRowsCovered prove their shape and that only a division by zero can fail |
| DistributionNetwork.EdgeRowsAsWritten | bangladesh_energy/models/distribution_network.py:107-129 | the same rows with each line read as `lines[(from_node, to_node)]` in the reported orientation; EdgeRowsAsWrittenAgrees and ReversedDistributionLine relate it to EdgeRows |
| DistributionNetwork.EdgeRowsAsWrittenAgrees | bangladesh_energy/models/distribution_network.py:107-109 | where the lookup as written succeeds, and whenever every edge is keyed the way it is reported, it gives the same rows as the lookup under either orientation |
| DistributionNetwork.ReversedDistributionLine | bangladesh_energy/models/distribution_network.py:107-109 | transformer B, then the line A to B: the edge is reported as (B, A), the rows as written fail with KeyError on (B, A), and the rows under either orientation are computed |
| DistributionNetwork.GridIndexBelow | bangladesh_energy/models/distribution_network.py:95-129 | a cell of an earlier timestamp lies before all rows of the later ones |
| DistributionNetwork.FlowsGrid | bangladesh_energy/models/distribution_network.py:95-131 | the table is a timestamp-by-edge grid: row i × edges + j is edge j's line at timestamp i, whatever the load and generation values |
| DistributionNetwork.GridCell | bangladesh_energy/models/distribution_network.py:122-129 | each cell of a grid holds its timestamp and its edge's line row |
| DistributionNetwork.GridAppend | bangladesh_energy/models/distribution_network.py:95-129 | appending one row per edge for the next timestamp extends the grid |
| DistributionNetwork.FlowsErrors | bangladesh_energy/models/distribution_network.py:95-131 | with every line registered, only a missing profile, a missing timestamp or a division by zero can stop the flow |
| DistributionNetwork.Flows | bangladesh_energy/models/distribution_network.py:95-131 | the timestamps in order, each reading every node's injection and then contributing its edge rows, the first failure deciding the error (FlowsGrid, FlowsErrors and FlowsPrefix prove the grid and the errors) |
| DistributionNetwork.DistributionFlows | bangladesh_energy/models/distribution_network.py:86-131 | StopIteration with no load profile; otherwise the flows over the timestamps of the first load profile (CalculatePowerFlow states it) |
| DistributionNetwork.InjectionReadErrors | bangladesh_energy/models/distribution_network.py:98-104 | the injection reads fail only with a missing profile or the timestamp missing |
| DistributionNetwork.Rows | bangladesh_energy/models/distribution_network.py:140-141 | the flow rows of a table, in order, without their timestamps |
| DistributionNetwork.TouchingExact | bangladesh_energy/models/distribution_network.py:176-179 | the rows kept for a transformer are exactly those whose line starts or ends at it |
| DistributionNetwork.Loading | bangladesh_energy/models/distribution_network.py:176-181 | a loading is a number exactly when some row touches the transformer and its capacity is not zero |
| DistributionNetwork.LoadingMean | bangladesh_energy/models/distribution_network.py:180-181 | under a positive capacity, a touched transformer's loading is its mean absolute flow over its capacity, never negative |
| DistributionNetwork.TransformerLoading | bangladesh_energy/models/distribution_network.py:170-183 | one entry per transformer, in registration order, each its loading over the table |
| DistributionNetwork.PerformanceOf | bangladesh_energy/models/distribution_network.py:133-156 | fails (KeyError) exactly on an empty table; the total loss is the summed losses, and the loss factor is 0 under no flow and losses over flow otherwise |
| DistributionNetwork.PerformanceLossFactor | bangladesh_energy/models/distribution_network.py:140-142 | non-negative losses give a loss factor that is not negative |
| DistributionNetwork.DistributionNetworkModel.constructor | bangladesh_energy/models/distribution_network.py:47-51 | an empty graph and no transformers, lines or generators; the model's invariant holds |
| DistributionNetwork.DistributionNetworkModel.AddTransformer | bangladesh_energy/models/distribution_network.py:53-61 | stores the transformer under its name and adds its node, the rest unchanged; keeps the invariant |
| DistributionNetwork.DistributionNetworkModel.AddDistributionLine | bangladesh_energy/models/distribution_network.py:63-74 | stores the line under (from, to) and adds its edge, the rest unchanged; keeps the invariant |
| DistributionNetwork.DistributionNetworkModel.AddDistributedGenerator | bangladesh_energy/models/distribution_network.py:76-84 | stores the generator under its name and adds its node, the rest unchanged; keeps the invariant |
| DistributionNetwork.DistributionNetworkModel.ReadInjections | bangladesh_energy/models/distribution_network.py:97-104 | the outcome of reading every node's injection at the timestamp |
| DistributionNetwork.DistributionNetworkModel.EdgeRowsAt | bangladesh_energy/models/distribution_network.py:107-129 | the rows of every reported edge at the timestamp, each line found under either orientation |
| DistributionNetwork.DistributionNetworkModel.CalculatePowerFlow | bangladesh_energy/models/distribution_network.py:86-131 | StopIteration with no load profile; otherwise the flows over the first profile's timestamps; with every line registered, a missing line never causes a failure |
| DistributionNetwork.DistributionNetworkModel.CalculateTransformerLoading | bangladesh_energy/models/distribution_network.py:170-183 | the loading of every transformer, in order |
| DistributionNetwork.DistributionNetworkModel.AnalyzeNetworkPerformance | bangladesh_energy/models/distribution_network.py:133-156 | the performance summary of the table |
| DistributionNetwork.InjectionsReadPrefix | bangladesh_energy/models/distribution_network.py:97-104 | once a node's read fails, the remaining nodes do not change the failure |
| DistributionNetwork.EdgeRowsPrefix | bangladesh_energy/models/distribution_network.py:107-109 | once an edge fails, the remaining edges do not change the error |
| DistributionNetwork.FlowsPrefix | bangladesh_energy/models/distribution_network.py:95 | once a timestamp fails, the remaining timestamps do not change the error |
| RunScenarios.ScaledCosts | bangladesh_energy/run_scenarios.py:153-155 | scaling the listed technologies' costs keeps the technology table's keys |
| RunScenarios.ScaledCostsAt | bangladesh_energy/run_scenarios.py:153-155 | for distinct names, exactly the listed technologies' rows change, each to its capital and O&M cost times the factor |
| RunScenarios.FirstAbsent | bangladesh_energy/run_scenarios.py:153-154 | the first listed technology missing from the table: every earlier one is present and it is absent (the list length when none is) |
| RunScenarios.FirstAbsentIs | bangladesh_energy/run_scenarios.py:153-154 | any position with every earlier name present and itself absent is the first missing one |
| RunScenarios.ScaleValues | bangladesh_energy/run_scenarios.py:158-159 | every incentive times the factor, keys and order kept |
| RunScenarios.ScaleValuesKeysAndTotal | bangladesh_energy/run_scenarios.py:158-159 | scaling the incentives keeps their keys and scales their total by the factor |
| RunScenarios.TransitionEffects | bangladesh_energy/run_scenarios.py:143-159 | with the three renewables in the table, a transition sets the targets, scales exactly those three technologies' capital and O&M costs, scales every incentive and changes nothing else |
| RunScenarios.TransitionMissingTechnology | bangladesh_energy/run_scenarios.py:153-155 | without one of the renewables the edit raises KeyError naming the first missing one, after setting the targets, and the incentives are untouched |
| RunScenarios.Transition | bangladesh_energy/run_scenarios.py:143-159 | new targets, then the three renewables' costs scaled in turn (KeyError at the first missing one, the edit ending there), then every incentive scaled (TransitionEffects and TransitionMissingTechnology prove it) |
| RunScenarios.ModifiedKeepsRunInputs | bangladesh_energy/run_scenarios.py:129-186 | no scenario edit touches the horizon or the employment factors |
| RunScenarios.DefaultAcceleratedCosts | bangladesh_energy/run_scenarios.py:152-155 | on the default settings, the accelerated scenario puts solar at 640 (O&M 12), wind at 960 and biomass at 2000 USD/kW |
| RunScenarios.DefaultAcceleratedIncentives | bangladesh_energy/run_scenarios.py:157-159 | on the default settings, the accelerated scenario raises the incentives to 15%, 22.5% and 30% |
| RunScenarios.PositiveFlags | bangladesh_energy/run_scenarios.py:77 | one flag per technology, set when its capacity is positive |
| RunScenarios.CapexTerms | bangladesh_energy/run_scenarios.py:77-80 | one capital cost per technology, zero for a technology without positive capacity |
| RunScenarios.InvestmentSumsDefined | bangladesh_energy/run_scenarios.py:76-82 | the appraisal loop succeeds exactly when every technology with positive capacity has a levelized cost at its generation |
| RunScenarios.InvestmentSumsCount | bangladesh_energy/run_scenarios.py:76-82 | on success the count is the number of technologies with positive capacity |
| RunScenarios.InvestmentSumsCapex | bangladesh_energy/run_scenarios.py:76-80 | on success the investment is the sum of the capital costs of the technologies with positive capacity |
| RunScenarios.AverageLcoe | bangladesh_energy/run_scenarios.py:84 | zero when no technology was appraised |
| RunScenarios.AverageLcoeMean | bangladesh_energy/run_scenarios.py:84 | over at least one technology, the average times the count is the total |
| RunScenarios.EnvironmentSumsNonNegative | bangladesh_energy/run_scenarios.py:87-95 | with non-negative factors, generation and capacity, no footprint total is negative |
| RunScenarios.UnknownTechnologyAddsNothing | bangladesh_energy/run_scenarios.py:91-95 | a generation entry of a technology none of the factor tables knows adds nothing to any total |
| RunScenarios.EmploymentNonNegative | bangladesh_energy/run_scenarios.py:98-104 | with non-negative employment factors, the intended employment is never negative |
| RunScenarios.EmploymentAsWritten | bangladesh_energy/run_scenarios.py:98-104 | the helper is never imported, so the loop raises NameError exactly when some technology has positive capacity, and gives 0 otherwise |
| RunScenarios.EmploymentFinding | bangladesh_energy/run_scenarios.py:98-104 | 100 MW of wind: the loop as written raises NameError, while the intended one counts 0.03 jobs on the default factors |
| RunScenarios.EmploymentAgrees | bangladesh_energy/run_scenarios.py:98-104 | without positive capacity both versions agree on 0 jobs |
| RunScenarios.EmploymentNameErrorFinding | bangladesh_energy/run_scenarios.py:63-116 | for an appraisable summary the intended year row exists; with any positive capacity the row as written is a NameError, and without one the two rows are equal |
| RunScenarios.SumInvestments | bangladesh_energy/run_scenarios.py:72-82 | the appraisal loop computes the investment, summed levelized cost and count, or the first appraisal's error |
| RunScenarios.InvestmentErrorPersists | bangladesh_energy/run_scenarios.py:79 | once the appraisal loop fails on a prefix, the rest of the technologies do not change the error |
| RunScenarios.SumFootprints | bangladesh_energy/run_scenarios.py:87-95 | the footprint loop computes the emission, water and land totals over the generation entries |
| RunScenarios.SumEmployment | bangladesh_energy/run_scenarios.py:98-104 | the employment loop computes the intended employment |
| RunScenarios.AggregateYear | bangladesh_energy/run_scenarios.py:68-116 | one year's row: the appraisal totals, the average levelized cost, the footprints, the employment and the sums of the two summary tables, or the appraisal's error |
| RunScenarios.YearRowOf | bangladesh_energy/run_scenarios.py:68-116 | the row exists exactly when every technology with positive capacity can be appraised; it carries the year, the renewable share, both summary sums, the summed capital costs and the intended employment |
| RunScenarios.YearRowAsWritten | bangladesh_energy/run_scenarios.py:68-116 | the row with the employment loop as written, which raises NameError (EmploymentNameErrorFinding compares it with YearRowOf) |
| RunScenarios.Employment | bangladesh_energy/run_scenarios.py:98-104 | jobs per MW times each positive capacity over 1000, 0 for an unknown technology (EmploymentNonNegative, EmploymentFinding, EmploymentAgrees) |
| RunScenarios.YearOutcome | bangladesh_energy/run_scenarios.py:64-116 | the row of a year on a system with these tables: RowKeyError outside the hourly index; otherwise the year, the capacity installed in its December 31 row, the year's generation total and its renewable share (on the corrected summary and employment; as written the summary raises AttributeError) |
| RunScenarios.SimulateYear | bangladesh_energy/run_scenarios.py:64-116 | the generation table afterwards is the year's simulation of the old one and the capacity table is unchanged; KeyError('capacity_factor') when a technology lacks a capacity factor, and otherwise the year's row on the new tables (YearOutcome) (the summary taken is the corrected one; as written it raises AttributeError) |
| RunScenarios.SimulateYears | bangladesh_energy/run_scenarios.py:63-118 | the rows and the generation table left behind are exactly those of YearlyRun from the start year, the capacity table unchanged: one row per year in order, the first failure ending the run, a missing capacity factor failing the first year (rows from the corrected summary and employment) |
| RunScenarios.YearlyRun | bangladesh_energy/run_scenarios.py:63-116 | the yearly loop from a year to the end year: one row per year in consecutive order, the tables stay tables, and a technology without a capacity factor fails the first year with KeyError('capacity_factor') (rows from the corrected summary and employment) |
| RunScenarios.YearStep | bangladesh_energy/run_scenarios.py:63-116 | the first year of the loop: its simulated generation, then the rest; the same count, order and capacity-factor error |
| RunScenarios.SimulatedStep | bangladesh_energy/run_scenarios.py:65-116 | after a year's simulation: KeyError('capacity_factor') leaving the generation as simulated when a technology lacks a factor, otherwise the year's row then the rest |
| RunScenarios.RowThenRest | bangladesh_energy/run_scenarios.py:66-116 | the year's row put before the rows of the following years, which stay consecutive |
| RunScenarios.PrependYears | bangladesh_energy/run_scenarios.py:107-116 | the row of a year put before the rows of the following years gives one more row, of consecutive years from it |
| RunScenarios.JoinPrepend | bangladesh_energy/run_scenarios.py:107-116 | taking one more row moves it from the rest of the run to the rows already taken |
| RunScenarios.RunYear | bangladesh_energy/run_scenarios.py:63-116 | one pass of the loop: on error the run's result is that error, otherwise the row taken is the first of the rest of the run, and the loop moves to the next year |
| RunScenarios.RunFresh | bangladesh_energy/run_scenarios.py:44-118 | on a fresh system: row i is year start + i and the aggregation of that year's summary; with `initialize_demand` left out and the default energy configuration, the modelled run fails with KeyError('capacity_factor') |
| RunScenarios.FreshRun | bangladesh_energy/run_scenarios.py:44-118 | a fresh system's run: KeyError naming the first missing solar column, otherwise one row per year of the horizon in order (rows from the corrected summary and employment) |
| RunScenarios.SeededRun | bangladesh_energy/run_scenarios.py:44-118 | the run on the seeded capacity and the empty generation table: one row per year in order, and KeyError('capacity_factor') over a non-empty horizon when a technology lacks a factor (rows from the corrected summary and employment) |
| RunScenarios.DefaultRunFails | bangladesh_energy/run_scenarios.py:44-65 | with `initialize_demand` left out and the default energy configuration, a run over a non-empty horizon fails with KeyError('capacity_factor') |
| RunScenarios.Scenario.constructor | bangladesh_energy/run_scenarios.py:31-34 | a scenario of the given kind, with its name and the default settings |
| RunScenarios.Scenario.ModifyConfig | bangladesh_energy/run_scenarios.py:129-186 | the scenario's edit of its settings: none for the baseline, the transition edits with 0.8/1.5 or 1.2/0.8 for the others |
| RunScenarios.Scenario.Transform | bangladesh_energy/run_scenarios.py:143-159 | the settings after the transition edit, and whether it raised |
| RunScenarios.Scenario.ScaleCosts | bangladesh_energy/run_scenarios.py:153-155 | scales each renewable's costs in turn, stopping with KeyError at the first missing one |
| RunScenarios.Scenario.ScaleIncentives | bangladesh_energy/run_scenarios.py:158-159 | every incentive times the factor, in place |
| RunScenarios.Scenario.Run | bangladesh_energy/run_scenarios.py:40-118 | the edit's error ends the run; otherwise one row per year of the edited horizon; with `initialize_demand` left out and the default energy configuration, the modelled run fails with KeyError('capacity_factor') |
| SimulationConfig.DefaultTechnologies | bangladesh_energy/config/simulation_config.py:24-70 | the five technologies with their capacity factor, capital and O&M cost, lifetime, land and water use and emission factor (DefaultAcceleratedCosts reads them) |
| SimulationConfig.DefaultSettings | bangladesh_energy/config/simulation_config.py:9-185 | the default horizon 2024-2050, targets, technologies, economic parameters, incentives and employment factors (DefaultAcceleratedIncentives, EmploymentFinding read them) |
| Helpers.PerUnitIsFootprint | bangladesh_energy/utils/helpers.py:106-158 | the `get(technology, 0.0)` lookups give the quantity times the factor, and 0 for an unknown technology, like the environmental calculator's membership test |
| Helpers.EmissionsUnits | bangladesh_energy/utils/helpers.py:106-122 | this helper counts emissions per MWh, the environmental calculator per kWh: with one table the latter is 1000 times the former |
| Helpers.PerUnitLinear | bangladesh_energy/utils/helpers.py:106-232 | every per-unit lookup is proportional to its quantity |
| Helpers.DocumentedLookups | bangladesh_energy/utils/helpers.py:106-232 | emissions, water use, land use, employment and community benefits of sample inputs, one case each |
| Helpers.CalculateEmissions | bangladesh_energy/utils/helpers.py:106-122 | the generation times the technology's factor, 0 for an unknown one (PerUnitIsFootprint, EmissionsUnits, PerUnitLinear) |
| Helpers.CalculateWaterUse | bangladesh_energy/utils/helpers.py:124-140 | the generation times the technology's water factor, 0 for an unknown one (PerUnitIsFootprint, PerUnitLinear) |
| Helpers.CalculateLandUse | bangladesh_energy/utils/helpers.py:142-158 | the capacity times the technology's land factor, 0 for an unknown one (PerUnitIsFootprint, PerUnitLinear) |
| Helpers.CalculateEmployment | bangladesh_energy/utils/helpers.py:198-214 | the capacity times the technology's jobs per MW, 0 for an unknown one (PerUnitLinear, DocumentedLookups) |
| Helpers.CalculateCommunityBenefits | bangladesh_energy/utils/helpers.py:216-232 | the revenue times the technology's benefit share, 0 for an unknown one (PerUnitLinear, DocumentedLookups) |
| Helpers.CalculateLcoe | bangladesh_energy/utils/helpers.py:160-196 | the cost is defined exactly when the power and both divisions are; a zero discount rate or capacity factor raises ZeroDivisionError |
| Helpers.ClosedLcoeIsAnnuityForm | bangladesh_energy/utils/helpers.py:180-196 | where defined, the closed form equals capex plus annuity-weighted opex over annuity-weighted generation |
| Helpers.AnnuityFactorIsSum | bangladesh_energy/utils/helpers.py:186 | `(1 - (1 + r) ** -n) / r` equals the year-by-year discounted sum of n unit payments |
| Helpers.ClosedFormAgreesWithSums | bangladesh_energy/utils/helpers.py:160-196 | for a natural lifetime the closed form gives the same result, and the same error, as the economic model's year-by-year sums |
| Helpers.ClosedFormFailsWithSums | bangladesh_energy/utils/helpers.py:189-196 | both forms fail exactly when generation times the annuity factor is 0 |
| Helpers.ClosedLcoePositive | bangladesh_energy/utils/helpers.py:160-196 | positive costs, capacity factor and rate and a lifetime of a year or more give a positive cost per kWh |
| Helpers.HourlyDemandAt | bangladesh_energy/utils/helpers.py:43-57 | an hour's demand never exceeds the grown peak |
| Helpers.DemandGrowth | bangladesh_energy/utils/helpers.py:33-34 | the growth factor `1.06 ** (year - start)` is positive |
| Helpers.CalculateHourlyDemand | bangladesh_energy/utils/helpers.py:10-59 | one value per hour from January 1, 00:00 to December 31, 23:00, none above the grown peak |
| Helpers.HourlyDemandIsClamped | bangladesh_energy/utils/helpers.py:43-57 | each hour is the grown base load times both patterns when that stays below the grown peak, and the grown peak otherwise |
| Helpers.PatternNonNegative | bangladesh_energy/utils/helpers.py:47-50 | a pattern value `sin * variation + 1` is non-negative for a sine in [-1, 1] and a variation in [0, 1] |
| Helpers.HourlyDemandNonNegative | bangladesh_energy/utils/helpers.py:43-57 | demand is never negative for non-negative base and peak loads and variations in [0, 1] |
| Helpers.LeapYearDemandLength | bangladesh_energy/utils/helpers.py:36-41 | a leap year such as 2024 has 8784 hourly values, not 8760 |
| Helpers.CalculateCapacityFactor | bangladesh_energy/utils/helpers.py:78-104 | a technology other than solar and wind has its table constant, and 0 when it has none |
| Helpers.CapacityFactorInUnit | bangladesh_energy/utils/helpers.py:61-104 | with the trigonometric terms in range, every capacity factor lies in [0, 1] |
| Helpers.FormatPower | bangladesh_energy/utils/helpers.py:242-249 | GW from 1e6, MW from 1e3, kW below; the shown amount times the unit is the value, and at least 1 and below 1000 in range |
| Helpers.FormatEnergy | bangladesh_energy/utils/helpers.py:251-260 | TWh from 1e9, GWh from 1e6, MWh from 1e3, kWh below; the shown amount times the unit is the value |
| Helpers.FormatPercentage | bangladesh_energy/utils/helpers.py:238-240 | a fraction is shown as its hundredfold with unit "%" |
| RunSensitivity.ParseParameterSound | bangladesh_energy/run_sensitivity.py:175-194 | every accepted name selects one of the nine known parameters, and that parameter's name is the name given |
| RunSensitivity.ParseParameterComplete | bangladesh_energy/run_sensitivity.py:175-192 | the name of each known parameter selects it |
| RunSensitivity.SetParameterDefined | bangladesh_energy/run_sensitivity.py:173-194 | setting succeeds exactly for a known name whose parameter has a current value; an unknown name is ValueError('Unknown parameter: …') and a missing technology is KeyError naming it |
| RunSensitivity.SetThenGet | bangladesh_energy/run_sensitivity.py:173-192 | after a set the parameter reads back as the value, every other parameter reads as before, and the horizon, targets, incentives, employment factors and technology set are unchanged |
| RunSensitivity.SetParameterTwice | bangladesh_energy/run_sensitivity.py:173-192 | setting a parameter twice is setting it once to the second value |
| RunSensitivity.ParseParameter | bangladesh_energy/run_sensitivity.py:175-194 | the parameter a name selects, none for an unknown name (ParseParameterSound, ParseParameterComplete) |
| RunSensitivity.SetParameter | bangladesh_energy/run_sensitivity.py:173-194 | the settings with the named parameter set, ValueError for an unknown name and KeyError for a missing technology (SetParameterDefined, SetThenGet, SetParameterTwice) |
| RunSensitivity.RowOfYear | bangladesh_energy/run_sensitivity.py:159 | the target year's first row, found exactly when some row has that year; IndexError otherwise |
| RunSensitivity.RowOfYearInRun | bangladesh_energy/run_sensitivity.py:159 | in a run's table the target year is found exactly when it lies in the horizon, at its offset from the start year |
| RunSensitivity.RowOfYearFirst | bangladesh_energy/run_sensitivity.py:159 | when no earlier row has the target year, the row found is the one at the given position |
| RunSensitivity.SensitivityRowOf | bangladesh_energy/run_sensitivity.py:161-169 | the value tested and the seven result columns copied from the target year's row |
| RunSensitivity.AnalysisRow | bangladesh_energy/run_sensitivity.py:152-169 | one value: the setting's error, else the run's error, else the target year's row labelled with the value |
| RunSensitivity.AnalysisRowOfRun | bangladesh_energy/run_sensitivity.py:152-169 | over a run of the horizon, the row exists exactly when the value can be set, the run succeeds and the target year lies in the horizon, and it is the target year's row labelled with the value; IndexError when the year lies outside |
| RunSensitivity.PassRuns | bangladesh_energy/run_sensitivity.py:150-152 | each pass re-runs the base case on a new energy system with that pass's own noise draw; each such run has one row per year of the horizon, in order |
| RunSensitivity.AnalysisOfRuns | bangladesh_energy/run_sensitivity.py:148-171 | over one run per value, the analysis succeeds exactly when every value can be set, every run succeeds and the target year lies in the horizon; then row i is the target year's row of run i labelled with value i |
| RunSensitivity.Analysis | bangladesh_energy/run_sensitivity.py:117-171 | the rows of the values in order, value i over the run of a fresh system with draw i of the noise, the first failing value deciding the error (AnalysisOfBaseRuns and AnalysisUnknownParameter prove its content) |
| RunSensitivity.AnalysisOfBaseRuns | bangladesh_energy/run_sensitivity.py:117-171 | the same with pass i's own fresh run: row i is the target year's row of the run under draw i; an unknown parameter fails with ValueError('Unknown parameter: …') |
| RunSensitivity.AnalysisUnknownParameter | bangladesh_energy/run_sensitivity.py:193-194 | an unknown parameter fails the whole analysis with ValueError('Unknown parameter: …') |
| RunSensitivity.SensitivityAnalysis.constructor | bangladesh_energy/run_sensitivity.py:31-33 | the default settings and no base results |
| RunSensitivity.SensitivityAnalysis.ModifyParameter | bangladesh_energy/run_sensitivity.py:173-194 | sets the named parameter in place, or fails with the setting's error and leaves the settings unchanged |
| RunSensitivity.SensitivityAnalysis.SetCapex | bangladesh_energy/run_sensitivity.py:181-186 | sets a technology's capital cost, or raises KeyError for a missing technology and changes nothing |
| RunSensitivity.SensitivityAnalysis.SetCapacityFactor | bangladesh_energy/run_sensitivity.py:187-192 | sets a technology's capacity factor, or raises KeyError for a missing technology and changes nothing |
| RunSensitivity.SensitivityAnalysis.RunBaseCase | bangladesh_energy/run_sensitivity.py:35-115 | on success keeps one row per year of the horizon as the base results; on failure keeps the old ones; with `initialize_demand` left out and the default energy configuration, the modelled run fails with KeyError('capacity_factor') |
| RunSensitivity.SensitivityAnalysis.RunSensitivityAnalysis | bangladesh_energy/run_sensitivity.py:117-171 | the result is the analysis of the settings it started from (Analysis): an unknown name fails with ValueError before anything runs; on success there is one row per value, row i being the target year's row of pass i's fresh run, under its own noise draw, labelled with value i (AnalysisOfBaseRuns), and the settings hold the last value |
| RunSensitivity.SensitivityAnalysis.Sweep | bangladesh_energy/run_sensitivity.py:148-171 | the loop over the values returns the collected analysis steps, the first failure deciding; on success the settings hold the last value, and an unknown name leaves them unchanged |
| RunSensitivity.SensitivityAnalysis.RunSensitivityAnalysisTo2050 | bangladesh_energy/run_sensitivity.py:117-122 | called without a target year, the analysis targets 2050 |
| RunSensitivity.SensitivityAnalysis.AnalyseValue | bangladesh_energy/run_sensitivity.py:152-169 | one value: sets it, runs the base case and takes the target year's row; the result is that value's analysis row, and the settings hold the value when it could be set |
| RunSensitivity.SensitivityAnalysis.AnalyseStep | bangladesh_energy/run_sensitivity.py:149-169 | one pass of the loop, run with that pass's own noise draw: an error is the whole analysis's error (ValueError for an unknown name on the first pass), otherwise the rows taken grow by that value's row and the settings hold it |

## Left out

- IRR: `scipy.optimize.newton` is a library root finder; the appraisal takes it as a function parameter and states only that the IRR is that function's value on the cash flows.
- Randomness and trigonometry: the generation noise, the sine patterns of `calculate_hourly_demand` and the solar and wind branches of `calculate_capacity_factor` are inputs (the patterns bounded to [-1, 1]).
- The learning-curve factor `0.8 ** ((year - 2020) / 2)` has a real exponent; it is a positive function supplied with the cost model.
- `initialize_demand` broadcasts a 24-hour pattern against a year of hours and raises ValueError, so the demand table and `total_demand` are not modelled. In the source, every `EnergySystem()` therefore fails at construction, and the configuration dataclass (next line) fails before that: the drivers never reach `simulate_generation`. The modelled drivers start from a constructed system, and what they state about the default configuration (KeyError('capacity_factor')) holds of the model only.
- Floating point: rounding, overflow to infinity and NaN propagation beyond the NaN cells and divisions named in the contracts; the digits that `format_*` print and `format_currency`.
- The configuration object: a dataclass with dictionary defaults is rejected when the class is created, so the settings are the transcribed constant tables; tables nothing in the core reads are not transcribed.
- `calculate_market_metrics` (price standard deviation and surplus reporting), `_get_generator_bids` (a bid list nothing calls), `calculate_performance_metrics` of the storage model and `analyze_participant_behavior` of the demand-response model (correlation coefficients and statistics over the result tables): reporting statistics outside the modelled operations.
- Grid stability over numpy values: a division by a zero numpy value gives infinity or NaN rather than raising; the model stops at a zero divisor instead.
- Duplicate timestamp labels: the price and temperature series of the demand-response model and the load series the grid-stability model reads for each generation snapshot are association lists read at their first entry for a label, and event windows are sliced by label on an index assumed sorted. A series with a repeated timestamp, where pandas would return several rows, is not modelled.
- networkx graph metrics (degree, clustering, diameter, N-1 security): library algorithms outside this model.
- Node and edge attributes stored in the graph, and the power injections both networks compute and never read.
- NetworkGraph.ReportedComplete: states that every edge is reported in one orientation or the other, not that it is reported exactly once.
- `optimize_network_operation` of the distribution network and its `_optimize_*`, voltage-profile and DG-impact placeholders: constant dictionaries; the performance summary carries the placeholders as constants.
- The dashboard, plots and reports of the drivers and of the analysis module, `run_simulation.py`, `main.py` and `weather_model.py`: output and orchestration outside the core.
- Tables without rows: the models' own result tables are frames of record lists (`pd.DataFrame(results)`), which have no columns when the list is empty, so the first column read raises KeyError. The model applies this where such a table without rows is read: `DemandResponse.ProgramMetricsOf` (`load_reduction`), `GridStability.Reliability` (`frequency_deviation`), `TransmissionNetwork.Bottlenecks` (`utilization`) and `TransmissionNetwork.NetworkLosses` (`losses`). The drivers' run table is built from a dictionary of column lists, so it keeps its columns: a missing target year raises IndexError (`RunSensitivity.RowOfYear`), and so does the first positional read of an empty results table (`AdvancedAnalysis.MetricsOf`). A caller-supplied record table without rows passed to those readers is not modelled.
- The yearly aggregation loop, written out twice in the source (scenario run and sensitivity base case), is modelled once and shared.
- The source's own test expects 8760 hours for 2024; the model follows the calendar and gives 8784 for a leap year.

## Findings

| source | as written | input that shows it | evidently intended | confidence | as-written member | corrected member |
|---|---|---|---|---|---|---|
| bangladesh_energy/models/energy_system.py:180-183 | `groupby` with a function groups the rows (timestamps), and the grouping function splits a timestamp as a string, raising AttributeError | any year inside the index (`EnergySystem.SummaryGroupingFinding`) | group the columns by technology prefix | not executed; high | EnergySystem.EnergySystem.GetSystemSummaryAsWritten | EnergySystem.EnergySystem.GetSystemSummary |
| bangladesh_energy/run_scenarios.py:101 | `calculate_employment` is called but never imported, raising NameError | a summary with 100 MW of wind (`RunScenarios.EmploymentFinding`, `RunScenarios.EmploymentNameErrorFinding`) | call the helper: jobs per MW times capacity over 1000 | not executed; high | RunScenarios.EmploymentAsWritten | RunScenarios.Employment |
| bangladesh_energy/models/market_model.py:65 | iterating the generator dictionary yields names, whose `.capacity` raises AttributeError | one 100 MW generator and 50 MWh of demand (`MarketModel.ClearMarketFinding`) | sum the capacities of the generator values | not executed; high | MarketModel.ClearMarketAsWritten | MarketModel.ClearMarketRow |
| bangladesh_energy/models/grid_stability.py:105-108 | the frequency deviation (around 0 Hz) is compared with the 49.5–50.5 Hz band | a perfectly balanced grid under the default band | compare the frequency, 50 Hz plus the deviation, with the band | not executed; medium | GridStability.BalancedGridUnstableAsWritten | GridStability.BalancedGridStable |
| bangladesh_energy/models/transmission_network.py:76-78 | each reported edge is looked up as `lines[(from, to)]` in the orientation networkx reports, which may be the reverse of the registered key, raising KeyError; `identify_bottlenecks` repeats the lookup on the rows of that table at transmission_network.py:160 | substation B, then the line A to B (`NetworkGraph.ReversedLineMissed`) | look the line up under either orientation | not executed; medium | NetworkGraph.LineAsWritten | NetworkGraph.LineOf |
| bangladesh_energy/models/transmission_network.py:196-198 | the edges of a node are listed from that node and looked up as `lines[edge]`, raising KeyError for a line registered towards it | substation B, the 5 MW line A to B, 10 MW of growth at B (`TransmissionNetwork.ReversedExpansion`) | read each connected line under either orientation | not executed; medium | TransmissionNetwork.PlanAsWritten | TransmissionNetwork.Plan |
| bangladesh_energy/models/distribution_network.py:107-109 | each reported edge is looked up as `lines[(from, to)]` in the orientation networkx reports, raising KeyError for a line registered the other way round | transformer B, then the line A to B (`DistributionNetwork.ReversedDistributionLine`) | look the line up under either orientation | not executed; medium | DistributionNetwork.EdgeRowsAsWritten | DistributionNetwork.EdgeRows |
