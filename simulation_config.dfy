// The simulation settings the scenario and sensitivity drivers read and
// write: the horizon, the renewable targets, the technology table, the
// economic parameters, the renewable incentives and the employment factors.
// The remaining tables of the settings (environmental, grid, storage,
// demand, the other policy and social entries) are read by nothing modelled
// here and are not part of this model.

module SimulationConfig {

  /** One row of the technology table. */
  datatype TechParams = TechParams(
    capacityFactor: real,
    capex: real,          // USD/kW
    opex: real,           // USD/kW/year
    lifetime: int,
    landUse: real,        // m2/kW
    waterUse: real,       // m3/MWh
    emissionFactor: real) // tCO2/MWh

  datatype EconomicParams = EconomicParams(
    discountRate: real,
    inflationRate: real,
    exchangeRate: real,
    carbonPrice: real,
    fuelPrices: map<string, real>,
    opexEscalation: real)

  datatype Settings = Settings(
    startYear: int,
    endYear: int,
    renewableTargets: seq<(int, real)>,
    technologies: map<string, TechParams>,
    economicParams: EconomicParams,
    renewableIncentives: seq<(string, real)>,
    employmentFactors: map<string, real>)

  function DefaultTechnologies(): map<string, TechParams>
  {
    map["solar_pv" := TechParams(0.18, 800.0, 15.0, 25, 2.5, 0.0, 0.0),
        "wind" := TechParams(0.25, 1200.0, 30.0, 20, 0.5, 0.0, 0.0),
        "biomass" := TechParams(0.70, 2500.0, 100.0, 20, 0.1, 1.5, 0.0),
        "natural_gas" := TechParams(0.85, 1000.0, 50.0, 25, 0.05, 1.0, 0.4),
        "coal" := TechParams(0.80, 2000.0, 80.0, 30, 0.1, 2.0, 0.8)]
  }

  function DefaultSettings(): Settings
  {
    Settings(
      2024, 2050,
      [(2030, 0.15), (2041, 0.40), (2050, 1.00)],
      DefaultTechnologies(),
      EconomicParams(0.08, 0.05, 110.0, 50.0,
                     map["natural_gas" := 5.0, "coal" := 60.0, "oil" := 80.0], 0.02),
      [("solar_pv", 0.10), ("wind", 0.15), ("biomass", 0.20)],
      map["solar_pv" := 0.5, "wind" := 0.3, "biomass" := 1.0, "natural_gas" := 0.2, "coal" := 0.4])
  }
}
