/**
 * The value records the energy-and-cost calculator reads. Only the values
 * returned by the getters the calculator calls are kept; the thermodynamics
 * that produce them belong to other components.
 */
module SteamDomain {
  import opened Wrappers

  /** A turbine, seen through `getPowerOut`. */
  datatype Turbine = Turbine(powerOut: real)

  /** A boiler, seen through `getFuelEnergy`. */
  datatype Boiler = Boiler(fuelEnergy: real)

  /** The operating inputs of one scenario, one field per getter. */
  datatype OperationsInput = OperationsInput(
    sitePowerImport: real,
    electricityCosts: real,
    fuelCosts: real,
    makeUpWaterCosts: real,
    operatingHoursPerYear: real)

  /** The turbine slots of the high-pressure header; each may be absent. */
  datatype HighPressureHeaderCalculationsDomain = HighPressureHeaderCalculationsDomain(
    condensingTurbine: Option<Turbine>,
    highToLowPressureTurbine: Option<Turbine>,
    highToMediumPressureTurbine: Option<Turbine>)

  /** The turbine slot of the medium-pressure header; the header itself may be absent too. */
  datatype MediumPressureHeaderCalculationsDomain = MediumPressureHeaderCalculationsDomain(
    mediumToLowPressureTurbine: Option<Turbine>)

  /** The eight results of one calculation, in the order the calculator returns them. */
  datatype EnergyAndCostCalculationsDomain = EnergyAndCostCalculationsDomain(
    powerGenerated: real,
    sitePowerImportUpdated: real,
    powerDemand: real,
    powerGenerationCost: real,
    boilerFuelCost: real,
    makeupWaterCost: real,
    totalOperatingCost: real,
    boilerFuelUsage: real)
}
