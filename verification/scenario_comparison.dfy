/**
 * Properties of the calculator across calls: absence of components, the
 * demand kept between a baseline and a modification, and worked scenarios.
 */
module ScenarioComparison {
  import opened Wrappers
  import opened SteamDomain
  import opened TurbineSum
  import opened EnergyAndCostCalculator

  /**
   * Present turbines with zero output aggregate exactly as absent ones:
   * replacing any null turbine slots of a plant by zero-output turbines
   * leaves power generated unchanged.
   */
  lemma ZeroOutputAggregatesLikeAbsent(high: HighPressureHeaderCalculationsDomain,
                                       medium: Option<MediumPressureHeaderCalculationsDomain>,
                                       high': HighPressureHeaderCalculationsDomain,
                                       medium': Option<MediumPressureHeaderCalculationsDomain>)
    requires ZeroFilled(TurbineSlots(high, medium), TurbineSlots(high', medium'))
    ensures CalcPowerGenerated(high, medium) == CalcPowerGenerated(high', medium')
  {
    SlotPowerZeroFilled(TurbineSlots(high, medium), TurbineSlots(high', medium'));
  }

  /**
   * A missing medium header gives the same power generated, and so the same
   * whole result, as a medium header whose medium to low turbine is null.
   */
  lemma MediumHeaderAbsenceEquivalence(isBaselineCalc: bool, baselinePowerDemand: real,
                                       operationsInput: OperationsInput, boiler: Boiler,
                                       high: HighPressureHeaderCalculationsDomain,
                                       makeupWaterVolumeFlowAnnual: real)
    ensures CalcPowerGenerated(high, None)
            == CalcPowerGenerated(high, Some(MediumPressureHeaderCalculationsDomain(None)))
    ensures Calc(isBaselineCalc, baselinePowerDemand, operationsInput, boiler, high, None,
                 makeupWaterVolumeFlowAnnual)
            == Calc(isBaselineCalc, baselinePowerDemand, operationsInput, boiler, high,
                    Some(MediumPressureHeaderCalculationsDomain(None)), makeupWaterVolumeFlowAnnual)
  {
  }

  /** Visiting the turbine slots in any other order gives the same power generated. */
  lemma SlotOrderIndependence(high: HighPressureHeaderCalculationsDomain,
                              medium: Option<MediumPressureHeaderCalculationsDomain>,
                              order: seq<Option<Turbine>>)
    requires multiset(order) == multiset(TurbineSlots(high, medium))
    ensures SlotPower(order) == CalcPowerGenerated(high, medium)
  {
    SlotPowerPermutation(order, TurbineSlots(high, medium));
  }

  /**
   * When every present turbine has a non-negative output, power generated is
   * non-negative and at least the output of each present turbine.
   */
  lemma PowerGeneratedBounds(high: HighPressureHeaderCalculationsDomain,
                             medium: Option<MediumPressureHeaderCalculationsDomain>)
    requires forall t :: Some(t) in TurbineSlots(high, medium) ==> t.powerOut >= 0.0
    ensures CalcPowerGenerated(high, medium) >= 0.0
    ensures forall t :: Some(t) in TurbineSlots(high, medium) ==> t.powerOut <= CalcPowerGenerated(high, medium)
  {
    TotalPowerOutBounds(PresentTurbines(TurbineSlots(high, medium)));
  }

  /**
   * A modification computed against a baseline's demand keeps that demand,
   * and its import moves opposite to its generation.
   */
  lemma DemandPreservedAcrossScenarios(
    anyDemand: real, baseInput: OperationsInput, baseBoiler: Boiler,
    baseHigh: HighPressureHeaderCalculationsDomain, baseMedium: Option<MediumPressureHeaderCalculationsDomain>,
    baseWater: real,
    modInput: OperationsInput, modBoiler: Boiler,
    modHigh: HighPressureHeaderCalculationsDomain, modMedium: Option<MediumPressureHeaderCalculationsDomain>,
    modWater: real)
    ensures var base := Calc(true, anyDemand, baseInput, baseBoiler, baseHigh, baseMedium, baseWater);
            var mod := Calc(false, base.powerDemand, modInput, modBoiler, modHigh, modMedium, modWater);
            && base.powerDemand == baseInput.sitePowerImport + base.powerGenerated
            && mod.powerDemand == base.powerDemand
            && mod.sitePowerImportUpdated - base.sitePowerImportUpdated == base.powerGenerated - mod.powerGenerated
  {
  }

  /**
   * A modification that changes nothing relative to its baseline reproduces
   * the baseline result field for field.
   */
  lemma UnchangedPlantReproducesBaseline(
    anyDemand: real, operationsInput: OperationsInput, boiler: Boiler,
    high: HighPressureHeaderCalculationsDomain, medium: Option<MediumPressureHeaderCalculationsDomain>,
    makeupWaterVolumeFlowAnnual: real)
    ensures var base := Calc(true, anyDemand, operationsInput, boiler, high, medium, makeupWaterVolumeFlowAnnual);
            Calc(false, base.powerDemand, operationsInput, boiler, high, medium, makeupWaterVolumeFlowAnnual) == base
  {
  }

  /**
   * At the same price and hours, the electricity cost saved by a modification
   * computed against a baseline's demand is the extra power it generates,
   * priced over the year.
   */
  lemma PowerCostSavings(baseImport: real, baseGenerated: real, modGenerated: real,
                         electricityCosts: real, operatingHoursPerYear: real)
    ensures var modImport := CalcPowerImport(false, 0.0, CalcPowerDemand(baseImport, baseGenerated), modGenerated);
            CalcPowerGenerationCost(baseImport, electricityCosts, operatingHoursPerYear)
            - CalcPowerGenerationCost(modImport, electricityCosts, operatingHoursPerYear)
            == (modGenerated - baseGenerated) * electricityCosts * operatingHoursPerYear
  {
    var modImport := CalcPowerImport(false, 0.0, CalcPowerDemand(baseImport, baseGenerated), modGenerated);
    assert baseImport - modImport == modGenerated - baseGenerated;
  }

  /**
   * A modification that generates more than the baseline demand is a net
   * exporter: its import is negative and, at a positive price over positive
   * hours, so is its electricity cost.
   */
  lemma NetExportIsCredit(baselinePowerDemand: real, operationsInput: OperationsInput, boiler: Boiler,
                          high: HighPressureHeaderCalculationsDomain,
                          medium: Option<MediumPressureHeaderCalculationsDomain>,
                          makeupWaterVolumeFlowAnnual: real)
    requires CalcPowerGenerated(high, medium) > baselinePowerDemand
    requires operationsInput.electricityCosts > 0.0 && operationsInput.operatingHoursPerYear > 0.0
    ensures var r := Calc(false, baselinePowerDemand, operationsInput, boiler, high, medium,
                          makeupWaterVolumeFlowAnnual);
            r.sitePowerImportUpdated < 0.0 && r.powerGenerationCost < 0.0
  {
  }

  /** Baseline: import 500, turbines of 100, 50 and 0, no medium header. */
  lemma BaselineScenario(anyDemand: real, operationsInput: OperationsInput, boiler: Boiler,
                         makeupWaterVolumeFlowAnnual: real)
    requires operationsInput.sitePowerImport == 500.0
    ensures var r := Calc(true, anyDemand, operationsInput, boiler,
                          HighPressureHeaderCalculationsDomain(Some(Turbine(100.0)), Some(Turbine(50.0)),
                                                               Some(Turbine(0.0))),
                          None, makeupWaterVolumeFlowAnnual);
            r.powerGenerated == 150.0 && r.sitePowerImportUpdated == 500.0 && r.powerDemand == 650.0
  {
  }

  /**
   * Modification against a baseline demand of 650 generating 300, no medium
   * header; at 0.08 per unit over 8000 hours the import costs 224000.
   */
  lemma ModificationScenario(operationsInput: OperationsInput, boiler: Boiler, makeupWaterVolumeFlowAnnual: real)
    requires operationsInput.electricityCosts == 0.08 && operationsInput.operatingHoursPerYear == 8000.0
    ensures var r := Calc(false, 650.0, operationsInput, boiler,
                          HighPressureHeaderCalculationsDomain(Some(Turbine(200.0)), None, Some(Turbine(100.0))),
                          None, makeupWaterVolumeFlowAnnual);
            && r.powerGenerated == 300.0 && r.sitePowerImportUpdated == 350.0 && r.powerDemand == 650.0
            && r.powerGenerationCost == 224000.0
  {
  }

  /** Two identical turbines in different slots both count: 100 and 100 generate 200. */
  lemma IdenticalTurbinesBothCount(medium: Option<MediumPressureHeaderCalculationsDomain>)
    requires medium.None? || medium.value.mediumToLowPressureTurbine.None?
    ensures CalcPowerGenerated(HighPressureHeaderCalculationsDomain(Some(Turbine(100.0)), Some(Turbine(100.0)), None),
                               medium) == 200.0
  {
  }

  /** Fuel: 1000 fuel energy over 8000 hours at 5 per unit. */
  lemma FuelScenario(isBaselineCalc: bool, baselinePowerDemand: real, operationsInput: OperationsInput,
                     high: HighPressureHeaderCalculationsDomain,
                     medium: Option<MediumPressureHeaderCalculationsDomain>, makeupWaterVolumeFlowAnnual: real)
    requires operationsInput.operatingHoursPerYear == 8000.0 && operationsInput.fuelCosts == 5.0
    ensures var r := Calc(isBaselineCalc, baselinePowerDemand, operationsInput, Boiler(1000.0), high, medium,
                          makeupWaterVolumeFlowAnnual);
            r.boilerFuelUsage == 8000000.0 && r.boilerFuelCost == 40000000.0
  {
  }
}
