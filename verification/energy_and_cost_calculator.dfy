/**
 * The steam-system energy-and-cost calculator: from the turbines that are
 * present, the boiler and the operating inputs of one scenario (a measured
 * baseline, or a modification compared against it) it derives power
 * generated, site power import, power demand, the three annual costs, their
 * total and the boiler's annual fuel usage.
 */
module EnergyAndCostCalculator {
  import opened Wrappers
  import opened SteamDomain
  import opened TurbineSum

  /**
   * One step of the power accumulation: a null turbine leaves the running
   * total unchanged, a present one adds its output.
   */
  function AddPowerOutToPowerGenerated(turbine: Option<Turbine>, powerGenerated: real): (r: real)
    ensures turbine.None? ==> r == powerGenerated
    ensures r == powerGenerated + SlotPower([turbine])
  {
    SlotPowerSingle(turbine);
    if turbine.None? then powerGenerated else powerGenerated + turbine.value.powerOut
  }

  /**
   * After a step, the running total covers one more slot: the accumulator
   * invariant of the calculator's power sum.
   */
  lemma AccumulateSlot(visited: seq<Option<Turbine>>, turbine: Option<Turbine>, powerGenerated: real)
    requires powerGenerated == SlotPower(visited)
    ensures AddPowerOutToPowerGenerated(turbine, powerGenerated) == SlotPower(visited + [turbine])
  {
    SlotPowerAppend(visited, [turbine]);
  }

  /**
   * Power generated: the four turbine slots visited in order, the medium to
   * low turbine only when the medium header is present. Equals the sum of
   * the outputs of the present turbines.
   */
  function CalcPowerGenerated(high: HighPressureHeaderCalculationsDomain,
                              medium: Option<MediumPressureHeaderCalculationsDomain>): (r: real)
    ensures r == SlotPower(TurbineSlots(high, medium))
  {
    var c, hl, hm := high.condensingTurbine, high.highToLowPressureTurbine, high.highToMediumPressureTurbine;
    var g0 := 0.0;
    assert g0 == SlotPower([]);
    AccumulateSlot([], c, g0);
    assert [] + [c] == [c];
    var g1 := AddPowerOutToPowerGenerated(c, g0);
    AccumulateSlot([c], hl, g1);
    assert [c] + [hl] == [c, hl];
    var g2 := AddPowerOutToPowerGenerated(hl, g1);
    AccumulateSlot([c, hl], hm, g2);
    assert [c, hl] + [hm] == [c, hl, hm];
    var g3 := AddPowerOutToPowerGenerated(hm, g2);
    if medium.None? then
      assert TurbineSlots(high, medium) == [c, hl, hm];
      g3
    else
      var ml := medium.value.mediumToLowPressureTurbine;
      AccumulateSlot([c, hl, hm], ml, g3);
      assert TurbineSlots(high, medium) == [c, hl, hm] + [ml];
      AddPowerOutToPowerGenerated(ml, g3)
  }

  /**
   * Site power import: the measured value in a baseline calculation; in a
   * modification, the residual that keeps demand at the baseline's demand.
   */
  function CalcPowerImport(isBaselineCalc: bool, sitePowerImportInput: real,
                           baselinePowerDemand: real, powerGenerated: real): (r: real)
    ensures isBaselineCalc ==> r == sitePowerImportInput
    ensures !isBaselineCalc ==> r + powerGenerated == baselinePowerDemand
    ensures !isBaselineCalc ==> (r < 0.0 <==> powerGenerated > baselinePowerDemand)
  {
    if isBaselineCalc then sitePowerImportInput else baselinePowerDemand - powerGenerated
  }

  /** Power demand: what the site draws, imported plus self-generated. */
  function CalcPowerDemand(sitePowerImport: real, powerGenerated: real): (r: real)
    ensures r >= powerGenerated <==> sitePowerImport >= 0.0
  {
    sitePowerImport + powerGenerated
  }

  /**
   * In a modification, demand recomputed from the residual import is the
   * baseline demand; and feeding a demand back as the baseline demand with
   * the same generation gives back the import it was computed from.
   */
  lemma DemandImportRoundTrip(sitePowerImport: real, baselinePowerDemand: real, powerGenerated: real)
    ensures CalcPowerDemand(CalcPowerImport(false, sitePowerImport, baselinePowerDemand, powerGenerated),
                            powerGenerated) == baselinePowerDemand
    ensures CalcPowerImport(false, 0.0, CalcPowerDemand(sitePowerImport, powerGenerated),
                            powerGenerated) == sitePowerImport
  {
  }

  /**
   * Annual cost of imported electricity. With a positive price and positive
   * hours it has the sign of the import: a net export is a credit.
   */
  function CalcPowerGenerationCost(sitePowerImportInput: real, electricityCostsInput: real,
                                   operatingHoursPerYearInput: real): (r: real)
    ensures electricityCostsInput > 0.0 && operatingHoursPerYearInput > 0.0 ==>
              (r < 0.0 <==> sitePowerImportInput < 0.0) && (r > 0.0 <==> sitePowerImportInput > 0.0)
    ensures sitePowerImportInput == 0.0 || electricityCostsInput == 0.0 || operatingHoursPerYearInput == 0.0 ==>
              r == 0.0
  {
    sitePowerImportInput * electricityCostsInput * operatingHoursPerYearInput
  }

  /** Annual boiler fuel usage: fuel energy rate over the operating hours. */
  function CalcBoilerFuelUsage(fuelEnergyInput: real, operatingHoursPerYearInput: real): (r: real)
    ensures fuelEnergyInput >= 0.0 && operatingHoursPerYearInput >= 0.0 ==> r >= 0.0
    ensures operatingHoursPerYearInput == 0.0 ==> r == 0.0
  {
    fuelEnergyInput * operatingHoursPerYearInput
  }

  /** Annual boiler fuel cost: the annual fuel usage at the fuel price. */
  function CalcBoilerFuelCost(fuelEnergyInput: real, operatingHoursPerYearInput: real,
                              fuelCostsInput: real): (r: real)
    ensures r == CalcBoilerFuelUsage(fuelEnergyInput, operatingHoursPerYearInput) * fuelCostsInput
    ensures fuelEnergyInput >= 0.0 && operatingHoursPerYearInput >= 0.0 && fuelCostsInput >= 0.0 ==> r >= 0.0
  {
    fuelEnergyInput * operatingHoursPerYearInput * fuelCostsInput
  }

  /** Annual make-up water cost: the water price over the annual volume. */
  function CalcMakeupWaterCost(makeUpWaterCostsInput: real, makeupWaterVolumeFlowAnnual: real): (r: real)
    ensures makeUpWaterCostsInput >= 0.0 && makeupWaterVolumeFlowAnnual >= 0.0 ==> r >= 0.0
    ensures makeUpWaterCostsInput == 0.0 || makeupWaterVolumeFlowAnnual == 0.0 ==> r == 0.0
  {
    makeUpWaterCostsInput * makeupWaterVolumeFlowAnnual
  }

  /** Total annual operating cost: electricity, fuel and make-up water together. */
  function CalcTotalOperatingCost(powerGenerationCost: real, boilerFuelCost: real,
                                  makeupWaterCost: real): (r: real)
    ensures boilerFuelCost >= 0.0 && makeupWaterCost >= 0.0 ==> r >= powerGenerationCost
    ensures powerGenerationCost >= 0.0 && makeupWaterCost >= 0.0 ==> r >= boilerFuelCost
    ensures powerGenerationCost >= 0.0 && boilerFuelCost >= 0.0 ==> r >= makeupWaterCost
  {
    powerGenerationCost + boilerFuelCost + makeupWaterCost
  }

  /** The difference of two total costs is the sum of the differences of their parts. */
  lemma TotalOperatingCostDifference(pg: real, bf: real, mw: real, pg': real, bf': real, mw': real)
    ensures CalcTotalOperatingCost(pg, bf, mw) - CalcTotalOperatingCost(pg', bf', mw')
            == (pg - pg') + (bf - bf') + (mw - mw')
  {
  }

  /**
   * The calculation of one scenario. Never fails: absent turbines and an
   * absent medium header contribute nothing.
   */
  function Calc(isBaselineCalc: bool, baselinePowerDemand: real, operationsInput: OperationsInput,
                boiler: Boiler, high: HighPressureHeaderCalculationsDomain,
                medium: Option<MediumPressureHeaderCalculationsDomain>,
                makeupWaterVolumeFlowAnnual: real): (r: EnergyAndCostCalculationsDomain)
    ensures r.powerGenerated == SlotPower(TurbineSlots(high, medium))
    ensures r.powerDemand == r.sitePowerImportUpdated + r.powerGenerated
    ensures isBaselineCalc ==> r.sitePowerImportUpdated == operationsInput.sitePowerImport
    ensures !isBaselineCalc ==> r.powerDemand == baselinePowerDemand
    ensures r.powerGenerationCost
            == r.sitePowerImportUpdated * operationsInput.electricityCosts * operationsInput.operatingHoursPerYear
    ensures r.boilerFuelUsage == boiler.fuelEnergy * operationsInput.operatingHoursPerYear
    ensures r.boilerFuelCost == r.boilerFuelUsage * operationsInput.fuelCosts
    ensures r.makeupWaterCost == operationsInput.makeUpWaterCosts * makeupWaterVolumeFlowAnnual
    ensures r.totalOperatingCost == r.powerGenerationCost + r.boilerFuelCost + r.makeupWaterCost
  {
    var powerGenerated := CalcPowerGenerated(high, medium);
    var sitePowerImportUpdated :=
      CalcPowerImport(isBaselineCalc, operationsInput.sitePowerImport, baselinePowerDemand, powerGenerated);
    var powerDemand := CalcPowerDemand(sitePowerImportUpdated, powerGenerated);
    var powerGenerationCost := CalcPowerGenerationCost(sitePowerImportUpdated, operationsInput.electricityCosts,
                                                       operationsInput.operatingHoursPerYear);
    var boilerFuelCost := CalcBoilerFuelCost(boiler.fuelEnergy, operationsInput.operatingHoursPerYear,
                                             operationsInput.fuelCosts);
    var makeupWaterCost := CalcMakeupWaterCost(operationsInput.makeUpWaterCosts, makeupWaterVolumeFlowAnnual);
    var totalOperatingCost := CalcTotalOperatingCost(powerGenerationCost, boilerFuelCost, makeupWaterCost);
    var boilerFuelUsage := CalcBoilerFuelUsage(boiler.fuelEnergy, operationsInput.operatingHoursPerYear);
    EnergyAndCostCalculationsDomain(powerGenerated, sitePowerImportUpdated, powerDemand, powerGenerationCost,
                                    boilerFuelCost, makeupWaterCost, totalOperatingCost, boilerFuelUsage)
  }
}
