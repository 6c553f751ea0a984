# Steam-system energy and cost calculator, modelled in Dafny

This project models the energy-and-cost calculator of the steam-system
assessment tool (`EnergyAndCostCalculator`). For one scenario of a steam plant,
the calculator does the following:

- It sums the power of the turbines that are present. There are three slots on the
  high-pressure header and one on the medium-pressure header, and the medium header
  itself may be absent.
- It derives the site power import. A baseline calculation uses the measured import.
  A modification calculation uses the residual against the baseline's power demand.
- It derives power demand as import plus generation.
- It prices electricity, boiler fuel and make-up water over the operating year, and
  gives the total cost and the boiler's annual fuel usage.

The result has eight fields, in the source's order.

Every operation of the calculator is `const` and reads only its arguments.
`calcPowerGenerated` passes one running total through four steps, and the last
step runs only when the medium header is present. `calc` computes its eight
results one after another. The model writes the running total out step by step
and models the rest as Dafny datatypes and functions:

- `wrappers.dfy` (`Wrappers`): `Option`, which stands for a `std::shared_ptr` that may be null.
- `steam_domain.dfy` (`SteamDomain`): turbine, boiler, operating inputs, the two header
  domains and the result record. Each record holds the values the calculator's getters return.
- `turbine_sum.dfy` (`TurbineSum`): a reference definition of power generated. It is the sum
  of `powerOut` over the present turbines among the plant's slots. This module also holds
  the lemmas that make that sum compositional and independent of slot order.
- `energy_and_cost_calculator.dfy` (`EnergyAndCostCalculator`): the calculator's ten operations.
- `scenario_comparison.dfy` (`ScenarioComparison`): properties that relate several calls.
  These are absence equivalence, demand kept between baseline and modification, cost savings,
  net export as a credit, and worked scenarios.

`double` is modelled as `real`. The calculator uses only `+`, `-` and `*`.
The mode is signalled as in the code: a `bool isBaselineCalc`, plus a
`baselinePowerDemand` number that only a modification reads.

The calculator does not check the sign of turbine outputs, prices, volumes or hours.
So no function has a `requires`, and every function is total. Lemmas that need
non-negative values assume them explicitly. Repeated calls with the same inputs give
the same result because every member is a function.

## Model

| member | source | states |
|---|---|---|
| EnergyAndCostCalculator.AddPowerOutToPowerGenerated | src/ssmt/service/energy_and_cost/EnergyAndCostCalculator.cpp:96-113 | a null turbine leaves the running total unchanged; otherwise it adds exactly the contribution of that one slot to the reference sum, so absence is never an error |
| EnergyAndCostCalculator.AccumulateSlot | src/ssmt/service/energy_and_cost/EnergyAndCostCalculator.cpp:64-88 | accumulator invariant: if the running total is the power of the slots visited so far, one more step makes it the power of those slots plus the next one |
| EnergyAndCostCalculator.CalcPowerGenerated | src/ssmt/service/energy_and_cost/EnergyAndCostCalculator.cpp:57-94 | power generated equals the sum of `powerOut` over the present turbines among condensing, high to low, high to medium and, only when the medium header is present, medium to low |
| TurbineSum.TurbineSlots | src/ssmt/service/energy_and_cost/EnergyAndCostCalculator.cpp:66-89 | the slots in visiting order: three from the high header, plus the medium to low slot exactly when the medium header exists |
| TurbineSum.PresentTurbines | src/ssmt/service/energy_and_cost/EnergyAndCostCalculator.cpp:101-110 | a turbine appears exactly when some slot holds it, and nothing is invented |
| TurbineSum.PresentTurbinesCount | src/ssmt/service/energy_and_cost/EnergyAndCostCalculator.cpp:101-110 | each turbine is kept exactly as many times as it fills a slot, so identical turbines in different slots all count |
| TurbineSum.SlotPowerZeroFilled | src/ssmt/service/energy_and_cost/EnergyAndCostCalculator.cpp:101-110 | replacing null slots by zero-output turbines does not change the power of the slots |
| TurbineSum.SlotPowerAppend | src/ssmt/service/energy_and_cost/EnergyAndCostCalculator.cpp:64-88 | the power of two consecutive runs of slots is the sum of their powers |
| TurbineSum.SlotPowerSingle | src/ssmt/service/energy_and_cost/EnergyAndCostCalculator.cpp:101-110 | one slot contributes its turbine's output when present and zero when null |
| TurbineSum.SlotPowerPermutation | src/ssmt/service/energy_and_cost/EnergyAndCostCalculator.cpp:64-88 | any rearrangement of the slots gives the same total, so the summation order does not matter |
| TurbineSum.TotalPowerOutBounds | src/ssmt/service/energy_and_cost/EnergyAndCostCalculator.cpp:64-93 | with non-negative outputs, the total is non-negative and at least every single output |
| EnergyAndCostCalculator.CalcPowerImport | src/ssmt/service/energy_and_cost/EnergyAndCostCalculator.cpp:115-125 | baseline: the measured import is passed through; modification: import plus generation equals the baseline demand, and the import is negative exactly when generation exceeds that demand |
| EnergyAndCostCalculator.CalcPowerDemand | src/ssmt/service/energy_and_cost/EnergyAndCostCalculator.cpp:127-135 | demand is at least self-generation exactly when the import is non-negative |
| EnergyAndCostCalculator.DemandImportRoundTrip | src/ssmt/service/energy_and_cost/EnergyAndCostCalculator.cpp:115-135 | the modification import and the demand are inverse to each other: the demand from a residual import is the baseline demand, and the residual against a demand gives back the import it came from |
| EnergyAndCostCalculator.CalcPowerGenerationCost | src/ssmt/service/energy_and_cost/EnergyAndCostCalculator.cpp:137-147 | at a positive price over positive hours the cost has the sign of the import, so a net export is a credit; it is zero when the import, price or hours is zero |
| EnergyAndCostCalculator.CalcBoilerFuelUsage | src/ssmt/service/energy_and_cost/EnergyAndCostCalculator.cpp:186-195 | non-negative for non-negative fuel energy and hours; zero over zero hours |
| EnergyAndCostCalculator.CalcBoilerFuelCost | src/ssmt/service/energy_and_cost/EnergyAndCostCalculator.cpp:149-160 | fuel cost is the annual fuel usage times the fuel price; non-negative for non-negative inputs |
| EnergyAndCostCalculator.CalcMakeupWaterCost | src/ssmt/service/energy_and_cost/EnergyAndCostCalculator.cpp:162-172 | non-negative for a non-negative price and volume; zero when the water is free or none is used |
| EnergyAndCostCalculator.CalcTotalOperatingCost | src/ssmt/service/energy_and_cost/EnergyAndCostCalculator.cpp:174-184 | the total bounds each part from above when the other two parts are non-negative |
| EnergyAndCostCalculator.TotalOperatingCostDifference | src/ssmt/service/energy_and_cost/EnergyAndCostCalculator.cpp:174-184 | the difference of two totals is the sum of the differences of the electricity, fuel and water costs |
| EnergyAndCostCalculator.Calc | src/ssmt/service/energy_and_cost/EnergyAndCostCalculator.cpp:3-55 | power generated is the present-turbine sum; demand is import plus generation in every mode; baseline passes the measured import through; modification keeps demand at the baseline demand; the three costs, the total and the fuel usage follow the documented formulas, with fuel cost equal to usage times fuel price |
| ScenarioComparison.ZeroOutputAggregatesLikeAbsent | src/ssmt/service/energy_and_cost/EnergyAndCostCalculator.cpp:57-113 | replacing any null turbine slots of a plant by zero-output turbines leaves power generated unchanged |
| ScenarioComparison.MediumHeaderAbsenceEquivalence | src/ssmt/service/energy_and_cost/EnergyAndCostCalculator.cpp:78-89 | a null medium header gives the same power generated and the same whole result as a medium header whose medium to low turbine is null |
| ScenarioComparison.SlotOrderIndependence | src/ssmt/service/energy_and_cost/EnergyAndCostCalculator.cpp:64-88 | visiting the slots in any order gives the calculator's power generated |
| ScenarioComparison.PowerGeneratedBounds | src/ssmt/service/energy_and_cost/EnergyAndCostCalculator.cpp:57-94 | with non-negative outputs, power generated is non-negative and at least each present turbine's output |
| ScenarioComparison.DemandPreservedAcrossScenarios | src/ssmt/service/energy_and_cost/EnergyAndCostCalculator.cpp:14-25 | a modification computed against a baseline result's demand has that same demand, and its import changes by the negative of its change in generation |
| ScenarioComparison.UnchangedPlantReproducesBaseline | src/ssmt/service/energy_and_cost/EnergyAndCostCalculator.cpp:3-55 | a modification with the baseline's own inputs, computed against the baseline's demand, reproduces the baseline result field for field |
| ScenarioComparison.PowerCostSavings | src/ssmt/service/energy_and_cost/EnergyAndCostCalculator.cpp:17-32 | at the same price and hours, the electricity cost saved by a modification is its extra generation priced over the year |
| ScenarioComparison.NetExportIsCredit | src/ssmt/service/energy_and_cost/EnergyAndCostCalculator.cpp:17-32 | a modification that generates more than the baseline demand has a negative import and, at a positive price over positive hours, a negative electricity cost |
| ScenarioComparison.BaselineScenario | src/ssmt/service/energy_and_cost/EnergyAndCostCalculator.cpp:3-55 | baseline with import 500 and turbines of 100, 50 and 0 and no medium header: 150 generated, 500 imported, demand 650 |
| ScenarioComparison.ModificationScenario | src/ssmt/service/energy_and_cost/EnergyAndCostCalculator.cpp:3-55 | modification against demand 650 generating 300: import 350, demand 650, electricity cost 224000 at 0.08 over 8000 hours |
| ScenarioComparison.IdenticalTurbinesBothCount | src/ssmt/service/energy_and_cost/EnergyAndCostCalculator.cpp:64-76 | two identical 100-unit turbines on the high header, with no medium to low turbine, generate 200 |
| ScenarioComparison.FuelScenario | src/ssmt/service/energy_and_cost/EnergyAndCostCalculator.cpp:3-55 | fuel energy 1000 over 8000 hours at price 5: usage 8000000, cost 40000000 |

## Left out

- Diagnostic tracing to `std::cout` in every operation is left out. It does not affect any result.
- The `name` argument of `addPowerOutToPowerGenerated` is left out. It is used only in the trace messages.
- IEEE-754 `double` rounding is not modelled. Every quantity is an exact `real`.
- EnergyAndCostCalculator.DemandImportRoundTrip: holds over reals, not exactly over `double`, because `(b - g) + g` can differ from `b` after rounding.
- ScenarioComparison.DemandPreservedAcrossScenarios: holds over reals only, for the same rounding reason.
- ScenarioComparison.UnchangedPlantReproducesBaseline: holds over reals only, for the same rounding reason.
- ScenarioComparison.SlotOrderIndependence: holds over reals only, because floating-point addition is not associative. The calculator itself always sums in one fixed order.
- Turbine and boiler physics, the header domains and `OperationsInput` are not modelled beyond the values their getters return. Their headers are not part of this model.
- Shared ownership and aliasing of `std::shared_ptr` turbines and headers are not modelled. The calculator only reads through them.
- The host bindings, the JavaScript tests and the other calculators in the repository (motor efficiency, optimal motor power, pump shaft power, cooling losses) are not part of this model.
