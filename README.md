# VapeManager: a verified model of the build simulator and the app's bookkeeping

VapeManager is a single-page React application for people who build their
own vaping coils. This project models its computational core in Dafny and
proves properties of that model.

**Coil simulation (`SimulationEngine`, `Constants`).** `runSimulation`
takes a coil build and a voltage and computes the following:

- resistance, from wire resistivity, gauge diameter, wound length with legs,
  strand multiplier and coil count;
- surface area and heat capacity;
- power and heat flux;
- ramp-up time, stress index and a clamped efficiency score;
- a thermal class.

Proved about it:

- the wire configuration and coil count cancel out of every thermal figure,
  which equal those of a single strand;
- resistance is positive, grows with wraps and falls with more strands or
  coils;
- for a real build (non-negative inner diameter and wraps) and a non-zero
  voltage, surface area, heat capacity, power, heat flux, ramp-up time and
  stress index are all positive, and so is the amp draw at a positive
  voltage;
- the default build (Kanthal A1, 26 AWG, 3 mm, 6 wraps, 3.7 V) comes out at
  about 0.779 Ω and Balanced.

**The screens' logic.**

- **Coil calculator (`CoilCalculator`):** amp draw and the safety flag
  against the battery's continuous discharge rating, the flux and stress
  colours, and the saved coil. The saved coil's stored figures are exactly
  what re-simulating it gives.
- **Application state (`App`):**
  - starting the language;
  - appending inventory items and coils;
  - adding a wicking session. This deactivates the atomizer's earlier
    sessions and keeps at most one active session per atomizer. It also
    bumps the coil's usage count.
  - the ml counter, which never goes negative. It sends one alert for
    each entry with the id whose step crosses the wick life, in history
    order, named after that entry's atomizer, and none when no such step
    crosses it;
  - deletes.
- **Dashboard (`Dashboard`):** active wicks, total consumption, wick
  progress, exhaustion and risk bands. The counter's alert fires exactly on
  the step that exhausts a wick.
- **Liquid mixer (`LiquidCalculator`):** the mix satisfies the dilution law,
  and the amounts add up to the bottle. Also the DIY recipe item it saves.
- **Statistics (`Stats`):**
  - totals, average wick life, liquid spend, cost per ml and the monthly
    projection;
  - the per-liquid tally loop and the top liquid. The tally's values sum to
    the total, and the top liquid has the largest consumed volume.
- **Wicking form (`WickingLog`):** option lists, the wick-life suggestion
  from the chosen coil's material, and the submitted session record.
- **Coil list (`CoilList`):** the hand-entered coil form, its defaults and
  its picture list.
- **History (`History`):** the atomizer filter, the newest-first in-place
  sort (`Sorting`) and the name lookups with their fallbacks.
- **Inventory (`Inventory`):** the category filter and the add-item form.
- **Experience notes (`ExperienceNotes`):**
  - the markdown renderer: line split, JavaScript `trim`, list and heading
    lines, and the lazy `**…**` bold split, with round trips back to the
    text;
  - the linked-setups toggle and the editor.

React state that an object updates is modelled as a Dafny `class`:
`App.AppState`, `CoilCalculator.Calculator`, `Inventory.InventoryForm`,
`WickingLog.WickingForm`, `CoilList.CoilForm` and `ExperienceNotes.Editor`.
Their methods state the new state in terms of pure functions, and the
properties are proved about those functions. The two in-place `Array.sort`
calls are an insertion sort on `array`. The per-liquid tally is a `while`
loop.

**Observations.**

- The default coil-calculator build (Kanthal A1, 26 AWG, 3 mm, 6 wraps,
  3.7 V) computes to about 0.779 Ω (`SimulationEngine.DefaultBuildIsBalanced`).
- The mixer saves DIY recipes with the category `liquid`. The cost screen
  counts any category containing "liquid", but the wicking form only offers
  `liquid_salt` and `liquid_ejuice`. So a saved recipe is costed but can
  never be chosen for a session (`WickingLog.WickLiquidsAreCosted`).

Inputs the model takes as parameters:

- `Date.now()`, both its value and its text;
- numbers rendered as text (`toFixed`, template literals);
- localized labels;
- whether a callback prop is present;
- the text the AI services return.

## Model

| member | source | states |
|---|---|---|
| Types.MaterialName | types.ts:2-8 | the enum's string value, never empty |
| Types.MaterialNamesDistinct | types.ts:2-8 | two materials have the same string value iff they are the same material |
| Constants.Resistivity | constants.ts:5-11 | every material's resistivity is positive |
| Constants.ResistivityExtremes | constants.ts:5-11 | Ni200 has the lowest and Kanthal A1 the highest resistivity, strictly against every other material |
| Constants.GaugeTableKeys | constants.ts:13-21 | the gauge table lists exactly gauges 20–32 in even steps, and 26 AWG is 0.405 mm |
| Constants.GaugeDiametersDecreasing | constants.ts:13-21 | listed diameters are positive and strictly decrease as the gauge number grows |
| Constants.ListedDiametersPositive | constants.ts:13-21 | every listed diameter is positive |
| SimulationEngine.HeatCapacity | services/simulationEngine.ts:6-12 | every material's specific heat is positive |
| SimulationEngine.Density | services/simulationEngine.ts:14-20 | every material's density is positive |
| SimulationEngine.WireDiameter | services/simulationEngine.ts:31 | the table diameter for a listed gauge, 0.4 mm otherwise, always positive |
| SimulationEngine.StrandMultiplier | services/simulationEngine.ts:38 | the strand multiplier is at least 1 |
| SimulationEngine.CoilCountOf | services/simulationEngine.ts:44 | the coil count is between 1 and 4 |
| SimulationEngine.ClampPercent | services/simulationEngine.ts:77 | the result lies in [0, 100], is the input inside that range and the nearer bound outside it |
| SimulationEngine.Classify | services/simulationEngine.ts:66-69 | Cool below 120, Hot above 300, Warm in (220, 300], Balanced in [120, 220], each as an if-and-only-if |
| SimulationEngine.WoundLength | services/simulationEngine.ts:34-37 | with a non-negative inner diameter and wraps the wound length is at least the 5 mm of legs, and exactly the legs with no wraps |
| SimulationEngine.StrandResistance | services/simulationEngine.ts:41 | non-zero for a non-zero length, positive for a positive length and cross-section |
| SimulationEngine.HeatCapacityOf | services/simulationEngine.ts:55-57 | a positive volume of wire has a positive heat capacity |
| SimulationEngine.Computable | services/simulationEngine.ts:22-83 | a build with non-negative inner diameter and wraps at a non-zero voltage is always computable |
| SimulationEngine.CrossSection | services/simulationEngine.ts:32-33 | the wire cross-section is positive |
| SimulationEngine.ParallelResistance | services/simulationEngine.ts:42-45 | deck resistance times strands times coils is the strand resistance, non-zero when that is |
| SimulationEngine.DeckSurfaceArea | services/simulationEngine.ts:47-48 | the surface area is the lateral surface of one strand times strands times coils, and non-zero |
| SimulationEngine.DeckVolume | services/simulationEngine.ts:55 | the volume is cross-section times length times strands times coils |
| SimulationEngine.StrandCount | services/simulationEngine.ts:38-44 | the total strand count lies between 1 and 8.4 |
| SimulationEngine.DeckBuild | services/simulationEngine.ts:41-57 | deck resistance times strands times coils is one strand's resistance; surface and heat capacity are one strand's times strands times coils; resistance and surface are non-zero |
| SimulationEngine.WireBuild | services/simulationEngine.ts:31-57 | a build of non-zero wound length has non-zero resistance and surface area |
| SimulationEngine.Thermal | services/simulationEngine.ts:50-77 | flux times surface is power×1000; ramp time times power×1000 is heat capacity×175; stress is flux/350×100 and exceeds 100 iff flux exceeds 350; efficiency lies in [0, 100]; the class is that of the flux |
| SimulationEngine.Power | services/simulationEngine.ts:50 | power times resistance is the voltage squared, and non-zero |
| SimulationEngine.RunSimulation | services/simulationEngine.ts:22-83 | non-zero resistance and surface area, the stress law, bounded efficiency and the flux's class for every computable input |
| SimulationEngine.ResistanceTimesStrands | services/simulationEngine.ts:41-45 | the parallel law: deck resistance times the strand count is one strand's resistance |
| SimulationEngine.SurfaceAreaOfStrands | services/simulationEngine.ts:47-48 | the surface area is the strand count times one strand's surface |
| SimulationEngine.HeatCapacityOfStrands | services/simulationEngine.ts:55-57 | the heat capacity is the strand count times one strand's |
| SimulationEngine.PowerScales | services/simulationEngine.ts:50 | dividing the resistance by k multiplies the power by k |
| SimulationEngine.ThermalScales | services/simulationEngine.ts:51-77 | scaling power, surface and heat capacity by the same factor leaves every thermal figure unchanged |
| SimulationEngine.SimulationOfOneStrand | services/simulationEngine.ts:22-83 | the thermal figures of any deck equal those of one strand driven across one strand's resistance |
| SimulationEngine.ThermalFiguresIndependentOfStrands | services/simulationEngine.ts:22-83 | two decks that differ only in wire configuration and coil count have identical simulation results |
| SimulationEngine.ResistancePositive | services/simulationEngine.ts:34-45 | with non-negative inner diameter and wraps the wound length is at least the legs and the resistance is positive |
| SimulationEngine.FiguresPositive | services/simulationEngine.ts:22-83 | with non-negative inner diameter and wraps and a non-zero voltage: resistance, surface area, heat capacity, heat flux, ramp-up time and stress index are all positive |
| SimulationEngine.BuildPositive | services/simulationEngine.ts:34-57 | such a build has a positive wound length, surface area and heat capacity |
| SimulationEngine.PowerPositive | services/simulationEngine.ts:50 | a positive resistance draws a positive power |
| SimulationEngine.ThermalPositive | services/simulationEngine.ts:51-62 | positive power, surface and heat capacity give positive flux, ramp-up time and stress |
| SimulationEngine.ResistanceIncreasesWithWraps | services/simulationEngine.ts:37-45 | more wraps give strictly higher resistance |
| SimulationEngine.ResistanceDecreasesWithStrands | services/simulationEngine.ts:38-45 | a larger total strand count gives strictly lower resistance |
| SimulationEngine.MoreCoilsLowerResistance | services/simulationEngine.ts:44-45 | more coils on the deck give strictly lower resistance |
| SimulationEngine.MoreStrandsLowerResistance | services/simulationEngine.ts:38-42 | a configuration with more strands per coil gives strictly lower resistance |
| SimulationEngine.DefaultBuildIsBalanced | services/simulationEngine.ts:22-83 | the default build is between 0.778 and 0.779 Ω, with flux between 199 and 200, Balanced |
| SimulationEngine.ThinBuildOverstressed | services/simulationEngine.ts:63-69 | a 32 AWG, 2 mm, 3-wrap build at 3.7 V is Hot with stress above 200 (the stress index is not clamped) |
| CoilCalculator.AmpDraw | components/CoilCalculator.tsx:36 | current times resistance is the voltage |
| CoilCalculator.Simulate | components/CoilCalculator.tsx:34-46 | the simulation state holds the engine's outputs and the amp draw, and is safe iff the draw is below the discharge rating |
| CoilCalculator.SafeIffBelowCurrentLimit | components/CoilCalculator.tsx:36-44 | with positive resistance, safe iff the voltage is below the rating times the resistance |
| CoilCalculator.AmpPositive | components/CoilCalculator.tsx:34-44 | a real build at a positive voltage has positive resistance and a positive amp draw |
| CoilCalculator.StressShownRed | components/CoilCalculator.tsx:121 | definition: the stress read-out is red above 80 |
| CoilCalculator.FluxColor | components/CoilCalculator.tsx:76 | blue below 150, green in [150, 250), orange in [250, 350), red from 350, each an if-and-only-if |
| CoilCalculator.ReadOutsAgree | components/CoilCalculator.tsx:76-121 | the flux reads red iff the stress is at least 100; the stress reads red iff the flux exceeds 280 |
| CoilCalculator.BandsAgreeWithClass | components/CoilCalculator.tsx:76 | a Cool build always reads blue, a Hot build orange or red |
| CoilCalculator.SavedCoil | components/CoilCalculator.tsx:50-68 | id "coil-" and the stamp; the name or the material, configuration and resistance label; a contact coil with no use, no pictures and the simulation's figures |
| CoilCalculator.SavedCoilReproducible | components/CoilCalculator.tsx:50-68 | re-simulating a saved coil's build reproduces its stored resistance, surface area, heat capacity and simulation |
| CoilCalculator.Calculator.constructor | components/CoilCalculator.tsx:14-32 | the default build, no simulation yet, an empty name |
| CoilCalculator.Calculator.Refresh | components/CoilCalculator.tsx:34-46 | the effect stores the simulation of the current inputs |
| CoilCalculator.Calculator.SetBuild | components/CoilCalculator.tsx:130-169 | a build edit followed by the effect: new inputs, their simulation, voltage, rating and name kept |
| CoilCalculator.Calculator.SetName | components/CoilCalculator.tsx:175 | only the name changes |
| CoilCalculator.Calculator.HandleSave | components/CoilCalculator.tsx:48-72 | no callback or no simulation: nothing saved, name kept; otherwise the saved coil of the current build, then the name cleared |
| App.InitialLanguage | App.tsx:31-34 | Persian iff the stored language is "fa", English otherwise |
| App.WithInventoryId | App.tsx:57-59 | the id becomes "inv-" and the stamp; every other field is kept |
| App.DeactivateAtomizer | App.tsx:67-69 | same length; sessions on the atomizer become inactive and nothing else about them changes; other sessions are untouched |
| App.AddSession | App.tsx:65-71 | the session is appended after the deactivated history |
| App.AddSessionKeepsOneActive | App.tsx:65-71 | no earlier session on the atomizer stays active, and at most one active session per atomizer is preserved |
| App.NextUsage | App.tsx:75 | a missing usage count becomes 1, otherwise it grows by one |
| App.BumpUsage | App.tsx:73-77 | the coils with the id get the next usage count, the rest are untouched |
| App.NamesCoil | App.tsx:73 | definition: the session names a coil when its coil id is present and non-empty, the JavaScript truthiness test |
| App.TotalUsage | App.tsx:73-77 | definition: the sum of the coils' usage counts, a missing count as zero |
| App.CountId | App.tsx:73-77 | the number of coils with the id is the length of the list of coils carrying it, so zero exactly when no coil has it, and at most the list length |
| App.BumpUsageTotal | App.tsx:73-77 | the total usage grows by exactly the number of coils carrying the id |
| App.AlertFires | App.tsx:86 | definition: the new volume reaches the wick life while the old one was below it |
| App.Crosses | App.tsx:85-86 | definition: the entry's counter step, with the clamp, fires the alert test |
| App.NewMl | App.tsx:85 | the new volume is never negative; it is the sum, or zero when the sum is negative |
| App.AlertOncePerCrossing | App.tsx:85-89 | after a step that alerts, the next step never alerts again |
| App.MlStepsInvert | App.tsx:85-89 | from a non-negative volume, a decrement never alerts, and adding then removing the same amount restores the volume |
| App.UpdateMlIn | App.tsx:81-95 | same length; the session with the id gets the new volume and nothing else; the others are untouched |
| App.UpdateMlNonNegative | App.tsx:81-95 | non-negative volumes stay non-negative |
| App.ItemName | App.tsx:87-88 | the name of the first item with the id, or the fallback when there is none or the name is empty; never empty with a non-empty fallback |
| App.ItemNameOfFirstMatch | App.tsx:87-88 | the first item with the id decides the name |
| App.ItemNameAtFirstMatch | App.tsx:87-88 | at the first item with the id, the name is that item's name, or the fallback when that name is empty |
| App.DeviceName | App.tsx:87-88 | the alert's name is never empty: the atomizer's name, or "Device" |
| App.MlAlerts | App.tsx:81-95 | no more alerts than sessions; none iff no entry with the id crosses the wick life; every alert is the atomizer name of an entry with the id that crosses it |
| App.AlertsNameCrossings | App.tsx:81-95 | exactly one alert per entry with the id whose step crosses the wick life, in history order, the j-th alert naming the j-th such entry's atomizer |
| App.AlertOfUniqueEntry | App.tsx:81-95 | when exactly one entry carries the id, it alerts with its atomizer's name iff its step crosses the wick life, and nothing is sent otherwise |
| App.DecrementNeverAlerts | App.tsx:81-95 | a decrement over non-negative volumes sends no alert |
| App.RemoveInventoryItem | App.tsx:115 | exactly the items without the id remain, in order, each as often as before |
| App.RemoveCoil | App.tsx:116 | exactly the coils without the id remain, in order, each as often as before |
| App.RemoveAbsentInventoryItem | App.tsx:115 | deleting an absent id changes nothing |
| App.AppState.constructor | App.tsx:31-39 | the language from storage and the loaded lists |
| App.AppState.AddInventoryItem | App.tsx:57-59 | the item with its new id is appended |
| App.AppState.AddCoilClass | App.tsx:61-63 | the coil is appended |
| App.AppState.AddWickingSession | App.tsx:65-79 | the history gains the session, and the named coil's usage count is bumped |
| App.AppState.UpdateMl | App.tsx:81-95 | the counter step and the alerts it sends |
| App.AppState.DeleteInventoryItem | App.tsx:115 | the inventory without the id |
| App.AppState.DeleteCoil | App.tsx:116 | the coils without the id |
| App.AppState.AddExperience | App.tsx:127 | the note is appended |
| App.AppState.SetLang | App.tsx:31 | the language changes |
| Dashboard.IsActiveWick | components/Dashboard.tsx:17 | definition: marked active, or with status "active" |
| Dashboard.ActiveWicks | components/Dashboard.tsx:17 | exactly the sessions marked active or with status active, in order, each as often as in the history |
| Dashboard.TotalConsumed | components/Dashboard.tsx:21 | definition: the sum of the sessions' consumed volumes |
| Dashboard.ActiveAfterAppend | components/Dashboard.tsx:17 | an active session appended to a history is the last active wick, after the earlier ones in order |
| Dashboard.NewSessionIsTheActiveWick | components/Dashboard.tsx:17 | after adding an active session it is the last active wick and the only one on its atomizer |
| Dashboard.TotalConsumedNonNegative | components/Dashboard.tsx:21 | non-negative volumes give a non-negative total |
| Dashboard.TotalConsumedAfterAdd | components/Dashboard.tsx:21 | adding a session adds exactly its volume to the total |
| Dashboard.SumOfSameVolumes | components/Dashboard.tsx:21 | histories with the same volumes have the same total |
| Dashboard.EffectiveLife | components/Dashboard.tsx:70 | a zero wick life reads as 8, any other is kept |
| Dashboard.Progress | components/Dashboard.tsx:70 | the progress is at most 100, equals 100 or the raw percentage, and is the raw percentage whenever that is below 100 |
| Dashboard.IsExhausted | components/Dashboard.tsx:71 | definition: progress of at least 100 |
| Dashboard.ExhaustedIffLifeReached | components/Dashboard.tsx:70-71 | exhausted iff the volume reaches the wick life; non-negative volume gives non-negative progress |
| Dashboard.AlertMarksExhaustion | components/Dashboard.tsx:71 | the counter's alert fires iff the step turns the wick from not exhausted to exhausted |
| Dashboard.RiskOf | components/Dashboard.tsx:72 | Critical above 90, High in (75, 90], Medium in (50, 75], Low otherwise, each an if-and-only-if |
| Dashboard.RiskMonotone | components/Dashboard.tsx:70-72 | more progress never lowers the risk, and an exhausted wick is Critical |
| LiquidCalculator.MixFor | components/LiquidCalculator.tsx:18-28 | the dilution law, the flavour share and the three amounts summing to the bottle; the diluent is negative iff base and flavour overflow the bottle |
| LiquidCalculator.MixHitsTargets | components/LiquidCalculator.tsx:18-28 | the finished bottle has the target strength and flavour percentage |
| LiquidCalculator.DefaultMix | components/LiquidCalculator.tsx:12-28 | the default recipe needs 3.6 ml base, 9 ml flavour and 47.4 ml diluent |
| LiquidCalculator.LiquidTypeFor | components/LiquidCalculator.tsx:39 | nic salt iff the strength exceeds 12, freebase otherwise |
| LiquidCalculator.RecipeItem | components/LiquidCalculator.tsx:32-43 | the name or a generated non-empty "DIY" name; brand DIY Lab, category liquid, price 0, and the recipe's specs |
| LiquidCalculator.SaveToGear | components/LiquidCalculator.tsx:30-47 | no callback: nothing saved and the name kept; otherwise the recipe item and the name cleared |
| Stats.TotalMl | components/Stats.tsx:14 | definition: the same sum of consumed volumes as the dashboard's total |
| Stats.AvgLife | components/Stats.tsx:15 | zero for no history, otherwise the average times the count is the total |
| Stats.IsLiquid | components/Stats.tsx:18 | definition: the category contains "liquid" |
| Stats.Liquids | components/Stats.tsx:18 | exactly the items whose category contains "liquid", in inventory order, each as often as in the inventory |
| Stats.PriceOf | components/Stats.tsx:19 | definition: the price, a missing or zero price as zero |
| Stats.TotalSpent | components/Stats.tsx:19 | definition: the sum of the liquids' prices |
| Stats.TotalVolume | components/Stats.tsx:20 | 60 ml per liquid, so zero exactly when there is no liquid |
| Stats.SpreadCost | components/Stats.tsx:21 | zero when nothing was spent; a positive spend over a positive volume gives a cost that times the volume is the spend |
| Stats.CostPerMl | components/Stats.tsx:21 | definition: the spend spread over the bottles' volume |
| Stats.CostZeroWithoutSpend | components/Stats.tsx:21 | the cost per ml is zero unless something was spent |
| Stats.SpendNeedsBottle | components/Stats.tsx:18-20 | a positive spend means at least one liquid, so a positive volume |
| Stats.CostSpreadOverBottles | components/Stats.tsx:19-21 | for a positive spend, the cost per ml times the total volume is the spend |
| Stats.Project | components/Stats.tsx:23 | zero unless something was consumed; then cost times total over sessions times 30 |
| Stats.MonthlyProjection | components/Stats.tsx:23 | definition: the projection from the inventory's cost per ml and the history's consumption |
| Stats.ProjectionOfAverageLife | components/Stats.tsx:23 | zero unless something was consumed; then there is a session and the projection is the cost per ml times the average life times 30 |
| Stats.ProjectionAtCost | components/Stats.tsx:15-23 | at any cost per ml, the projection is zero unless something was consumed, and otherwise that cost times the average life times 30 |
| Stats.SavedRecipeIsFreeBottle | components/Stats.tsx:18-21 | a saved DIY recipe adds one liquid bottle and nothing to the spend |
| Stats.FreeLiquidAddsBottle | components/Stats.tsx:18-20 | a free liquid adds one bottle and no spend |
| Stats.LiquidKeys | components/Stats.tsx:25-28 | definition: the liquids in the order of their first use |
| Stats.LiquidTally | components/Stats.tsx:25-28 | definition: the map the loop builds, one entry per liquid used |
| Stats.LiquidVolume | components/Stats.tsx:25-28 | definition: the volume consumed on one liquid over the history |
| Stats.CountByLiquid | components/Stats.tsx:25-28 | the loop yields the first-use key order and the per-liquid volume map |
| Stats.TallyKeys | components/Stats.tsx:25-28 | the keys are distinct and are exactly the map's keys, which are exactly the liquids used; no keys iff no history |
| Stats.TallyIsLiquidVolume | components/Stats.tsx:25-28 | each count is the volume consumed on that liquid |
| Stats.LiquidVolumeSnoc | components/Stats.tsx:26-27 | one more session adds its volume to its own liquid only |
| Stats.ZeroWhenUnused | components/Stats.tsx:25-28 | an unused liquid has zero volume |
| Stats.TallySumsToTotal | components/Stats.tsx:14-28 | the counts sum to the total consumption |
| Stats.TopKey | components/Stats.tsx:30 | none iff no keys; otherwise a key with maximal count, with all earlier keys strictly below it |
| Stats.TopLiquidId | components/Stats.tsx:30 | none iff no history; otherwise a used liquid whose volume is maximal among all used liquids |
| Stats.TopLiquid | components/Stats.tsx:31 | none without history; with a top liquid, none iff no item carries its id; an item found carries the top liquid id and is the first inventory item with that id |
| WickingLog.IsCotton | components/WickingLog.tsx:31 | definition: category "cotton" |
| WickingLog.IsWickLiquid | components/WickingLog.tsx:32 | definition: category "liquid_salt" or "liquid_ejuice" |
| WickingLog.IsStockCoil | components/WickingLog.tsx:33 | definition: category "prebuilt_coil" or "pod_cartridge" |
| WickingLog.Atomizers | components/WickingLog.tsx:30 | exactly the atomizers and pod systems, in inventory order |
| WickingLog.Cottons | components/WickingLog.tsx:31 | exactly the cottons, in inventory order |
| WickingLog.WickLiquids | components/WickingLog.tsx:32 | exactly the salts and e-juices, in inventory order |
| WickingLog.StockCoils | components/WickingLog.tsx:33 | exactly the prebuilt coils and pod cartridges, in inventory order |
| WickingLog.OptionListsDisjoint | components/WickingLog.tsx:30-33 | no item appears in two option lists |
| WickingLog.WickLiquidsAreCosted | components/WickingLog.tsx:32 | every offered liquid is costed, but a saved DIY recipe is costed and never offered |
| WickingLog.SuggestedLife | components/WickingLog.tsx:38-40 | 12 iff Kanthal A1, 7 iff SS316L, otherwise 10 |
| WickingLog.MaxLifeAfterSelect | components/WickingLog.tsx:35-42 | an unknown coil keeps the wick life; a known one sets the suggestion of the first coil with the id |
| WickingLog.NewLog | components/WickingLog.tsx:61-77 | the session record: an empty coil as none, an empty finding as none, zero volume and degradation, active |
| WickingLog.SubmittedSessionTakesOver | components/WickingLog.tsx:56-79 | the session names a coil iff one was chosen, and once added it is the only active session on its atomizer |
| WickingLog.WickingForm.constructor | components/WickingLog.tsx:17-27 | the form's defaults: AFC, 15 W, wick life 8 |
| WickingLog.WickingForm.SelectCoil | components/WickingLog.tsx:35-42 | the coil choice and the wick life the effect sets |
| WickingLog.WickingForm.SetFinding | components/WickingLog.tsx:52 | the finding is stored |
| WickingLog.WickingForm.HandleSubmit | components/WickingLog.tsx:56-87 | missing atomizer, cotton or liquid: nothing changes; otherwise the session and the reset, with wick life and airflow kept |
| CoilList.OrDefault | components/CoilList.tsx:52-54 | a zero number takes the default, any other is kept |
| CoilList.NewCoil | components/CoilList.tsx:47-62 | the coil record with "New Coil", 26, 6 and 2.5 for empty fields and zero use |
| CoilList.NewCoilGeometryNonZero | components/CoilList.tsx:52-54 | a hand-entered coil never has zero gauge, wraps or inner diameter |
| CoilList.AfterUploads | components/CoilList.tsx:35-38 | uploads come first, newest first, and the earlier pictures follow in order |
| CoilList.CoilForm.constructor | components/CoilList.tsx:17-28 | the default draft, form hidden |
| CoilList.CoilForm.ToggleForm | components/CoilList.tsx:85 | the form's visibility flips |
| CoilList.CoilForm.Edit | components/CoilList.tsx:116-136 | a field edit replaces the draft |
| CoilList.CoilForm.AddImage | components/CoilList.tsx:30-42 | the loaded picture is put first |
| CoilList.CoilForm.HandleAdd | components/CoilList.tsx:44-78 | an empty name changes nothing; otherwise the coil, the form hidden and the draft reset |
| History.FilteredHistory | components/History.tsx:18-20 | all sessions for "all", otherwise exactly that atomizer's sessions in order, each as often as in the history |
| History.FilteredHistoryByAtomizer | components/History.tsx:18-20 | no sessions on the atomizer iff the filtered list is empty; each of its sessions is shown |
| History.CopyFiltered | components/History.tsx:18-20 | a fresh array holding exactly the filtered sessions, in order |
| History.ShownEntries | components/History.tsx:18-49 | the filtered sessions sorted newest first, a permutation of the filter; for "all" in the history array itself, otherwise in a fresh array |
| History.AttyName | components/History.tsx:22 | never empty; the unknown-device label when no item has the id; otherwise the first such item's name, or the label when that name is empty |
| History.LiquidName | components/History.tsx:24 | never empty; the unknown-liquid label when no item has the id; otherwise the first such item's name, or the label when that name is empty |
| History.CottonName | components/History.tsx:25 | never empty; the unknown-cotton label when no item has the id; otherwise the first such item's name, or the label when that name is empty |
| History.CardAndAlertAgree | components/History.tsx:22 | a named atomizer reads the same on the card and in the alert |
| History.CoilName | components/History.tsx:23 | the first matching coil's non-empty name, otherwise the custom-setup label |
| History.NoCoilIsCustomSetup | components/History.tsx:23 | a session without a coil reads as a custom setup |
| Sorting.SortByKeyDescending | components/History.tsx:49 | the array ends sorted by descending key and a permutation of what it was |
| Sorting.Insert | components/History.tsx:49 | an insertion step extends the sorted prefix by one, a permutation, the rest untouched |
| Sorting.Swap | components/History.tsx:49 | two elements trade places, every other element stays, a permutation |
| Inventory.IsDevice | components/History.tsx:16 | definition: category "atomizer" or "pod_system", the test the history filter and the wicking form share |
| Inventory.FilterItems | components/Inventory.tsx:58 | everything for "all", otherwise exactly the category's items in order, each as often as in the list |
| Inventory.FilterBySharedCategory | components/Inventory.tsx:58 | filtering by the category every item has keeps the list |
| Inventory.ClearedDraft | components/Inventory.tsx:54 | name, brand and description empty, the stock picture, every other field kept |
| Inventory.ClearedDraftIdempotent | components/Inventory.tsx:17-54 | clearing the empty form gives it back; clearing twice is clearing once |
| Inventory.InventoryForm.constructor | components/Inventory.tsx:15-23 | filter "all", the empty draft, form hidden |
| Inventory.InventoryForm.ToggleForm | components/Inventory.tsx:65 | the form's visibility flips |
| Inventory.InventoryForm.SetFilter | components/Inventory.tsx:74-82 | the filter changes |
| Inventory.InventoryForm.SetCategory | components/Inventory.tsx:128 | only the category changes |
| Inventory.InventoryForm.SetImage | components/Inventory.tsx:44 | only the picture changes |
| Inventory.InventoryForm.HandleSubmit | components/Inventory.tsx:50-56 | an empty name changes nothing; otherwise the draft is handed over, the form cleared and closed |
| ExperienceNotes.IndexOf | components/ExperienceNotes.tsx:10 | the first position of the character |
| ExperienceNotes.Split | components/ExperienceNotes.tsx:10 | one piece more than there are newlines, no piece holds one, and joining gives the text back |
| ExperienceNotes.SplitJoin | components/ExperienceNotes.tsx:10 | splitting undoes joining newline-free pieces |
| ExperienceNotes.IsJsSpace | components/ExperienceNotes.tsx:12 | definition: the white space and line terminators JavaScript's `trim` removes |
| ExperienceNotes.SpacesAndMarkers | components/ExperienceNotes.tsx:12-16 | every line terminator is white space to `trim`, and the list and heading markers are not |
| ExperienceNotes.TrimStart | components/ExperienceNotes.tsx:12 | a suffix that starts with a non-space, with only white space cut off |
| ExperienceNotes.TrimEnd | components/ExperienceNotes.tsx:12 | a prefix that ends with a non-space, with only white space cut off |
| ExperienceNotes.Trim | components/ExperienceNotes.tsx:12-13 | a slice of the line with non-space ends and only white space around it |
| ExperienceNotes.TrimIdempotent | components/ExperienceNotes.tsx:12-13 | trimming twice is trimming once |
| ExperienceNotes.CloseFrom | components/ExperienceNotes.tsx:18-19 | the nearest closing marker not preceded by a line end; none when every marker lies past a line end |
| ExperienceNotes.FirstMatch | components/ExperienceNotes.tsx:18-19 | the earliest position where a bold match starts, none if there is none |
| ExperienceNotes.BoldSplit | components/ExperienceNotes.tsx:18-22 | an odd number of parts that put back together with markers give the line; the bold parts hold no marker and no line end; one part, the line itself, iff no match starts anywhere; otherwise the text before the leftmost match and that match's bold text come first, and the remaining parts are the split of the text after its closing marker |
| ExperienceNotes.PlainLineIsOnePart | components/ExperienceNotes.tsx:18-24 | a line without markers is a single plain part |
| ExperienceNotes.BoldExample | components/ExperienceNotes.tsx:18-22 | "a \*\*b\*\* c" splits into "a ", "b" and " c" |
| ExperienceNotes.LineBlock | components/ExperienceNotes.tsx:11-24 | a list item iff the trimmed line starts with a bullet and then the rest of it; a heading is the text after "### "; a paragraph is the bold split of its line, so it keeps all of the line's text |
| ExperienceNotes.HeadingLines | components/ExperienceNotes.tsx:12-16 | a line starting with "### " is always a heading |
| ExperienceNotes.RenderMarkdown | components/ExperienceNotes.tsx:8-26 | nothing iff the text is empty; otherwise one block per line |
| ExperienceNotes.ParagraphsKeepTheirText | components/ExperienceNotes.tsx:10-24 | a rendered paragraph holds exactly its line's text, which has no newline |
| ExperienceNotes.Toggle | components/ExperienceNotes.tsx:43-45 | a selected id is removed with the rest kept in order, any other is appended; the id is selected afterwards iff it was not before |
| ExperienceNotes.ToggleTwice | components/ExperienceNotes.tsx:43-45 | selecting and deselecting an id restores the selection |
| ExperienceNotes.NewNote | components/ExperienceNotes.tsx:52-60 | the note carries the editor's fields, the analysis, the stamp and the time |
| ExperienceNotes.Editor.constructor | components/ExperienceNotes.tsx:36-41 | empty topic, text and selection, rating 5, not analysing, not previewing |
| ExperienceNotes.Editor.ToggleSetup | components/ExperienceNotes.tsx:43-45 | the selection is toggled |
| ExperienceNotes.Editor.TogglePreview | components/ExperienceNotes.tsx:72 | preview flips |
| ExperienceNotes.Editor.Edit | components/ExperienceNotes.tsx:80-106 | topic and text take the edited values; the rating is left alone |
| ExperienceNotes.Editor.HandleSave | components/ExperienceNotes.tsx:47-63 | no topic or no text: nothing changes; otherwise the note and the editor reset |
| ExperienceNotes.ShowNotes | components/ExperienceNotes.tsx:117 | the notes array ends sorted newest first, a permutation of what it was |

## Left out

- The rendering (JSX, class names, icons), the tab navigation, `localStorage` persistence and `safeParse`, browser notifications (the alerts `updateMl` would send are returned as a list), `FileReader`, the `alert` pop-ups, and the AI services (their text is a parameter). None of these computes anything the model could state.
- `toFixed` rounding and number-to-text rendering. Labels built from numbers are parameters, and every figure is an exact real.
- CoilCalculator.SavedCoil: stores the resistance unrounded, while the source keeps it rounded to three decimals.
- LiquidCalculator.MixFor: the amounts are unrounded, while the source rounds each to two decimals.
- Stats.CostSpreadOverBottles: the cost per ml is unrounded, while the source renders it to two decimals.
- Stats.ProjectionOfAverageLife: uses the unrounded cost per ml, while the source multiplies the two-decimal text read back as a number.
- SimulationEngine.RunSimulation: requires a non-zero voltage and wound length (`Computable`). On other inputs the source produces Infinity or NaN, which the model has no values for.
- LiquidCalculator.MixFor: requires a non-zero base strength, for the same reason.
- ExperienceNotes.Editor.HandleSave: the save, with its wait for the analysis, is one step. In the source the fields stay editable while `analyzeExperience` runs; the note keeps the values from the click and the reset then discards any edit made meanwhile. The model does not capture that interval or the `analyzing` flag being set during it.
- CoilCalculator.Calculator.SetBuild: each build edit is followed directly by the effect. The model does not capture the render in between, where the shown simulation still belongs to the old inputs.
- Stats.TopKey: takes the keys in first-use order. JavaScript lists integer-like object keys first, which the model does not follow.
- Sorting.SortByKeyDescending: stability of the sort is not stated.
- Inventory.InventoryForm.SetImage: starts from the current draft. In the source the upload handler starts from the draft captured when the upload began, so an edit made during the upload can be lost.
- ExperienceNotes: the list of setups to link. `App.tsx:127` renders the notes screen without its `setups` list, so that list's rendering would fail. The model takes the setup ids as a parameter of the toggle.
- The gallery, settings, concierge, shop finder and navigation screens; the notification service; the AI prompt texts.
