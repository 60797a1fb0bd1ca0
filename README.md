# Cost engine of the manufacturing cost tool

A verified Dafny model of the deterministic cost engine behind the Streamlit cost
calculator. The engine appears twice almost line for line, in `app.py` and in
`utils/Shared.py`, and in a much simpler third form in `App.py`.

- **Routing and purchased parts** (`Routing`): a routing row per production step and a
  bill-of-materials line per purchased part, with the sort on `Step`.
- **Scrap propagation** (`ScrapChain`, `propagate_scrap`): walks the sorted routing from
  the last step to the first. Each step must take in what the next step needs, divided by
  its good fraction `max(1e-9, 1 - Scrap_pct)`.
- **Cost rollup** (`CostRollup`, `cost_once` with `lean_costs`): machine, labour and
  energy cost per step, a lean adder per step, purchased parts, and the unit cost.
  `Edition` picks between the two copies of the engine. They differ only in the labour
  rate that prices rework.
- **Capacity table** (`Capacity`, `capacity_table`): hours needed and available per step,
  grouped by process and summed. Utilisation is recomputed and the rows are ordered by
  descending utilisation.
- **Bottleneck and make-versus-buy** (`MakeOrBuy`, app.py lines 873-887).
- **Monte-Carlo loop** (`MonteCarlo`, `run_mc`): the perturb-and-clamp step and the list
  of samples. The standard normal draws are inputs. app.py's cycle-time line fails as
  written; the model records that and uses the evidently intended clip (see Findings).
- **Report tables** (`PowerBi`, `build_powerbi_facts`): the FactRouting, FactBOM and
  FactMC rows.
- **Euro-number parser** (`EuroNumber`, `parse_eur_number` and `parse_eur`).
- **Smaller rules** (`Helpers`): EUR/ton to EUR/kg, the 12-month projection, the CSV
  column checks and the automatic routing generator.
- **App.py** (`SimpleTool`): the inline cost rollup with its markups and the
  make-versus-buy decision.

Floats are exact reals, NaN is `Option.None`, and the sidebar globals that `app.py`
reads are explicit parameters (`Rates`, `LeanParams`), as `utils/Shared.py` already has
them.

Where the code and its documentation differ, the model follows the code:

- `lean_costs` documents transport as charged once per order. `cost_once` calls it once
  per routing step, so `km * eur_km` is charged once per step (`TransportChargedPerStep`).
- `propagate_scrap` returns its rows in `Step` order with a fresh index. It does not
  restore the caller's order.
- `capacity_table` sums `Hours_cap` over a process's steps, like every other numeric
  column. It does not take one capacity per process.
- `parse_eur_number("1.234")` reads the single dot as a decimal point and gives 1.234.

## Model

| member | source | states |
|---|---|---|
| Common.Max | app.py:801 | the result is the larger argument and no smaller than either |
| Common.MaxInt | App.py:84 | the result is the larger integer argument |
| Common.Ceil | app.py:744 | `np.ceil`: the least integer not below `x` |
| Common.Trunc | app.py:763-764 | `int()` on a float: truncation toward zero, on both signs |
| Common.Clip | app.py:807 | `clip(lo, hi)`: the result lies in `[lo, hi]`, equals `x` inside, and equals the bound that `x` passed |
| Routing.InsertByStep | app.py:724 | inserting a row adds exactly that row to the multiset |
| Routing.InsertByStepSorted | app.py:724 | inserting into a Step-sorted table keeps it sorted |
| Routing.SortByStep | app.py:724 | `sort_values("Step")`: same length, a permutation of the rows, and in ascending Step order |
| Routing.SortedRowsAreRows | app.py:724 | every sorted row is a row of the input |
| Routing.SortKeepsMembership | app.py:724 | a row is in the sorted routing exactly when it is in the routing |
| Routing.SortSortedKeeps | app.py:724 | sorting a table already in Step order changes nothing |
| ScrapChain.Good | app.py:728 | the good fraction is at least 1e-9, equals `1 - scrap` when that is at least 1e-9, and is at most 1 for non-negative scrap |
| ScrapChain.Rows | app.py:732-733 | the annotated table keeps one row per input row, in place |
| ScrapChain.PropagateScrap | app.py:723-733 | the backward loop returns the sorted routing, each row annotated with the input quantity that `Propagation` specifies |
| ScrapChain.PropagationKeepsRows | utils/Shared.py:92-99 | propagation keeps the row count, its rows are a permutation of the input rows, and they are in Step order |
| ScrapChain.LastStepYieldsTarget | app.py:726-730 | the last step's `Eff_Input_Qty * max(1e-9, 1 - Scrap_pct)` is `Q` |
| ScrapChain.EachStepFeedsTheNext | utils/Shared.py:95-97 | each step's input times its good fraction is the next step's input |
| ScrapChain.InputQtyWithoutScrap | app.py:726-730 | with no scrap the backward walk keeps the quantity unchanged |
| ScrapChain.ZeroScrapKeepsTarget | app.py:725-732 | with every `Scrap_pct = 0` every `Eff_Input_Qty` is `Q` |
| ScrapChain.GrossUpNotSmaller | app.py:729 | dividing by a good fraction in (0, 1] never lowers a quantity |
| ScrapChain.InputQtyAntitone | app.py:726-730 | with scrap in [0, 1) the needed quantity never rises from one step to a later one and never falls below `Q` |
| ScrapChain.ScrapChainMonotone | app.py:725-732 | with scrap in [0, 1) every `Eff_Input_Qty` is at least `Q` and the values do not increase along Step order |
| CostRollup.StepTimesLaws | app.py:761-777 | batches is the least integer covering `qty / max(1, int(Batch_size))`; setup is per batch; cycle, QA and kWh are per unit; machine minutes times `max(1, int(Parallel_machines))` is setup plus cycle; labour minutes are setup, cycle and QA times `Attend_pct / 100` |
| CostRollup.UnitCost | app.py:790 | `total_pc * Q = mat_pc * Q + conv + lean + buy` |
| CostRollup.CostOnce | app.py:750-791 | the result is what `CostSpec` specifies; `mat_pc = net_kg * mat_price`; `total_pc * Q` is the sum of the parts; an empty routing gives zero conversion and lean totals; an empty BOM gives a zero purchase total |
| CostRollup.RoutingTotals | utils/Shared.py:113-125 | the conversion and lean totals of a routing, zero for an empty routing, otherwise summed over the propagated steps |
| CostRollup.AccumulateSteps | app.py:761-780 | the per-row loop accumulates exactly the per-step conversion and lean sums |
| CostRollup.UnknownProcessAtLaborRate | app.py:772 | a process missing from `machine_rates` has its machine hours charged at the labour rate |
| CostRollup.OneBatchAtBatchSize | app.py:764-765 | an input of exactly one batch size is one batch |
| CostRollup.ExtraUnitOpensBatch | app.py:765 | one unit beyond `k` full batches opens batch `k + 1` |
| CostRollup.LeanZeroWithoutAdders | utils/Shared.py:101-107 | with no storage, transport or rework the lean total is 0, because `cost_once` passes 0 extra kWh |
| CostRollup.TransportOnlyStep | app.py:735-748 | with no storage and no rework a step's lean adder is `km * eur_km` |
| CostRollup.TransportChargedPerStep | app.py:779 | with no storage and no rework the lean total is the number of steps times `km * eur_km` |
| CostRollup.EditionsAgreeAtStandardRate | utils/Shared.py:101-107 | at labour rate 45 both copies of `lean_costs` give the same lean total |
| CostRollup.CostOnceEditionsAgree | utils/Shared.py:109-132 | at labour rate 45 the two copies of `cost_once` return the same dictionary |
| Capacity.StepUtil | app.py:829 | a step's utilisation is NaN exactly when its capacity is not positive, and `need / cap` when the capacity is at least 1e-6 |
| Capacity.StepLoadLaws | app.py:818-828 | a step's row keeps its process; `Hours_need * 60 * par` is setup plus cycle minutes; setup is per batch and cycle per unit; capacity comes from `cap_per_process`, else `hours_per_day` |
| Capacity.Loads | app.py:817-830 | one load row per propagated step |
| Capacity.GroupValAt | app.py:832 | in a grouped table a process's value is its own row's value |
| Capacity.AddToGroupLaws | app.py:832 | adding a row to the grouped table keeps one row per process and adds the row's columns to its process only |
| Capacity.GroupByProcessLaws | app.py:832 | `groupby("Proces").sum()`: one row per distinct process, each holding the sum of that process's rows in every column |
| Capacity.Ratio | app.py:833 | `Hours_need / Hours_cap`, NaN exactly when the capacity is 0 |
| Capacity.RecomputeUtil | app.py:833 | every grouped row gets `Util_pct` recomputed from its summed hours, and nothing else changes |
| Capacity.InsertByUtil | app.py:834 | inserting a row adds exactly that row to the multiset |
| Capacity.InsertByUtilSorted | app.py:834 | inserting into a table in descending utilisation keeps it descending, NaN last |
| Capacity.InsertByUtilLaws | app.py:834 | inserting a new process keeps one row per process |
| Capacity.SortByUtil | app.py:834 | `sort_values("Util_pct", ascending=False)`: a permutation in descending utilisation with NaN last |
| Capacity.SortByUtilKeepsProcs | app.py:834 | sorting keeps the set of processes and one row per process |
| Capacity.CapacityTable | app.py:813-834 | the building loop returns the table that `CapacitySpec` specifies |
| Capacity.LoadsNameRows | app.py:817-819 | the load rows name exactly the processes of the propagated rows |
| Capacity.SameRowsSameProcs | app.py:824 | two orderings of the same rows name the same processes |
| Capacity.LoadsProcs | app.py:817-819 | the load rows name exactly the routing's processes |
| Capacity.LoadsCap | app.py:827 | every load row's capacity is `cap_per_process.get(proc, hours_per_day)` |
| Capacity.CapSumIsCountTimesCap | app.py:832 | a process's summed `Hours_cap` is its number of steps times its capacity |
| Capacity.RecomputeKeepsProcs | app.py:833 | recomputing utilisation keeps one row per process |
| Capacity.TableOfShape | app.py:831-834 | the finished table has one row per process, in descending utilisation |
| Capacity.TableOfRow | app.py:832-833 | each finished row holds its process's column sums and utilisation from its summed hours |
| Capacity.TableOfSums | app.py:832-833 | every finished row holds its process's sums and its recomputed utilisation |
| Capacity.CapacityTableShape | utils/Shared.py:134-147 | the table is empty exactly for an empty routing, otherwise it has one row per distinct process of the routing, in descending utilisation |
| Capacity.CapacityTableSums | app.py:813-834 | every column is summed over the process's steps; utilisation is NaN exactly when summed capacity is 0 and otherwise `Hours_need / Hours_cap` |
| Capacity.BottleneckIsFirst | app.py:873 | in a descending table the first row's utilisation is the highest, and NaN only if every row is NaN |
| MakeOrBuy.MaxUtil | app.py:883-884 | `Series.max()` ignoring NaN: NaN exactly when every row is NaN, otherwise some row's value and no smaller than any row's |
| MakeOrBuy.MaxUtilIsFirstRow | app.py:883-884 | on a descending table the maximum is the first row's |
| MakeOrBuy.Bottleneck | app.py:873 | the bottleneck is a row of the table with the highest utilisation |
| MakeOrBuy.SortSortedIsIdentity | app.py:873 | re-sorting a descending table changes nothing |
| MakeOrBuy.BottleneckOfCapacityTable | app.py:873 | the bottleneck of a capacity table is its first row |
| MakeOrBuy.BuyUnit | app.py:878-881 | `buy_price + transport_buy` from `Q >= moq`, otherwise `buy_price * moq / Q + transport_buy` |
| MakeOrBuy.BelowMoqNotCheaper | app.py:878-881 | ordering below the MOQ never lowers the unit purchase price |
| MakeOrBuy.MakeVsBuy | app.py:878-887 | make price is `total_pc` plus the capacity penalty; the advice is BUY exactly when buying costs less per unit; the delta is the absolute difference |
| MakeOrBuy.PenaltyOnlyWhenOverloaded | app.py:882-885 | no penalty when no utilisation exceeds 1; a positive penalty when one does and `total_pc > 0` |
| MakeOrBuy.PenaltyFromBottleneck | app.py:882-885 | on a capacity table the penalty is `(util - 1) * 0.10 * total_pc` of the first row when it exceeds 1, otherwise 0 |
| MonteCarlo.PerturbPrice | app.py:801 | the drawn material price is at least 0.01 and equals the normal draw when that is at least 0.01 |
| MonteCarlo.CycleClamp | utils/Shared.py:155 | utils/Shared.py keeps every cycle time at 0.05 or more; the intended app.py factor clip (see Findings) never scales a non-negative cycle time by less than 0.05 |
| MonteCarlo.CycleClipsDiffer | utils/Shared.py:155 | the two clips differ: a 0.02-minute cycle stays 0.02 under the intended app.py factor clip and becomes 0.05 in utils/Shared.py |
| MonteCarlo.PerturbScrap | app.py:807 | perturbed scrap lies in [0, 0.35] and equals the draw inside that range |
| MonteCarlo.PerturbRouting | utils/Shared.py:154-156 | the iteration's routing has the same rows with only cycle time and scrap perturbed, each by its own draw |
| MonteCarlo.Iteration | utils/Shared.py:153-158 | one iteration records the `total_pc` of `cost_once` on the perturbed price and routing (for app.py, with the corrected cycle clip of Findings) |
| MonteCarlo.RunMc | utils/Shared.py:149-159 | one sample per iteration, sample `k` being the unit cost of draw `k` (for app.py, with the corrected cycle clip of Findings) |
| MonteCarlo.AppIterationAsWritten | app.py:801-809 | app.py's iteration as written: no sample exactly when the routing is non-empty, since `ndarray.clip(lower=0.05)` raises; an empty routing records the sample |
| MonteCarlo.AppRunMcAsWritten | app.py:795-810 | app.py's `run_mc` as written: fails exactly when the routing is non-empty and there is at least one iteration, otherwise one sample per draw |
| MonteCarlo.OneStepRoutingGivesNoSample | app.py:805 | a one-step routing gives no sample as written, while the intended factor clip gives cycle time times `max(0.05, 1 + sd * z)` |
| MonteCarlo.IterationClamps | utils/Shared.py:153-156 | every iteration prices material at 0.01 or more and has scrap in [0, 0.35]; utils/Shared.py also keeps cycle times at 0.05 or more |
| MonteCarlo.ZeroDrawKeepsRouting | utils/Shared.py:153-156 | zero draws on inputs inside the clamps perturb nothing |
| MonteCarlo.ZeroDrawsGiveNominalCost | utils/Shared.py:149-159 | with all draws zero and nominal inputs inside the clamps every sample is the nominal `total_pc` |
| PowerBi.FactRowIsStepCost | utils/Shared.py:183-191 | a FactRouting row has zero lean cost, its total is machine plus labour plus energy, and that total is the step's conversion cost |
| PowerBi.FactRows | utils/Shared.py:175-191 | one FactRouting row per propagated step |
| PowerBi.BuildFactRouting | utils/Shared.py:172-192 | the FactRouting loop returns the rows `FactRoutingSpec` specifies |
| PowerBi.FactRowsSumToConv | utils/Shared.py:191 | the rows' `Cost_TotalStep` values sum to the steps' conversion cost |
| PowerBi.FactRoutingMatchesCostOnce | utils/Shared.py:173-191 | one FactRouting row per routing step, with totals summing to the `conv_total` of `cost_once` |
| PowerBi.FactBom | utils/Shared.py:194-197 | one FactBOM row per purchased part |
| PowerBi.ScaledRowsSum | utils/Shared.py:195 | cost rows that scale each line cost by `Q` sum to the line sum times `Q` |
| PowerBi.CostRunSumIsBomSum | utils/Shared.py:195 | the `Cost_Run` column sums to the line sum times `Q` |
| PowerBi.CostRunSumIsBuyTotal | utils/Shared.py:129-130 | the `Cost_Run` column sums to the `buy_total` of `cost_once` |
| PowerBi.FactMc | utils/Shared.py:198-200 | one FactMC row per sample, `ScenarioIdx` running from 1, the unit cost being that sample |
| EuroNumber.ReplaceChar | app.py:255 | `str.replace` of one character: same length, exactly that character replaced |
| EuroNumber.RemoveChar | app.py:258 | `str.replace(c, "")`: the character is gone and nothing new appears |
| EuroNumber.LStrip | app.py:255 | `strip` on the left: a suffix with no leading whitespace |
| EuroNumber.RStrip | app.py:255 | `strip` on the right: a prefix with no trailing whitespace |
| EuroNumber.FirstDigit | app.py:256 | the regex match starts at the first digit; there is none exactly when no digit follows |
| EuroNumber.MatchEnd | app.py:256 | the match `[0-9\.\,\s]*` extends to the first character outside the class |
| EuroNumber.RFind | app.py:260 | `str.rfind`: -1 exactly when the character is absent, otherwise its last position |
| EuroNumber.ParseEurNumber | app.py:254 | a missing or empty string gives `None` |
| EuroNumber.ParsersAgree | utils/Shared.py:37-49 | `parse_eur` gives the same result as `parse_eur_number` on every input, missing and empty included |
| EuroNumber.NoDigitNoNumber | app.py:256-257 | text without a digit gives `None` |
| EuroNumber.NormalizeEuropean | app.py:259-262 | with `.` before the last `,`, the dots are dropped and the comma becomes the decimal point |
| EuroNumber.NormalizeUs | app.py:259-262 | with `,` before the last `.`, the commas are dropped and the dot stays the decimal point |
| EuroNumber.EuropeanGrouping | app.py:259-262 | digits grouped by `.` with a `,` fraction read as the ungrouped digits plus that fraction |
| EuroNumber.UsGrouping | app.py:259-262 | digits grouped by `,` with a `.` fraction read as the ungrouped digits plus that fraction |
| EuroNumber.NormalizeCommaDecimal | app.py:263-266 | a lone comma followed by one or two digits becomes the decimal point |
| EuroNumber.CommaDecimal | app.py:263-266 | digits, a comma and one or two digits read as a decimal number |
| EuroNumber.NormalizeCommaThousands | app.py:263-268 | a lone comma whose last group is not one or two characters long is dropped |
| EuroNumber.CommaThousands | app.py:263-268 | digits grouped by commas with a last group not one or two long read as one whole number |
| EuroNumber.ManyDots | app.py:269-270 | several dots alone are all thousands separators |
| EuroNumber.OneDot | app.py:269-271 | a single dot alone is the decimal point |
| EuroNumber.ExampleEuropean | app.py:253-272 | "1.234,56" gives 1234.56 |
| EuroNumber.ExampleCommaDecimal | app.py:263-266 | "1,5" gives 1.5 |
| EuroNumber.ExampleCommaThousands | app.py:263-268 | "1,234" gives 1234 |
| EuroNumber.ExampleManyDots | app.py:269-270 | "1.234.567" gives 1234567 |
| EuroNumber.ExampleUs | app.py:259-262 | "1,234.5" gives 1234.5 |
| Helpers.EurtonToEurkg | app.py:250-251 | a missing value gives 0, otherwise the result times 1000 is the EUR/ton value |
| Helpers.EurtonOrder | utils/Shared.py:35 | the conversion keeps order and its inverse is scaling by 1000 |
| Helpers.Project12m | app.py:453-457 | 13 points, month `k` holding the base grown by `k` monthly changes |
| Helpers.ProjectedIsGeometric | app.py:454-456 | month `k` is `base * (1 + change)^k` |
| Helpers.FlatWithoutChange | app.py:465 | with no monthly change every month is the base price |
| Helpers.RisingWithGrowth | app.py:454-456 | with a non-negative base and change the projection never falls |
| Helpers.MissingCols | app.py:491 | the missing columns are exactly the required ones absent from the file |
| Helpers.NoneMissingIffAllPresent | app.py:491-492 | nothing is missing exactly when every required column is present |
| Helpers.ValidateRoutingCsv | app.py:490-495 | accepted exactly when all twelve routing columns are present, then sorted by Step and a permutation of the rows; otherwise "Routing CSV mist" with exactly the missing columns |
| Helpers.ValidateBomCsv | app.py:497-502 | accepted exactly when all four BOM columns are present, then the rows unchanged; otherwise "BOM CSV mist" with exactly the missing columns |
| Helpers.PartTypeOf | app.py:633-639 | a part type is recognised exactly when the text is one of the five labels |
| Helpers.LabelsRecognised | app.py:633-639 | every label is recognised as its own part type |
| Helpers.AutoRow | app.py:647-650 | the row helper clamps cycle time to at least 0.1 and setup and kWh to at least 0, keeping every other value |
| Helpers.AppendRow | app.py:647-650 | appending one generated row keeps the routing under construction well formed |
| Helpers.AscendingIsSorted | app.py:671 | strictly ascending steps are Step-sorted |
| Helpers.SortKeepsGenerated | app.py:671 | sorting a generated routing changes nothing |
| Helpers.TurnedShaftRows | app.py:651-653 | a turned shaft gets two well-formed rows |
| Helpers.MilledBracketRows | app.py:654-656 | a milled bracket gets two well-formed rows |
| Helpers.WeldedFrameRows | app.py:657-661 | a welded frame gets four well-formed rows |
| Helpers.SheetMetalRows | app.py:662-666 | a sheet-metal part gets four rows with bends and three without |
| Helpers.CastHousingRows | app.py:667-670 | a cast housing gets three well-formed rows |
| Helpers.RuleTable | app.py:651-671 | each part type gets its number of rows, well formed and in Step order |
| Helpers.GenerateAutorouting | app.py:645-671 | no routing exactly for an unknown part type, otherwise that type's number of rows, well formed and in Step order |
| SimpleTool.ProcCost | App.py:66-68 | a process's cost is non-negative for a non-negative quantity |
| SimpleTool.Dedup | App.py:64-69 | the dictionary keys are exactly the selected processes, each once |
| SimpleTool.DedupDistinct | App.py:42-46 | distinct selections keep their order as keys |
| SimpleTool.SumCostsNonNegative | App.py:71 | the process sum is non-negative |
| SimpleTool.DictSumIsSumCosts | App.py:71 | summing the dictionary's values gives the sum of the process costs |
| SimpleTool.FillProcCosts | App.py:64-69 | the loop fills one entry per selected process, each `(cycle_min / 60) * rate * Q`, and the values sum to `ProcSum` |
| SimpleTool.Direct | App.py:61-73 | material, process, rework, storage and transport costs by their formulas |
| SimpleTool.Markup | App.py:75-80 | `cost_total = direct * 1.25`, `sales_total = cost_total * 1.12 = direct * 1.4`, and direct plus the three markups is `sales_total` |
| SimpleTool.Calculate | App.py:61-86 | `sales_per_part * Q = sales_total`; `buy_total = (buy_price + transport_buy) * max(Q, moq)`; MAKE exactly when `sales_total < buy_total` |
| SimpleTool.BreakdownAddsUp | App.py:98-101 | the eight breakdown categories sum to `sales_total` |
| SimpleTool.DecisionAtMoq | App.py:84-86 | from `Q >= moq`, MAKE exactly when the sales price per part is below the unit purchase price |
| SimpleTool.BelowMoqPaysMoq | App.py:84 | below the MOQ the whole MOQ is paid for |
| SimpleTool.NoProcessNoProcessCosts | App.py:64-73 | with no process selected, process, rework and storage costs are 0 |
| SimpleTool.AddingAProcess | App.py:64-71 | selecting one more process adds exactly its cost to the process sum |
| SimpleTool.ReselectingAProcess | App.py:64-71 | selecting a process again leaves the process sum unchanged |
| SimpleTool.SalesCoverMaterial | App.py:62-80 | with non-negative inputs the sales total covers the material cost, which is non-negative |

## Findings

| source | as written | input that shows it | evidently intended | confidence | as-written member | corrected member |
|---|---|---|---|---|---|---|
| app.py:805 | `(1.0+rng.normal(0.0,sd_cycle,size=len(r))).clip(lower=0.05)` calls `clip` on a NumPy array, which has no `lower` keyword, so the line raises and `run_mc` returns no samples | any one-step routing with `iters >= 1` | clip the factor `1 + sd_cycle * z` at 0.05, as `Series.clip(lower=0.05)` would | not executed | MonteCarlo.AppRunMcAsWritten | MonteCarlo.CycleClamp |

`MonteCarlo.AppIterationAsWritten` and `MonteCarlo.OneStepRoutingGivesNoSample` show the
failure for one iteration. The rest of the model uses the corrected factor clip in
`PerturbCycle`, through `Iteration` and `RunMc`.

## Left out

- Web scraping, the GitHub preset API, the Streamlit widgets and session state, PDF, Excel
  and CSV downloads, and charts (including App.py's trend chart): all are I/O or
  presentation. Their values reach the model as inputs.
- Random number generation: `rng.normal` and the seed are not modelled. The standard
  normal draws are passed in, and the loop stops at the list of samples. `np.percentile`
  is not part of this model.
- Helpers.EurtonToEurkg: its `None` is Python's `None`, which `or 0.0` maps to 0. A NaN
  price is truthy and gives NaN in the source; NaN input is outside this member's domain.
- IEEE-754 floats are exact reals, NaN and ±inf are `None`, and `pd.to_numeric(errors="coerce")`
  is not modelled. Columns are numbers already.
- Routing and BOM rows carry every column. The `row.get(col, default)` fallbacks for
  missing columns are not modelled.
- `SortByStep` and `SortByUtil` are stable insertion sorts. pandas' default quicksort is
  not stable, and `groupby` orders its keys. Only the order of tied rows can differ, so
  the contracts state order and permutation, not tie order.
- Capacity.StepUtil: the per-step `Util_pct` is computed, but `groupby(...).sum()`
  overwrites it. Only the recomputed utilisation reaches the table.
- Helpers.ValidateRoutingCsv and Helpers.ValidateBomCsv: the message text holds the missing
  columns as a separate list, not formatted into the string. The column selection and
  numeric coercion are not modelled.
- Helpers.GenerateAutorouting: an unknown part type makes the sort of an empty frame raise
  `KeyError`; the model returns `None`. Only the five labels are recognised.
- Helpers.AppendRow: it requires its rows to be under construction, with a known process
  and increasing steps. The source's row helper demands nothing; the five rule tables
  always meet these conditions.
- Helpers.RuleTable, Helpers.TurnedShaftRows, Helpers.MilledBracketRows,
  Helpers.WeldedFrameRows, Helpers.SheetMetalRows and Helpers.CastHousingRows: each
  contract states the row count, the steps ascending from 10, known processes, the row
  clamps and the final Montage step, not every constant of every row.
- EuroNumber: `float()` is modelled on text of digits, one `.` and whitespace only, the
  only kind the rewrite can produce. Exponents, signs, `inf` and underscores cannot reach it.
- MonteCarlo.RunMc: `iters` is the length of the draw sequence.
- PowerBi: `RunDate` (system clock) and the FactRun table are not modelled. FactBOM
  keeps the columns it computes.
- SimpleTool: the material and processes come from a selectbox and a multiselect, so
  they are datatypes, not strings. `energy_rate` is never used by `App.py`.
