# Inventory allocation between two build orders — a verified model

This project models the allocation and satisfaction-rate engine of a small
inventory-allocation tool. Two build orders ("models" A and B) compete for
one inventory snapshot. Each order has a bill of materials (BOM), a planned
quantity and a priority. A lower priority value is served first.

- `Allocation` (core/allocation.py): the `InventoryAllocator` class. It
  holds the snapshot `inventoryData` and splits the BOM codes into shared
  and exclusive codes. It computes requirements (per-unit quantity × plan),
  gives each exclusive code `min(required, stock)`, and serves shared codes
  greedily in priority order. Last, it merges the per-model maps and builds
  the per-material detail map.
- `Calculator` (core/calculator.py): the shortage map, the limiting
  material, the buildable quantity and the satisfaction rate of one model,
  and their composition for both models.
- `ResultMetrics` (ui/result_frame.py): the average per-material
  satisfaction and the remaining stock shown in the materials overview.
- `Helpers` (utils/helpers.py): `validate_positive_integer` and
  `validate_material_code`, over a small model of Python values and of
  `int()` / `str.strip()`.
- `Pipeline`: one allocate-then-calculate run, as ui/main_window.py wires
  it, with the end-to-end properties.
- `Common` and `Domain`: `dict.get(k, 0)`, `min`, `int()` on a number, and
  the records of database/models.py.

Quantities are exact `real`s, not floats. Python's `int(x)` is `Common.Trunc`
(truncation toward zero, the floor for `x >= 0`). Every loop of the source is
a `method` with a `while` loop. Each method is proved equal to a
specification function, and the properties are lemmas about those functions.
Dictionaries are `map`s. Loops over Python sets pick an arbitrary element
(`:|`), because each element's work is independent of the order.

Behaviours of the code that the model keeps as written:

- A repeated BOM code overwrites its requirement; the last line wins
  (core/allocation.py:123). Requirements are not summed.
- Equal priorities serve A before B, because Python's sort is stable
  (core/allocation.py:164-168).
- A shared code with no stock left, or with a requirement `<= 0`, gets **no
  entry** in that model's map, not a 0 entry (core/allocation.py:177-184).
- The detail map has a row for every inventory code and every shared code.
  Exclusive codes show `allocated_a = allocated_b = 0` even when a model was
  granted some of them (core/allocation.py:213-219).
- A load whose query returns no rows (or `None`) keeps the current snapshot.
  Only an exception empties it (core/allocation.py:24-33). On construction,
  both give the empty snapshot.
- With a repeated BOM code, the limiting ratio can come from a later line,
  while the buildable quantity divides by the first line's per-unit
  quantity (core/calculator.py:94-101). The buildable quantity can then
  exceed the plan (`Calculator.RepeatedCodeCanExceedPlan`). The bounds
  lemmas therefore assume distinct codes.
- An empty component code can become the limiting material
  (core/calculator.py:87-89). Line 91 then skips the recomputation, so
  the plan is reported even when other lines are short
  (`Calculator.EmptyCodeKeepsPlan`).

## Model

| member | source | states |
|---|---|---|
| Allocation.InventoryFromRows | core/allocation.py:27-30 | the snapshot built from the query rows has exactly the rows' codes as keys |
| Allocation.InventoryLastRowWins | core/allocation.py:27-30 | a code's stock is the reading of the last row naming it; a NULL or zero reading gives 0.0 |
| Allocation.InventoryAllocator.constructor | core/allocation.py:11-20 | a new allocator starts from the empty snapshot and loads once; a failed read leaves it empty instead of failing construction |
| Allocation.InventoryAllocator.LoadInventoryData | core/allocation.py:22-33 | an exception empties the snapshot, an empty result keeps it, and any rows replace it |
| Allocation.ExtractMaterials | core/allocation.py:101-106 | the material map is keyed by exactly the BOM's codes |
| Allocation.ExtractLastLineWins | core/allocation.py:101-106 | a repeated code keeps the per-unit quantity of its last line |
| Allocation.MaterialPartition | core/allocation.py:108-114 | about FindSharedMaterials and FindExclusiveMaterials: shared = codes(A) ∩ codes(B); shared and the two exclusive sets are pairwise disjoint; shared ∪ exclusive_X = codes(X) |
| Allocation.RequirementOfLastLine | core/allocation.py:116-124 | requirements are keyed by the BOM codes; each is per-unit × plan of the last line naming the code (overwrite, no sum) |
| Allocation.InventoryAllocator.CalculateRequirements | core/allocation.py:116-124 | the loop yields the requirement map of the whole BOM |
| Allocation.InventoryAllocator.AllocateExclusive | core/allocation.py:126-137 | every exclusive code gets `min(requirement, stock)`, with 0 for a missing code |
| Allocation.ServiceOrderIsStableSort | core/allocation.py:164-168 | the service order holds both models, in ascending priority, and keeps A first on a tie |
| Allocation.GrantBounds | core/allocation.py:177-185 | a turn writes an entry iff stock remains and the requirement is positive; the grant is positive, at most the requirement and the remaining stock, and equals one of them |
| Allocation.ExhaustedStockStays | core/allocation.py:177-178 | once the stock is used up, the remaining turns change nothing (the `break`) |
| Allocation.InventoryAllocator.ServeInOrder | core/allocation.py:171-185 | the inner loop for one shared code writes exactly the entries the turns in service order grant |
| Allocation.InventoryAllocator.AllocateSharedMaterials | core/allocation.py:139-190 | the per-model shared maps are the specified shared allocations of every shared code |
| Allocation.SharedServesInPriorityOrder | core/allocation.py:164-185 | the model with the lower priority value (A on a tie) gets `min(req, stock)`; the other gets its grant from what is left |
| Allocation.SharedConservation | core/allocation.py:171-185 | for one shared code: no entry when the stock is ≤ 0 or the requirement is ≤ 0; with stock ≥ 0, the two grants sum to at most the stock; each grant is positive and at most its requirement |
| Allocation.SharedWithoutContention | core/allocation.py:171-185 | with stock for both, both models get their whole requirement whatever the priorities |
| Allocation.SharedMonotoneInStock | core/allocation.py:171-185 | more stock of a shared code never gives either model less of it |
| Allocation.MergedGet | core/allocation.py:192-200 | a merged value is `base.get(k,0) + additional.get(k,0)` |
| Allocation.InventoryAllocator.MergeAllocation | core/allocation.py:192-200 | the merge loop yields the union of keys with summed values |
| Allocation.InventoryAllocator.CalculateMaterialsDetail | core/allocation.py:202-233 | one row per inventory code and per shared code; non-shared rows show no allocation; shared rows show the shared grants and `stock.get(code, 0)` |
| Allocation.InventoryAllocator.Allocate | core/allocation.py:35-99 | `allocate` returns the specified outcome of the snapshot; it modifies nothing |
| Allocation.AllocationPerCode | core/allocation.py:35-99 | per code: an exclusive code always gets `min(req, stock)`, independent of the other model; a shared code gets its priority-order grant and no entry when none; codes outside a BOM never appear; the detail row as above |
| Allocation.AllocationNeverOverServes | core/allocation.py:126-185 | no model gets a code outside its BOM or more than its requirement of any code |
| Allocation.SharedMaterialConserved | core/allocation.py:171-233 | a shared code with stock ≥ 0 is never over-allocated, and its detail row carries both grants |
| Allocation.AllocationMonotoneInInventory | core/allocation.py:126-185 | more stock of every code never gives either model less of any code |
| Allocation.EmptyInventoryGrantsNothing | core/allocation.py:31-33 | with the empty snapshot of a failed load and non-negative requirements, every model gets 0 of every code, and the detail has only the shared codes |
| Allocation.AllocationNonNegative | core/allocation.py:126-185 | non-negative stock and requirements give non-negative grants |
| Domain.LastLineOf | core/allocation.py:119-123 | every code of a BOM has a last line naming it, which no later line names |
| Allocation.RequirementsNonNegative | core/allocation.py:116-124 | non-negative per-unit quantities and a non-negative plan give non-negative requirements, repeated codes included |
| Calculator.ShortagesKeys | core/calculator.py:59-69 | the shortage map names exactly the codes of the lines with `required - allocated > 0` |
| Calculator.ShortagesValues | core/calculator.py:59-69 | every shortage entry is positive and is the shortfall of a line with that code |
| Calculator.ShortagesOfDistinct | core/calculator.py:59-69 | with distinct codes, a short line's entry is its own shortfall |
| Calculator.CollectShortages | core/calculator.py:59-69 | the first loop yields the specified shortage map |
| Calculator.LimitingLineIsFirstMinimum | core/calculator.py:76-89 | the limiting line exists iff some line is short; it is short, has the minimal ratio among short lines, and no earlier short line has the same ratio (strict `<`) |
| Calculator.FindLimitingMaterial | core/calculator.py:76-89 | the second loop returns the limiting line's code and ratio, or none (the initial infinity) when no line is short |
| Calculator.FirstLineWith | core/calculator.py:93-97 | the first line index with the code, or none when no line has it |
| Calculator.FindLimitingItem | core/calculator.py:92-97 | the search loop returns the first line naming the limiting code |
| Calculator.NoShortageBuildsPlan | core/calculator.py:72-74 | with no short line, the buildable quantity is the plan, and the rate is 100 for a positive plan |
| Calculator.BuildableOfShortage | core/calculator.py:91-101 | with a short line in a well-formed BOM, the buildable quantity is `int(allocated / per_unit)` of the limiting line |
| Calculator.RateBounds | core/calculator.py:103-106 | for `0 ≤ q ≤ plan` the rate lies in [0, 100] and is 100 iff `q == plan` |
| Calculator.BuildableWithinPlan | core/calculator.py:71-106 | well-formed BOM, plan > 0, allocations ≥ 0: `0 ≤ q ≤ plan`; `q == plan` iff no line is short; q units fit every line's allocation; q is the plan or some line's truncated quotient; rate in [0, 100], and 100 iff `q == plan` |
| Calculator.BuildableBounded | core/calculator.py:71-106 | distinct codes, positive per-unit quantities, plan > 0, allocations ≥ 0, empty codes allowed: `0 ≤ q ≤ plan` and the rate lies in [0, 100] |
| Calculator.RateMonotone | core/calculator.py:103-106 | for a positive plan, a larger buildable quantity never gives a lower rate |
| Calculator.BuildableMonotone | core/calculator.py:71-101 | more of every material never lowers the buildable quantity |
| Calculator.CalculateModelSatisfaction | core/calculator.py:44-118 | the result echoes code, name, plan, BOM and the allocation, and holds the specified shortages, buildable quantity and rate |
| Calculator.CalculateSatisfaction | core/calculator.py:11-42 | each model is computed independently on its own allocation; the material detail is passed through |
| Calculator.HalfSatisfiedExample | core/calculator.py:59-106 | M1 2/unit and M2 1/unit, plan 10, 10 of each: only M1 is short and limiting, 5 units, 50% |
| Calculator.EmptyCodeKeepsPlan | core/calculator.py:87-101 | an empty code that becomes the limiting material leaves the plan buildable: 10 of 10 units with no stock at all; 10 units although line X, with 5 of 10, is short and precedes the limiting empty-code line; and 10 units before but 5 after granting the empty code's material |
| Calculator.RepeatedCodeCanExceedPlan | core/calculator.py:79-101 | with a repeated code the buildable quantity can reach 20 of a plan of 10 (rate 200%) |
| ResultMetrics.LineSatisfactionBounds | ui/result_frame.py:207-208 | a counted line contributes at most 100, at least 0 for a non-negative allocation, and exactly 100 iff it is met |
| ResultMetrics.CalculateAvgMaterialSatisfaction | ui/result_frame.py:184-216 | the loop yields the specified average: 0 for an empty allocation or BOM, else total / count over lines with a positive requirement, else 0 |
| ResultMetrics.TotalBounds | ui/result_frame.py:200-210 | the total lies between 0 and 100 × count, and reaches 100 × count iff every counted line is met |
| ResultMetrics.AverageWithinBounds | ui/result_frame.py:194-216 | with allocations ≥ 0 the average lies in [0, 100], and is 100 iff the allocation is non-empty, some line counts and every counted line is met |
| ResultMetrics.UncountedLineIgnored | ui/result_frame.py:207-210 | a line with requirement ≤ 0 changes neither the sum nor the count |
| ResultMetrics.RemainingStockOfShared | ui/result_frame.py:158-161 | for a shared code with stock ≥ 0, the remaining stock shown is stock − both grants, and it is ≥ 0 |
| ResultMetrics.RemainingStockOfUnshared | ui/result_frame.py:272-275 | any other code shows its whole stock as remaining |
| Helpers.StripEmpty | utils/helpers.py:71 | a string strips to nothing iff it is all whitespace |
| Helpers.ParseIntOfIntToString | utils/helpers.py:53 | `int(str(n)) == n` for every integer |
| Helpers.ParseIntRejectsBlank | utils/helpers.py:53-56 | blank strings and a lone sign do not convert |
| Helpers.ParseIntRejectsMalformed | utils/helpers.py:53-56 | a decimal point, a letter, a misplaced underscore or a leading U+001C (which `str.strip()` removes but `int()` does not) does not convert |
| Helpers.ParseIntSkipsPadding | utils/helpers.py:53 | surrounding whitespace is skipped: `int(" 42\n") == 42`. `Helpers.IntStrip` skips what `int()` skips, which is `str.strip()`'s set without U+001C..U+001F |
| Helpers.ParseIntSignAndZeros | utils/helpers.py:53 | a sign and leading zeros are accepted |
| Helpers.ParseIntUnderscores | utils/helpers.py:53 | single underscores between digits are accepted |
| Helpers.InfinityEscapesValidator | utils/helpers.py:52-56 | about ValidatePositiveIntegerAsWritten: as written, an infinite float raises out of `validate_positive_integer` |
| Helpers.ValidatorMatchesAsWritten | utils/helpers.py:52-56 | about ValidatePositiveIntegerAsWritten and ValidatePositiveInteger: the corrected validator agrees with the written one wherever that returns; the written one raises only on an infinite float |
| Helpers.UnconvertibleIsInvalid | utils/helpers.py:55-56 | a value `int()` cannot convert is never valid; None and other objects fail with `TypeError` |
| Helpers.NumeralValidIffInBounds | utils/helpers.py:40-54 | a numeral is valid iff `min ≤ n ≤ max`; the defaults are 1 and 100000 |
| Helpers.FloatAndBoolConversions | utils/helpers.py:53-54 | a finite float is judged by its truncation toward zero, a bool as 0 or 1 |
| Helpers.MaterialCodeValidIff | utils/helpers.py:59-71 | about ValidateMaterialCode: a code is valid iff it is a string with a non-whitespace character; None, empty and non-strings are refused |
| Pipeline.RunRatesWithinBounds | ui/main_window.py:121-128 | after a run on stock ≥ 0 with configs of distinct codes, positive per-unit quantities and a positive plan (empty codes allowed), each model builds 0..plan units at a rate in [0, 100] |
| Pipeline.SatisfactionMonotoneInInventory | ui/main_window.py:121-128 | more stock of every material never lowers either model's buildable quantity nor either model's satisfaction rate |
| Pipeline.EmptyInventoryBuildsNothing | ui/main_window.py:121-128 | on the empty snapshot of a failed load, both models build 0 units at rate 0 |
| Pipeline.NothingGrantedBuildsNothing | core/calculator.py:71-106 | a model granted none of the material of any one line builds 0 units |
| Pipeline.SharedStockSplitAllocation | core/allocation.py:164-185 | plans of 100, one M1 per unit, priorities 1 and 2, stock 150: A gets 100 and B gets 50 |
| Pipeline.SharedStockSplitExample | ui/main_window.py:121-128 | in that run A builds 100 units (100%) and B builds 50 (50%) |

## Findings

| source | as written | input that shows it | evidently intended | confidence | as-written member | corrected member |
|---|---|---|---|---|---|---|
| utils/helpers.py:52-56 | only `ValueError` and `TypeError` are caught, so `int(value)` raising `OverflowError` escapes | `validate_positive_integer(float('inf'))` | every unconvertible value gives `False` | medium, not executed | Helpers.InfinityEscapesValidator | Helpers.UnconvertibleIsInvalid |

`Helpers.ValidatePositiveIntegerAsWritten` models the code as written.
`Helpers.ValidatePositiveInteger` is the corrected validator.
`Helpers.ValidatorMatchesAsWritten` shows that the two differ only on an
infinite float.

## Left out

- Floating-point rounding: quantities are exact reals. `Common.Trunc` models `int()` on a finite number.
- The database access (SQLAlchemy, connection handling, SQL text) is not part of this model. The inventory query is a parameter: it either raised, or it returned rows (an empty list stands for `None`).
- The tkinter UI, message boxes, progress bars and the Excel export are display and file I/O, so they are not modelled. The remaining-stock formula of the overview and of the export is modelled.
- `format_number` / `format_percentage`: float-to-string formatting.
- `Calculator.CalculateSatisfaction` takes an outcome holding all three maps, as `allocate` always returns them. The `.get(key, {})` defaults for a dictionary missing a key are not modelled.
- `_calculate_materials_detail` takes two requirement maps that its body never reads, so the model drops them.
- `int()` on strings: `Helpers.ParseInt` accepts ASCII decimal digits only. Python also accepts other Unicode decimal digits. `int()` on `bytes` and on objects with `__int__`/`__index__` is not modelled: they are `OtherValue`, which fails with `TypeError`.
- `Pipeline.RunRatesWithinBounds`, `Calculator.BuildableBounded`: these assume distinct BOM codes and positive per-unit quantities. The input form guarantees only a non-empty model code, a positive plan and a non-empty BOM (ui/config_frame.py:271). `Calculator.RepeatedCodeCanExceedPlan` shows that the plan bound fails without distinct codes.
- BuildableWithinPlan: also assumes non-empty component codes. A BOM row with an empty code is loaded as it is (ui/config_frame.py:241). An empty code can become the limiting material (core/calculator.py:87-89), and line 91 then skips the recomputation, so the plan is reported even when other lines are short and their units need not fit (`Calculator.EmptyCodeKeepsPlan`). The plan and rate bounds hold without it (`Calculator.BuildableBounded`).
- BuildableMonotone: also assumes distinct, non-empty component codes and positive per-unit quantities. With an empty code, more stock can build fewer units: 10, then 5 (`Calculator.EmptyCodeKeepsPlan`, core/calculator.py:91).
- SatisfactionMonotoneInInventory: also assumes distinct, non-empty component codes and positive per-unit quantities, for the reason given for BuildableMonotone.
- EmptyInventoryBuildsNothing: also assumes distinct, non-empty component codes and positive per-unit quantities. With an empty code and no stock, a model still builds its whole plan (`Calculator.EmptyCodeKeepsPlan`, core/calculator.py:91).
- NothingGrantedBuildsNothing: also assumes distinct, non-empty component codes and positive per-unit quantities, for the reason given for EmptyInventoryBuildsNothing.
- ParseIntOfIntToString: holds for every integer in the model. CPython limits `int()` on a string to 4300 digits by default (`int('1' * 5000)` raises `ValueError`); `Helpers.ParseInt` does not impose that limit, so numerals longer than that are accepted by the model and refused by Python.
- NULL component codes: codes are strings in the model. A BOM row whose code is NULL would key the Python dictionaries by `None`, which is a key distinct from `""`; that case is not modelled.
- The `print` of the load error in `load_inventory_data` (core/allocation.py:32) is console output and is dropped; the snapshot is still emptied.
- Concurrency: the source is single-threaded. Running `allocate` twice on the same inputs gives the same result, because each method is proved equal to a function of its inputs and the snapshot.
