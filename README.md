# Laptop comparison and PC build checker — Dafny model

This project models the core of a laptop-comparison and PC-builder web app:

- **Build evaluation engine** (`Logic`). It computes a build's total price and total TDP (thermal design power) as folds over its eight optional part slots. It then runs the compatibility check:
  - the socket rule (CPU vs. motherboard);
  - the power-headroom rule (PSU wattage vs. estimated draw plus 100 W).
  Issues are collected in that order, and the build is compatible exactly when there are none.
- **Catalog entities** (`Types`). A part has one of eight categories and an optional TDP, socket and wattage. A build has an id, a name and one optional slot per category; the Case slot is called `cases`. The laptop record holds the fields the list filters on.
- **PC builder screen** (`PCBuilder`). Two builds, A and B, plus a selector that picks the active one. `addPart` derives a slot key from the part's category and overwrites that slot. `removePart` clears it. The deploy button is enabled only for a compatible build whose total price is non-zero.
- **Laptop list screen** (`LaptopSection`). This covers:
  - the filter predicate: case-insensitive search, membership lists where empty means unrestricted, an inclusive price cap, and display-size and weight buckets;
  - the filter toggles;
  - the comparison selection (at most four laptops, ids unique);
  - the de-duplicated staging list of trimmed links.
- **Helpers.** `Seqs` and `Text` model the JavaScript built-ins the components call (`filter`, `includes`, `toLowerCase`, `trim`). `CatalogScenarios` checks the engine against parts from the seed catalog.

Compatibility issues are structured values. `SocketMismatch(cpuSocket, motherboardSocket)` and `PowerShortfall(wattage, estimatedTdp)` carry the values the user-facing messages quote; the message text itself is not modelled.

The two component screens keep their state in classes (`PCBuilder.Builder`, `LaptopSection.Browser`) whose methods update fields in place. Each method is specified by a pure function over the old state, and the lemmas are proved about those functions.

The power rule is skipped when the PSU has no wattage and also when its wattage is `0`, because the code tests the wattage for truthiness (services/logic.ts:45).

## Model

| member | source | states |
|---|---|---|
| Types.PartTypesEnumerated | types.ts:41 | a part's category is one of exactly eight distinct values, each with a distinct name |
| Types.WithSlot | types.ts:48-59 | replacing one slot of a build sets that slot and leaves the id, the name and the other seven slots as they were |
| Types.SlotsDetermineBuild | types.ts:48-59 | a build is its id, its name and its eight optional slots, nothing more |
| Types.EmptyBuild | components/PCBuilderSection.tsx:13-14 | a new build carries the given id and name and every slot is empty |
| Logic.PriceOf | services/logic.ts:22 | an empty slot contributes 0, an occupied slot the price of its part |
| Logic.TdpOf | services/logic.ts:30 | an empty slot or a part without a TDP contributes 0, otherwise the part's TDP |
| Logic.TotalPrice | services/logic.ts:18-23 | the `reduce` left fold of prices over the eight slots equals the recursive sum of the slot prices |
| Logic.TotalTdp | services/logic.ts:26-31 | the `reduce` left fold of TDPs over the eight slots equals the recursive sum of the slot TDPs |
| Logic.ReduceIsSum | services/logic.ts:18-31 | the `reduce` left fold from an initial total equals that total plus the sum over the slots |
| Logic.TotalPriceIsSlotSum | services/logic.ts:18-23 | the total price is the sum of the prices of the occupied slots among the eight, an empty slot adding 0 |
| Logic.TotalTdpIsSlotSum | services/logic.ts:26-31 | the total TDP sums all eight slots, PSU and case included; an empty slot or a part without TDP adds 0 |
| Logic.WithSlotTotals | services/logic.ts:18-31 | replacing one slot changes each total by the new occupant's value minus the old occupant's |
| Logic.EmptySlotsTotalZero | services/logic.ts:18-31 | a build with every slot empty has total price 0 and total TDP 0 |
| Logic.PricedBuildIsOccupied | services/logic.ts:18-23 | a non-zero total price implies some slot holds a part |
| Logic.TotalsNonNegative | services/logic.ts:18-31 | non-negative prices and TDPs give non-negative totals |
| Logic.SocketCheck | services/logic.ts:37-41 | at most one issue, always a socket mismatch, raised exactly when CPU and board are both present and their optional sockets differ |
| Logic.PowerCheck | services/logic.ts:43-48 | at most one issue, raised exactly when a PSU is present with a present, non-zero wattage strictly below total TDP + 100; it quotes that wattage and the total TDP |
| Logic.Compatibility | services/logic.ts:34-54 | `compatible` holds exactly when the issue list is empty, and the list never holds more than two issues |
| Logic.CheckCompatibility | services/logic.ts:34-54 | pushing the socket issue and then the power issue onto an empty list yields exactly the specified report |
| Logic.SocketRule | services/logic.ts:37-41 | exactly one socket issue, quoting both sockets, iff CPU and board are both present and their optional sockets differ (two absent sockets are equal, one absent is a mismatch); otherwise none |
| Logic.PowerRule | services/logic.ts:43-48 | exactly one power issue, quoting wattage and estimated TDP, iff a PSU is present with a present, non-zero wattage strictly below the total TDP plus 100; otherwise none |
| Logic.IssuesAreSocketThenPower | services/logic.ts:35-49 | the issue list is the socket rule's issues followed by the power rule's, and nothing else |
| Logic.IssueOrder | services/logic.ts:35-49 | when both rules fire there are two issues: the socket issue at index 0 and the power issue at index 1 |
| Logic.HeadroomBoundaryPasses | services/logic.ts:45 | a wattage of exactly total TDP + 100 raises no power issue |
| Logic.HeadroomBoundaryFails | services/logic.ts:45 | a (non-zero) wattage of total TDP + 99 raises exactly one power issue and the build is incompatible |
| Logic.NoRatedPsuSkipsPowerRule | services/logic.ts:43-45 | no PSU, a PSU without wattage, or a wattage of 0 never raises a power issue, whatever the draw |
| Logic.EmptyBuildCompatible | services/logic.ts:34-54 | an empty build is compatible with no issues |
| Logic.NoBoardNoPsuCompatible | services/logic.ts:37-43 | a build without motherboard and PSU, such as a lone CPU, is compatible with no issues |
| Logic.SocketRuleReadsOnlyCpuAndBoard | services/logic.ts:37-41 | changing any slot other than CPU and motherboard never changes the socket issues |
| PCBuilder.SlotKey | components/PCBuilderSection.tsx:22 | the key is the category name lower-cased character by character, followed by one `s` exactly for `Case`, with no capital letter left |
| PCBuilder.SlotKeyNamesItsSlot | components/PCBuilderSection.tsx:22 | the lower-cased category name, plus `s` for Case, is the name of the build property that holds that very category |
| PCBuilder.SlotKeyBijection | components/PCBuilderSection.tsx:22 | key derivation maps the eight categories one-to-one onto the eight slot properties of a build |
| PCBuilder.AddPartTo | components/PCBuilderSection.tsx:21-24 | adding a part puts it in the slot of its category; id, name and the other seven slots are unchanged |
| PCBuilder.RemovePartFrom | components/PCBuilderSection.tsx:26-31 | removing a category empties only that slot; id, name and the other slots are unchanged |
| PCBuilder.AddPartIdempotent | components/PCBuilderSection.tsx:23 | adding the same part twice gives the same build as adding it once |
| PCBuilder.AddPartOverwrites | components/PCBuilderSection.tsx:23 | a second part of the same category replaces the first |
| PCBuilder.RemoveFromEmptySlot | components/PCBuilderSection.tsx:26-31 | removing from an empty slot leaves the build unchanged |
| PCBuilder.RemoveUndoesAdd | components/PCBuilderSection.tsx:21-31 | removing a part just added to an empty slot restores the original build |
| PCBuilder.AddPartPrice | components/PCBuilderSection.tsx:21-24 | adding a part changes the total price by its price minus that of the part it replaces |
| PCBuilder.RemovePartPrice | components/PCBuilderSection.tsx:26-31 | removing a part lowers the total price by exactly its price |
| PCBuilder.CanDeploy | components/PCBuilderSection.tsx:247 | when the deploy button is enabled, the build has no issues and holds at least one part |
| PCBuilder.PricedCompatibleBuildDeploys | components/PCBuilderSection.tsx:247 | a compatible build with non-negative prices holding a part of positive price enables deploy |
| PCBuilder.NewBuildState | components/PCBuilderSection.tsx:13-14 | a new build costs 0, draws 0, is compatible with no issues, and cannot be deployed |
| PCBuilder.Builder.constructor | components/PCBuilderSection.tsx:13-15 | builds A and B start empty with their ids and names, A is active, deploy is disabled |
| PCBuilder.Builder.ActiveBuild | components/PCBuilderSection.tsx:18 | the edited build is build A when A is selected and build B when B is |
| PCBuilder.Builder.InactiveBuild | components/PCBuilderSection.tsx:18 | the edited build and the other build are together exactly builds A and B |
| PCBuilder.Builder.DeployEnabled | components/PCBuilderSection.tsx:247 | the deploy button is enabled iff the edited build is compatible and its total price is non-zero, and then it holds some part |
| PCBuilder.Builder.SelectBuild | components/PCBuilderSection.tsx:15-19 | selecting a build changes only which build is active |
| PCBuilder.Builder.AddPart | components/PCBuilderSection.tsx:21-24 | the active build gets the part added; the inactive build and the selector are unchanged |
| PCBuilder.Builder.RemovePart | components/PCBuilderSection.tsx:26-31 | the active build has the slot cleared; the inactive build and the selector are unchanged |
| LaptopSection.WithTextList | components/LaptopSection.tsx:71-80 | replacing one string filter list leaves the other lists and the price cap unchanged |
| LaptopSection.WithNumberList | components/LaptopSection.tsx:71-80 | replacing one number filter list leaves the other lists and the price cap unchanged |
| LaptopSection.SearchMatches | components/LaptopSection.tsx:44-45 | the empty query matches every laptop, and a matched query is no longer than the name or the brand |
| LaptopSection.DisplayTagAdmits | components/LaptopSection.tsx:51-56 | the tags small (< 14), medium (14 to 15.6 inclusive) and large (> 15.6) each admit exactly the sizes of their bucket, so they partition the sizes; an unknown tag admits every size |
| LaptopSection.WeightTagAdmits | components/LaptopSection.tsx:60-65 | the tags ultralight (< 1.4), balanced (1.4 to 1.9 inclusive) and heavy (> 1.9) each admit exactly the weights of their bucket; an unknown tag admits every weight |
| LaptopSection.Matches | components/LaptopSection.tsx:43-67 | a matching laptop satisfies the search and the inclusive price cap, and when a display or weight list is set, its bucket is in that list or the list holds an unknown tag |
| LaptopSection.FilteredLaptops | components/LaptopSection.tsx:42-69 | the listed laptops are an order-preserving subsequence of the catalog holding every copy of each matching laptop and none of the others |
| LaptopSection.SearchIgnoresCase | components/LaptopSection.tsx:44-45 | search is insensitive to the query's case, and the empty query matches every laptop |
| LaptopSection.OnlyPriceCapByDefault | components/LaptopSection.tsx:46-58 | with all lists empty and no query, a laptop is listed iff its price is at most the cap (inclusive) |
| LaptopSection.EmptyingTextListWidens | components/LaptopSection.tsx:46-65 | emptying any one string list (brands, display, CPU brand, weight) never hides a laptop that was listed |
| LaptopSection.EmptyingNumberListWidens | components/LaptopSection.tsx:46-49 | emptying the RAM or storage list never hides a laptop that was listed |
| LaptopSection.Toggle | components/LaptopSection.tsx:71-80 | toggling a present value removes every copy of it and keeps every copy of each other element; toggling an absent value appends it |
| LaptopSection.ToggleTwiceRestores | components/LaptopSection.tsx:71-80 | toggling an absent value twice restores the original list |
| LaptopSection.ToggleKeepsNoDup | components/LaptopSection.tsx:71-80 | toggling never introduces a duplicate into a filter list |
| LaptopSection.Deselect | components/LaptopSection.tsx:315 | deselecting an id removes every laptop with that id and keeps every copy of the others in their original order; ids stay unique |
| LaptopSection.ToggleSelected | components/LaptopSection.tsx:82-88 | a selected id is deselected, the others keeping their order; otherwise the laptop is appended only while fewer than 4 are selected; size stays at most 4 and ids stay unique |
| LaptopSection.Stage | components/LaptopSection.tsx:90-96 | the trimmed input is appended only when it is non-empty and not already staged; otherwise the list is unchanged |
| LaptopSection.StageKeepsWellStaged | components/LaptopSection.tsx:90-96 | the staging list stays free of duplicates, empty links and untrimmed links |
| LaptopSection.UnstageKeepsWellStaged | components/LaptopSection.tsx:98-100 | removing a staged link keeps the staging list well formed |
| LaptopSection.Browser.constructor | components/LaptopSection.tsx:17-35 | the screen starts with the catalog, no selection, the default filters, an empty query and nothing staged; it lists exactly the catalog laptops priced at most 600000 |
| LaptopSection.Browser.Listed | components/LaptopSection.tsx:42-69 | the laptops on screen are an order-preserving subsequence of the catalog and are exactly those matching the current query and filters |
| LaptopSection.Browser.SetSearchQuery | components/LaptopSection.tsx:162 | the search box sets the query and keeps the invariants |
| LaptopSection.Browser.SetPriceRange | components/LaptopSection.tsx:174 | the slider sets only the price cap |
| LaptopSection.Browser.ResetFilters | components/LaptopSection.tsx:150 | reset restores the default filters |
| LaptopSection.Browser.ToggleTextFilter | components/LaptopSection.tsx:71-80 | toggles one string list, leaves the rest of the filters as they were, and keeps every list duplicate-free |
| LaptopSection.Browser.ToggleNumberFilter | components/LaptopSection.tsx:71-80 | toggles one number list, leaves the rest of the filters as they were, and keeps every list duplicate-free |
| LaptopSection.Browser.ToggleSelection | components/LaptopSection.tsx:82-88 | the selection becomes its toggled value; at most 4 laptops with unique ids |
| LaptopSection.Browser.RemoveFromTray | components/LaptopSection.tsx:315 | the tray's remove button deselects by id and keeps the invariants |
| LaptopSection.Browser.SetUrlInput | components/LaptopSection.tsx:229 | the link box sets only the input |
| LaptopSection.Browser.AddLinkToStage | components/LaptopSection.tsx:90-96 | stages the trimmed input and clears the box exactly when the input is accepted; otherwise changes nothing |
| LaptopSection.Browser.RemoveStagedLink | components/LaptopSection.tsx:98-100 | the staging list loses exactly the element at the index and stays well formed |
| Seqs.RemoveAt | components/LaptopSection.tsx:99 | removing index i keeps the elements before i and shifts those after it down by one; an out-of-range index changes nothing |
| Seqs.Filter | components/LaptopSection.tsx:43 | filtering keeps exactly the elements satisfying the predicate and never lengthens the list |
| Seqs.FilterCounts | components/LaptopSection.tsx:43 | filtering keeps every copy of a kept element and no copy of a dropped one |
| Seqs.FilterIsSubsequence | components/LaptopSection.tsx:43 | a filtered list is an order-preserving subsequence of the original |
| Text.Lower | components/LaptopSection.tsx:44-45 | lower-casing keeps the length and leaves no ASCII capital |
| Text.IncludesAtOffset | components/LaptopSection.tsx:44-45 | `includes` holds iff the needle occurs at some offset of the haystack |
| Text.Trim | components/LaptopSection.tsx:91 | the result is the slice of the input left after removing its leading and trailing whitespace and line terminators; neither end of it is trimmable |
| Text.TrimIdempotent | components/LaptopSection.tsx:91 | trimming a trimmed string changes nothing |
| CatalogScenarios.AddingCpuBoardPsu | components/PCBuilderSection.tsx:21-24 | adding the catalog CPU, a board and the 650 W PSU to new build A fills exactly those three slots |
| CatalogScenarios.MatchingAm5BuildTotals | constants.ts:240-290 | the AM5 CPU, AM5 board and 650 W PSU total 64800 in price and 120 W |
| CatalogScenarios.MatchingAm5BuildCompatible | constants.ts:240-290 | that build is compatible with no issues and can be deployed |
| CatalogScenarios.MismatchedBoard | constants.ts:240-290 | with the LGA1700 board instead, there is exactly one issue, quoting AM5 and LGA1700 |
| CatalogScenarios.GpuOverloadsPsu | constants.ts:240-290 | adding the 450 W GPU gives an estimated 570 W; the 650 W PSU then raises exactly one power issue |

## Left out

- `calculatePPI` (services/logic.ts:8-15) and everything derived from it. It is a floating-point weighted score divided by price. The laptop benchmark scores, documented as lying in 0..100 (types.ts:18-20), are read by `calculatePPI` and by the comparison chart (components/ComparisonModal.tsx:52-54). Both are left out, so the benchmarks, screen, GPU and image fields of a laptop are not part of this model.
- Numbers are modelled as unbounded integers: prices, TDP, wattage, RAM, storage and the price cap. Display size and weight are exact reals. JavaScript doubles, `NaN` (which is falsy, like 0) and rounding are not modelled.
- Text.Lower: maps only the ASCII letters A–Z. The Unicode case mappings of `toLowerCase` are not modelled.
- JavaScript strings are sequences of UTF-16 code units. Here a character is a Unicode scalar value, so lone surrogates, and astral characters counting as two code units, are not modelled. `Text.Trim` removes ECMAScript whitespace and line terminators, as `trim` does.
- PCBuilder.RemovePartFrom: takes one of the eight categories. The source's `removePart(type: string)` is only ever called with a category name. A string whose lower-cased key is `id` or `name` would delete that property in JavaScript; that case is not modelled.
- `toggleFilter` is modelled separately for the string lists and the number lists. Toggling `priceRange`, which is not a list, would throw in JavaScript; no caller does it, and it is not modelled.
- `processBatch` (components/LaptopSection.tsx:102-124) is not modelled. It performs an asynchronous network extraction, shows status messages and uses timers. Because of this, the model does not cover the prepending of imported laptops or the replacement of the selection by the first four imports. That replacement does not itself de-duplicate ids.
- The remote advisory and extraction services, the chatbot, the comparison modals, the internal diagram and all rendering and theming are not part of this model.
- The exact wording of issue messages and locale-formatted prices are not modelled. Issues are structured values that carry the quoted values.
- React state batching, re-rendering and memoisation (`useMemo`) are not modelled. Each setter is modelled as an immediate field update on the component's class.
