# Brython profiler statistics and call-graph treemap, in Dafny

This project models the pure-Python side of the Brython profiler
(`www/src/Lib/profile.py`). It covers two parts.

**The `Stats` store.** One profiling snapshot holds:
- four function-keyed maps: self time, cumulated time, call count and non-recursive call count;
- the caller adjacency, which records for each function the edge profile under every call chain (a "stack hash") that called it;
- the set of top-level call locations;
- the cached sort order.

The model covers merging snapshots (`_add_stat`) and the queries over a snapshot:
- `method_profile`, `method_profile_by_callchain`;
- `sub_calls`, `sub_calls_profile`;
- `profiled_methods`;
- `sort` and `_sorted_keys`;
- the `ncalls` column of the text report.

**The `CallGrind` treemap.** A tree of method elements, one per call chain,
each given a slice of its parent's box in proportion to its share of the
parent's cumulated time. The view zooms into a child or out to the parent.
The tree is an arena: a sequence of nodes that refer to their parent and
children by index.

Modules:

| file | module | content |
|---|---|---|
| `wrappers.dfy` | `Wrappers` | `Option`, `Result` |
| `call_chain.dfy` | `CallChain` | stack hashes: top-level chains, root and child chains |
| `profile_data.dfy` | `ProfileData` | profiles, their merge and sum; the record views `_relativize` and `_update_with_data` work on |
| `sorting.dfy` | `Sorting` | ordering by name and by value |
| `stats.dfy` | `StatsStore` | class `Stats`: the store, `_add_stat` and the queries |
| `report.dfy` | `Report` | the `ncalls` cell of the report |
| `treemap.dfy` | `Treemap` | the layout step, tree construction, class `CallGrind` |
| `findings.dfy` | `Findings` | the code as written, where it departs from its intent |

Where the code as written cannot do what it evidently means, the model
implements the intent, and a comment at that point says so:
- `_add_stat` binds `sc` only for functions new to the store. The model merges every edge into its own function's map (see Findings).
- `_add_stat` passes `stat.callers.values()` to the top-level update, and `__init__` passes `callers.items()`, which yields pairs, not dicts. The model takes the top-level chains of the caller maps in both places.
- `sub_calls(None)` reads `_top_level_callers`. The attribute that exists is `_top_level_call_locations`, and the model uses it.
- `sub_calls_profile` passes `restrict_to_calls_from=` to `method_profile`, whose parameter is `restrict_to_callchain`. The model restricts to the chain.
- `method_profile(None)` sums the keys of the function maps. The model sums the values.
- `method_profile(name, chain)` copies only the two times of the edge, because the keys differ. The model copies all four fields (see Findings).
- `load_data` calls a nonexistent `caller_data(None)`. The model uses `method_profile(None)`.
- The `rect` setter is declared as `set_rect`, so assigning `rect` fails. The model assigns the rectangle.
- `add_child` stores the child's extent as the free rectangle's extent. The model keeps the rest of the box free (see Findings).
- `zoom_out` reads `.parent`, while the field is `_parent`, and never moves the zoomed element. The model moves to the parent.

## Model

| member | source | states |
|---|---|---|
| CallChain.IsTopLevelIffColonSuffix | www/src/Lib/profile.py:113-115 | a chain is top level exactly when it is some text followed by `:` |
| CallChain.RootChain | www/src/Lib/profile.py:422-423 | the root element's stack hash is `:` followed by its name |
| CallChain.ChildChain | www/src/Lib/profile.py:426 | a child's stack hash starts with its parent's, followed by `->` and its name |
| CallChain.ChildChainNotTopLevel | www/src/Lib/profile.py:422-426 | a child's stack hash is not a top-level location when its name does not end in `:` |
| ProfileData.Relativize | www/src/Lib/profile.py:97-105 | each metric divided by its baseline: `Inf` exactly when the baseline is zero, otherwise a ratio that times the baseline gives the metric; same keys as the data |
| ProfileData.UpdateWithData | www/src/Lib/profile.py:107-111 | only keys already present are updated, each increased by its update; the others keep their value and no key is added |
| ProfileData.ProfileRecord | www/src/Lib/profile.py:297-311 | the dict `method_profile` returns has exactly the keys total, cumulated, counts, counts_nonrec |
| ProfileData.EdgeRecord | www/src/Lib/profile.py:149 | a stored edge has exactly the keys cumulated, total, count, count_norec |
| ProfileData.MergeResult | www/src/Lib/profile.py:201-210 | a merged key is in either input; its profile is the sum of both, a missing side counting as zero |
| ProfileData.MergeIdentity | www/src/Lib/profile.py:201-210 | merging an empty snapshot changes nothing |
| ProfileData.MergeOrderIndependent | www/src/Lib/profile.py:190-198 | adding two snapshots in either order gives the same profiles |
| ProfileData.MergeAssociative | www/src/Lib/profile.py:190-198 | adding snapshots one by one or pre-merged gives the same profiles |
| ProfileData.MergeKeepsCountsOrdered | www/src/Lib/profile.py:209-210 | if no function has more non-recursive calls than calls in either input, none has after the merge |
| ProfileData.MergeCallersResult | www/src/Lib/profile.py:211-217 | a merged function has a caller entry exactly when either input has one, and its edges are the chain-by-chain sums, a missing edge counting as zero |
| ProfileData.MergeCallersOrderIndependent | www/src/Lib/profile.py:211-217 | merging caller adjacencies in either order gives the same adjacency |
| ProfileData.MergeCallersAssociative | www/src/Lib/profile.py:211-217 | merging caller adjacencies is associative |
| ProfileData.MergeKeepsCover | www/src/Lib/profile.py:200-217 | if every profiled function has a caller entry in both inputs, it has one after the merge |
| ProfileData.TopLevelChainsOfMerge | www/src/Lib/profile.py:220-226 | the top-level chains of a merged adjacency are those of the two inputs together |
| ProfileData.SumProfilesRemove | www/src/Lib/profile.py:297-303 | the sum over all functions is one function's profile plus the sum over the rest, whichever is taken |
| ProfileData.TwoFunctionSum | www/src/Lib/profile.py:297-303 | the sum over a map of two profiles is their field-by-field sum |
| StatsStore.PerCall | www/src/Lib/profile.py:360-361 | per-function time per call: same keys as the counts, each quotient times its count gives the time |
| StatsStore.Stats.constructor | www/src/Lib/profile.py:124-176 | the maps are installed as given, the order is 'standard name', not reversed and uncached, and the top-level set is exactly the top-level chains of the callers |
| StatsStore.Stats.UpdateTopLevelCallLocations | www/src/Lib/profile.py:222-226 | the top-level set grows by exactly the top-level chains of the given caller maps |
| StatsStore.Stats.ProfiledMethods | www/src/Lib/profile.py:246-250 | exactly the functions that have a profile |
| StatsStore.Stats.MethodProfileByCallchain | www/src/Lib/profile.py:228-243 | fails exactly for a function without a caller entry; otherwise the edge of every chain that called it |
| StatsStore.Stats.MethodProfile | www/src/Lib/profile.py:284-322 | without a chain, the function's stored profile, failing exactly for an unknown function; with a chain, the edge under that chain or zeros, failing exactly when the function has no caller entry |
| StatsStore.Stats.SubCalls | www/src/Lib/profile.py:253-282 | only profiled functions are returned |
| StatsStore.Stats.SubCallsMeaning | www/src/Lib/profile.py:278-282 | under a chain, every function returned has that chain's edge as its profile restricted to the chain, and every other profiled function's restricted profile is all zeros |
| StatsStore.Stats.SubCallsTopLevel | www/src/Lib/profile.py:271-277 | without a chain, exactly the profiled functions called from some top-level location |
| StatsStore.Stats.SubCallsProfile | www/src/Lib/profile.py:324-333 | keyed by exactly the callees of the chain, each with its edge under that chain |
| StatsStore.Stats.TopLevelProfile | www/src/Lib/profile.py:297-303 | module-level code: cumulated time is the duration, self time is the duration minus all functions' self times, counts are the sums of all counts |
| StatsStore.Stats.NumericSortValues | www/src/Lib/profile.py:356-365 | the value of each profiled function for the five numeric keys; fails exactly on an unknown key or on a zero count divided by |
| StatsStore.Stats.SortedKeys | www/src/Lib/profile.py:353-366 | every profiled function exactly once: by name ascending for 'standard name', otherwise by value, largest first unless reversed; the error cases as for the values |
| StatsStore.Stats.Sort | www/src/Lib/profile.py:337-351 | records the key; succeeds exactly when the key can be sorted by, and then caches the order `_sorted_keys` promises |
| StatsStore.Stats.SortDefault | www/src/Lib/profile.py:337 | the default key 'standard name' always succeeds and caches the names in order |
| StatsStore.Stats.NCallsColumn | www/src/Lib/profile.py:377-382 | sorts by name when no order is cached; one cell per function of the order; fails exactly on zero runs with some function |
| StatsStore.NCallsCells | www/src/Lib/profile.py:379-382 | one `ncalls` cell per given function, in order; fails exactly on zero runs with some function |
| StatsStore.TwoFunctionTopLevel | www/src/Lib/profile.py:297-303 | a store with self times 200 and 300 ms, 2 and 1 calls, over a 1000 ms run: module-level code has self time 500 ms, cumulated time 1000 ms and 3 calls |
| StatsStore.Stats.AddStat | www/src/Lib/profile.py:200-220 | profiles and edges become the sums of both stores; the top-level set grows by the other store's top-level chains; a cached order is recomputed by name; a top-level set that matched the callers still does, and caller entries for all profiled functions survive |
| StatsStore.Stats.MergeStat | www/src/Lib/profile.py:200-217 | the two merge loops and the top-level update, with the same new state as `AddStat` apart from the order |
| StatsStore.MergeProfileMaps | www/src/Lib/profile.py:201-210 | the four maps after the first loop are those of the merged profiles |
| StatsStore.AddProfile | www/src/Lib/profile.py:202-210 | one function's four values are added to the old ones, zero when absent; nothing else changes |
| StatsStore.MergeCallerMaps | www/src/Lib/profile.py:211-217 | the adjacency after the second loop is the merged adjacency |
| StatsStore.MergeEdges | www/src/Lib/profile.py:214-217 | one function's edges are added to its old ones, zero when absent |
| StatsStore.AssembleSet | www/src/Lib/profile.py:201-206 | setting one function's four values sets its profile and no other |
| Sorting.SortNames | www/src/Lib/profile.py:354-355 | the names, each exactly once, in ascending order |
| Sorting.SortByValue | www/src/Lib/profile.py:366 | the keys, each exactly once, ordered by value, descending or ascending |
| Sorting.EnumeratesLength | www/src/Lib/profile.py:355 | a sorted listing of a set has as many entries as the set |
| Sorting.LexTotal | www/src/Lib/profile.py:355 | any two names are comparable |
| Sorting.LexTransitive | www/src/Lib/profile.py:355 | name order is transitive |
| Sorting.LexAntisymmetric | www/src/Lib/profile.py:355 | two names each not after the other are equal |
| Report.NCallsCell | www/src/Lib/profile.py:380-382 | fails exactly on zero runs; the calls times the runs give the count; the `/nonrec` part appears exactly when count exceeds the non-recursive count, and times the runs gives it |
| Report.NonrecSuffixBelowCalls | www/src/Lib/profile.py:381-382 | when the `/nonrec` part is shown, it is below the call average |
| Report.SampleRow | www/src/Lib/profile.py:380-382 | 101 calls, 1 non-recursive, over one run read 101/1 |
| Treemap.Place | www/src/Lib/profile.py:435-448 | the child takes the top-left corner and the full short side, its area equals its share; the free rectangle loses the child's strip; fails with InfiniteShare exactly on an infinite share, and with ZeroExtent exactly on a finite share and a zero side |
| Treemap.PlaceSplitsFree | www/src/Lib/profile.py:435-448 | child and new free rectangle sit side by side, their areas add up to the old free area and the free rectangle keeps its far edges |
| Treemap.Share | www/src/Lib/profile.py:434 | infinite exactly when the parent's cumulated time is zero; otherwise times the parent's cumulated time it gives the child's |
| Treemap.ShareIsRelativized | www/src/Lib/profile.py:434 | the share is `_relativize` of the two profile records at 'cumulated' |
| Treemap.Callees | www/src/Lib/profile.py:428 | the callees of a chain are exactly the profiled functions with an edge under it |
| Treemap.SubCallsProfileIsCallees | www/src/Lib/profile.py:428 | `sub_calls_profile` of a store gives exactly `Callees` with their edges |
| Treemap.PendingShrinks | www/src/Lib/profile.py:426-429 | descending to a callee strictly shrinks the recorded chains left, so the tree is finite |
| Treemap.AddChild | www/src/Lib/profile.py:431-448 | the child is registered under its name, after the earlier children when the name is new, with the next slice of the free rectangle; the free rectangle shrinks; fails exactly when the placement fails; nothing else changes |
| Treemap.BuildNode | www/src/Lib/profile.py:415-429 | the element is appended with its name, chain, profile, parent and (root only) full box; every new element has exactly the callees of its chain as children, each linked back, with its edge as profile and an area equal to its share; every new element's children, in the order added, tile its box; with non-zero times a failure can only be a zero side |
| Treemap.AddCallee | www/src/Lib/profile.py:428-429 | after one callee's subtree is built and placed, the element has that callee as one more consistent child, its children still tile its box, and the elements built so far stay consistent; with non-zero times a failure can only be a zero side |
| Treemap.AddedKeepsGrowing | www/src/Lib/profile.py:428-429 | placing a built callee under the element keeps the loop's facts about the arena, with the callee added |
| Treemap.FreeAfterCoversBox | www/src/Lib/profile.py:435-448 | children placed one after the other and the free rectangle left cover exactly the area of the full box |
| Treemap.TiledCoversBox | www/src/Lib/profile.py:421-448 | in a tiled element, the children's areas plus the free rectangle's area equal the full box's area |
| Treemap.TiledPlacesInOrder | www/src/Lib/profile.py:435-448 | in a tiled element, the n-th child added has exactly the slice cut from the free rectangle the earlier children left |
| Treemap.FreeAfterFrame | www/src/Lib/profile.py:431-448 | the layout of an element's children depends only on its profile and those children |
| Treemap.BuiltTreeWellLinked | www/src/Lib/profile.py:415-429 | a built tree's parent and child links agree |
| Treemap.ZoomInTarget | www/src/Lib/profile.py:471-476 | the child of that name, whose parent is the current element, or the current element when there is none |
| Treemap.ZoomOutTarget | www/src/Lib/profile.py:465-469 | the parent, which lists the current element under its name, or the current element at the root |
| Treemap.ZoomInThenOut | www/src/Lib/profile.py:465-476 | zooming into a child and back out returns to the start |
| Treemap.ZoomOutThenIn | www/src/Lib/profile.py:465-476 | zooming out of a non-root element and back in by its name returns to it |
| Treemap.CallGrind.constructor | www/src/Lib/profile.py:452-455 | no elements, no root, no zoomed element |
| Treemap.CallGrind.LoadData | www/src/Lib/profile.py:460-463 | the root "Top" with chain `:Top`, the full box and the module-level profile; the view zooms to it and every element matches the store and has its children tiling its box; on a layout failure the view is unchanged, and with a non-zero duration and non-zero edge times the failure can only be a zero side |
| Treemap.CallGrind.ZoomIn | www/src/Lib/profile.py:471-476 | the zoomed element becomes the zoom-in target; the view stays well formed |
| Treemap.CallGrind.ZoomOut | www/src/Lib/profile.py:465-469 | the zoomed element becomes the zoom-out target; the view stays well formed |
| Findings.ChainProfileAsWritten | www/src/Lib/profile.py:313-322 | as written, the chain profile has the four record keys |
| Findings.ChainProfileDropsCounts | www/src/Lib/profile.py:313-322 | as written, the chain profile copies both times and leaves both counts at zero for every edge |
| Findings.ChainProfileCounterexample | www/src/Lib/profile.py:313-322 | an edge of 3 calls reads as 0 calls |
| Findings.PlaceAsWritten | www/src/Lib/profile.py:448 | as written, the child is placed as intended but the free rectangle takes the child's extent |
| Findings.PlaceAsWrittenLosesArea | www/src/Lib/profile.py:448 | half the full box leaves a free strip 100 × 0.005 instead of 100 × 99.995; the areas no longer add up |
| Findings.MergeCallersAsWritten | www/src/Lib/profile.py:211-217 | as written, the edge merge keeps every known function |
| Findings.NoEdgesNoFailure | www/src/Lib/profile.py:211-214 | as written, a known function without edges never reads `sc`, so it does not fail |
| Findings.StaleScUnbound | www/src/Lib/profile.py:211-214 | as written, merging edges of an already known function first fails on the unbound `sc`; the intended merge succeeds |
| Findings.StaleScMisfiles | www/src/Lib/profile.py:211-214 | as written, after a new function `h`, the edges of a known `g` are filed under `h` |
| Findings.StaleScCorrected | www/src/Lib/profile.py:211-217 | on the same input the intended merge files them under `g` |

## Left out

- The `Profile` class, `run`, `runctx`, and the profiling engine: the data comes from JavaScript and is not modelled.
- The JavaScript-object branch of `Stats.__init__` and the JSON branch, `__json__` and `from_json`. The constructor takes already-typed maps instead.
- `Stats.add`: it reads browser local storage and parses JSON. Its loop over `_add_stat` is `AddStat` repeated, and `MergeOrderIndependent` and `MergeAssociative` say that repetition does not depend on order.
- The DOM elements, styles and `<=` insertions of the treemap: only the layout numbers and the links are modelled.
- The text of `__str__`: the number formatting, the summary line and the time columns are left out. Only the `ncalls` cell is modelled, as exact rationals.
- Floating point: times are exact reals, so rounding in sums and quotients is not modelled.
- The order in which Python iterates dicts and sets: the model iterates in an unspecified order. The store's results do not depend on it. The treemap's do: each child is cut from what the earlier children left, in the order of `list(set(...))` in `sub_calls`. The model leaves that order open. It records the order it used and proves the tiling for it, not which order Python would take.
- Treemap.BuildNode: does not state when a zero side stops the layout. It states only that, with non-zero times, a zero side is the only possible failure.
- Treemap.AddCallee: the same as for `BuildNode`.
- Treemap.CallGrind.LoadData: the same as for `BuildNode`, with the duration as the root's time.
- StatsStore.Stats.SubCalls: requires `CallersCover` (every profiled function has a caller entry), since `sub_calls` raises KeyError otherwise. This error case is not modelled.
- StatsStore.Stats.SortedKeys: ties among equal values may come in any order; the source's stable sort keeps the dict's order.
- StatsStore.Stats.AddStat: the re-sort is done after the top-level update, not before it. Neither reads what the other writes.
- StatsStore.Stats.NCallsColumn: requires that a cached order list the profiled functions, as every `sort` leaves it. A stale cache after a later change would raise KeyError in the source.
- ProfileData.UpdateWithData: returns the updated dict instead of changing it in place; aliasing is not modelled.
- Treemap.Place: a zero side raises ZeroDivisionError in the source, and an infinite share propagates `inf` into the rectangle. The model returns an error in both cases and builds nothing.
- Treemap.CallGrind.ZoomIn: requires loaded data; before `load_data` the source fails on `None`.
- Treemap.CallGrind.ZoomOut: requires loaded data, as for `ZoomIn`.
- Treemap.AddChild: a child's area equals its share, a fraction, inside a 100 × 100 box. This follows the code, which divides the share and not the share times the box area.
- The root element is named "Top" and its chain is `:Top`, as in the code. Its callees are the functions with an edge under `:Top`, not the top-level locations of `sub_calls(None)`.

## Findings

| source | as written | input that shows it | evidently intended | confidence | as-written member | corrected member |
|---|---|---|---|---|---|---|
| www/src/Lib/profile.py:313-322 | the edge is copied into a dict keyed `counts`/`counts_nonrec`, but edges are keyed `count`/`count_norec`, so both counts stay 0 | an edge of 3 calls, 1 non-recursive, reads as 0 calls | all four fields of the edge are copied | high, not executed | Findings.ChainProfileCounterexample | StatsStore.Stats.MethodProfile |
| www/src/Lib/profile.py:448 | the free rectangle keeps the moved corner but takes the child's width and height | a share of 0.5 in the full box leaves a 100 × 0.005 free strip instead of 100 × 99.995 | the free rectangle is what remains of the old one | high, not executed | Findings.PlaceAsWrittenLosesArea | Treemap.PlaceSplitsFree |
| www/src/Lib/profile.py:211-214 | `sc` is bound only for functions new to the store, so a known function's edges go to a stale map or hit an unbound name | a known `g` first fails; a new `h` then a known `g` puts `g`'s edge under `h` | each function's edges are merged into its own map | high, not executed | Findings.StaleScMisfiles | Findings.StaleScCorrected |
