# Street-network matrix handler (asgard) — Dafny model

This project models the decision layer of asgard's request handler
(`asgard/handler.cpp`), which turns a street-network routing-matrix request
(origins, destinations, a mode name, a speed and a time budget) into a
single response row of (status, duration) entries. The routing engine
(Valhalla) is not modelled: the handler receives it as an `Engine` value
holding a projection function (places to network locations), a matrix
function (projected sources and targets to ordered results), the engine's
"max cost" sentinel and its three time-to-distance divisors. The handler is a
pure function `MatrixHandler.Handle` from (handler state, request, engine)
to (new handler state, response or failure).

Modules, following the components of the handler:

- `Wrappers` — `Option` and `Result`, for the partial lookups and the throwing calls.
- `ModeRegistry` — the mode table (`"walking"`, `"bike"`, `"car"`), the slot index of
  a mode, its costing kind, and the distance threshold.
- `CostingConfig` — the default twelve-slot options template, the per-request
  options carrying the converted speed, and the one-slot-per-mode cost-model table.
- `ResultClassifier` — classification of each engine result and the counters.
- `MatrixHandler` — request types, the handler state, ordered extraction and lookup of
  places, and `Handle` itself.

The cost model that the engine's costing factory returns is identified with
the request made to the factory (`CostModel(costing, options)`); what the
factory does with it is the engine's concern.

## Model

| member | source | states |
|---|---|---|
| ModeRegistry.ModeOf | asgard/handler.cpp:35-39 | the mode table is defined exactly on "walking", "bike" and "car", and the mode it returns has the name that was looked up |
| ModeRegistry.NameRoundTrip | asgard/handler.cpp:35-39 | looking up a mode's own name gives back that mode, so the table maps the three names to three different modes |
| ModeRegistry.ModeIndex | asgard/handler.cpp:41-43 | the slot lookup succeeds exactly on the three names, always yields a slot below the mode count, and that slot is the index of the mode with that name |
| ModeRegistry.ModeIndexInjective | asgard/handler.cpp:41-43 | two valid mode names share a slot if and only if they are the same name |
| ModeRegistry.ModeIndexCoversSlots | asgard/handler.cpp:88-90 | every slot of the table is the slot of one of the three names |
| ModeRegistry.ToCosting | asgard/handler.cpp:65-75 | the costing lookup succeeds exactly on the three names and fails on every other string |
| ModeRegistry.ToCostingAgreesWithMode | asgard/handler.cpp:65-75 | the costing chosen by name is the costing of the mode chosen by name (pedestrian, bicycle, auto), and the three modes have three different costings |
| ModeRegistry.DistanceThreshold | asgard/handler.cpp:54-63 | the threshold is the duration times the pedestrian divisor for "walking", the bicycle divisor for "bike", and the auto divisor for every other string, valid mode or not |
| ModeRegistry.DistanceThresholdFallback | asgard/handler.cpp:60-62 | any name that is not a mode, valid or not, gets the same threshold as "car" |
| ModeRegistry.DistanceThresholdPerMode | asgard/handler.cpp:54-63 | with distinct divisors and a non-zero budget the three modes get three different thresholds |
| CostingConfig.DefaultOptions | asgard/handler.cpp:26-33 | the default template has one slot per costing kind (twelve), none of which has a walking speed set |
| CostingConfig.MakeCostingOption | asgard/handler.cpp:45-52 | the options are the template with the pedestrian and bicycle walking speeds both set to speed × 3.6; every other slot, auto included, equals the template's |
| CostingConfig.MakeCostingOptionIgnoresMode | asgard/handler.cpp:45-52 | the options do not depend on the mode argument |
| CostingConfig.InitialModeCosting | asgard/handler.cpp:88-90 | the initial table has one slot per mode, holding that mode's costing built from the default template |
| CostingConfig.ReplaceSlot | asgard/handler.cpp:116 | replacing a mode's slot stores the new cost model there and leaves the slot of every other mode as it was |
| CostingConfig.ReplaceSlotIdempotent | asgard/handler.cpp:116 | storing the same cost model twice in a slot is the same as storing it once |
| ResultClassifier.ClassifyRow | asgard/handler.cpp:148-160 | the row `Handle` returns: one entry per result, in order, carrying the raw time; by `Classify`, unknown iff the time is the sentinel, unreached iff not the sentinel and strictly over the budget, reached otherwise |
| ResultClassifier.Count | asgard/handler.cpp:143-159 | the number of entries with a status is at most the row length, and is zero exactly when no entry has that status |
| ResultClassifier.BuildRow | asgard/handler.cpp:142-160 | the single pass over the results builds exactly the `ClassifyRow` row, and its two counters equal the numbers of unknown and unreached entries |
| ResultClassifier.CountsPartition | asgard/handler.cpp:148-160 | every entry gets exactly one of the three statuses, so the three counts sum to the row length |
| ResultClassifier.CountAppend | asgard/handler.cpp:148-160 | counting entries of a row split in two adds the counts of the parts, which is why incrementing a counter per appended entry keeps it equal to the count |
| ResultClassifier.ClassifyMonotone | asgard/handler.cpp:151-159 | a larger time budget never turns a reached pair into an unreached one and never changes whether a pair is unknown |
| ResultClassifier.SentinelIsUnknown | asgard/handler.cpp:150-153 | a sentinel result is unknown even within the budget, and its entry keeps the sentinel as duration |
| MatrixHandler.NewHandler | asgard/handler.cpp:77-91 | a new handler has a valid table whose every mode slot holds that mode's costing built from the default template |
| MatrixHandler.Places | asgard/handler.cpp:103-114 | the extracted place list has the length of the request's list and element i is the place of location i |
| MatrixHandler.LookupAll | asgard/handler.cpp:126-131 | the lookup succeeds exactly when every place was projected, giving at position i the projected location of place i; otherwise it fails naming the first place that was not projected |
| MatrixHandler.LookupBoth | asgard/handler.cpp:126-131 | sources are looked up before targets: success exactly when every place of both lists was projected, and otherwise failure on the first missing place of the sources followed by the targets |
| MatrixHandler.Handle | asgard/handler.cpp:93-170 | the table stays one slot per mode; a request kind that is not `Supported` (neither the routing matrix nor direct path) leaves the state unchanged with an empty response; an unknown mode fails before any slot changes; a successful response has exactly one row of origins × destinations entries |
| MatrixHandler.SlotReplaced | asgard/handler.cpp:116-117 | with a valid mode, the mode's slot afterwards holds its costing built from the fresh options, even if the request later fails, and every other slot is unchanged |
| MatrixHandler.MissingPlaceFails | asgard/handler.cpp:119-131 | the projection is asked for origins then destinations with the just-installed cost model; the request fails on a missing place exactly when some requested place was not projected, and names the first one |
| MatrixHandler.HandleBuildsMatrix | asgard/handler.cpp:133-160 | with every place projected, the engine is asked for the matrix of the projected origins and destinations in request order, with the updated table, the travel mode and the threshold; the request succeeds exactly when it returns origins × destinations results, and entry i is result i classified with its raw time |
| MatrixHandler.HandleIdempotent | asgard/handler.cpp:93-170 | handling a request a second time, from the state the first left, gives the same state and outcome |
| MatrixHandler.ExampleReachedAndUnknown | asgard/handler.cpp:148-160 | two origins and one destination by car with a 600 s budget and results 500 and the sentinel give (reached, 500) and (unknown, sentinel) |

## Left out

- The routing engine: graph reader, projector (snapping), `CostMatrix::SourceToTarget`,
  costing factory and cost models are foreign code; they are the `Engine` parameter and the
  `CostModel` record of the factory's arguments.
- Protobuf plumbing (`PathLocation::toPBF`, repeated fields, request/response classes): plain
  sequences and records instead.
- Logging (`LOG_INFO`, `LOG_WARN`): no effect on the response.
- HandleIdempotent: holds because the `Engine` is a pure function of its query. The handler also
  keeps state between requests outside its cost-model table (the projector's cache built at line 82,
  the reused `matrix` object at line 79, the graph cache cleared at line 166); the model assumes
  none of these changes the engine's answers.
- Graph cache housekeeping (`OverCommitted` / `Clear`, line 166): does not affect the response.
- Floating point: speeds and thresholds are `real`, so the `float` rounding of `speed * 3.6` and of
  the divisor products is not modelled; the divisor values belong to the engine and are a parameter.
- The `uint32_t` cast of `max_duration`: line 139 passes the raw `max_duration` (as a float) to
  `get_distance`, while line 154 compares against `uint32_t(max_duration)`. The model takes the
  budget as one non-negative integer feeding both, so it cannot express a negative budget, for
  which the threshold and the cast comparison value would differ.
- The twelve-slot template and factory registration (lines 26-33, 84-86) beyond "twelve default
  slots" and "one table slot per mode"; the positions of the auto, bicycle and pedestrian slots
  (0, 2, 7) and of the drive, pedestrian and bicycle modes (0, 1, 2) follow the engine's
  enumerations, which are not part of this model; the proofs use only that they are distinct and
  in range. The declared size of the cost-model array (in `handler.h`) is not part of this model:
  the table has exactly one slot per mode.
- The `assert` at line 147 is modelled as a `ResultCountMismatch` failure; a build with
  assertions disabled would instead build the row from whatever the engine returned.
- Line 116 can throw from either `mode_index` or `to_costing`, depending on evaluation order;
  both reject the same names, so the model has one `UnknownMode` failure.
