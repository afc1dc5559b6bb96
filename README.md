# MIST scheduler core components in Dafny

This project models the small sequential components of the MIST stream-processing
engine's task side and master side, and proves what each one promises:

- **Group allocation table** (`DefaultGroupAllocationTable`): the ordered list of
  event processors and the map from each processor to the groups it services.
  Processors and groups are opaque ids.
- **Metric tick handlers.** `EventNumAndWeightMetricEventHandler` sums the queued
  events of every group's operator chains. It feeds each sum to the group's
  numEvents EWMA metric, sets the group's weight to the resulting EWMA value and
  publishes the totals. `NumGroupsMetricEventHandler` publishes the number of groups.
- **Round-robin query allocation** (`RoundRobinQueryAllocationManager`): a counter
  and an append-only task list. Each allocation returns `taskList[counter % n]`.
- **Operators.** `ReduceByKeyOperator` updates a keyed state map in place with a
  "first value or combine" rule. `MapOperator` maps data values and passes
  watermarks through to its output emitter.
- **Source serialisation table** (`SourceSerializeInfo`): the constant map from
  source configuration keys to Avro types.

One Dafny module per Java file: `GroupAllocationTable`, `EventNumAndWeightMetric`,
`NumGroupsMetric`, `RoundRobinAllocation`, `ReduceByKey`, `MapOperator`,
`SourceSerializeInfo`. Two shared modules support them. `GlobalSched` holds
execution vertices and DAGs, group information, the group map and the global
metric holders. `Wrappers` holds `Option`, which stands for a Java reference
that may be null.

Modelling choices:
- Objects whose fields the Java code updates are Dafny classes. Their methods
  state the whole new state in terms of the old one. This covers the allocation
  table, the group information, the metric holders, the allocation manager, the
  reduce-by-key state map, the map operator's data event and its output emitter.
- An EWMA metric is recorded as the list of samples it has received.
  `getEwmaValue` is a function of that list (`ewmaOf`), supplied to the handler.
  The smoothing arithmetic of `EWMAMetric` is not part of this model.
- Whether a processor runs an isolated group is a function supplied to the filter.
- The processors the factory creates are passed to the table's constructor.
- Most source configuration key strings are declared in classes that are not part
  of this model. The table is therefore written against a naming of the nine
  parameters that is required to be injective, because Guava's immutable-map
  builder refuses duplicate keys. The class the table takes the two text-socket
  keys from, `TextSocketSourceParameters` of the same package, is not part of this
  model either. Their strings are assumed to be "SocketHostAddress" and
  "SocketHostPort", as declared by the class of that name in the sources package
  and by `TextSocketSinkParameters`. `TextSocketRows` holds under that assumption
  (`TextSocketNames`).
- `AbstractQueryAllocationManager` is not part of this model. Its `addTaskInfo`, whose
  result the round-robin manager returns, is a function supplied to each call.
- The Java `List.remove(Object)` used by `remove` drops only the first occurrence.
  The model follows this (`RemoveFirst`). A processor that was put twice and
  then removed therefore stays listed once but has no map entry.

## Model

| member | source | states |
|---|---|---|
| `GroupAllocationTable.DefaultGroupAllocationTable.constructor` | mist-core/src/main/java/edu/snu/mist/core/task/groupaware/eventprocessor/DefaultGroupAllocationTable.java:38-51 | after construction the key list is exactly the created processors, in creation order, each mapped to an empty group collection |
| `GroupAllocationTable.DefaultGroupAllocationTable.GetKeys` | mist-core/src/main/java/edu/snu/mist/core/task/groupaware/eventprocessor/DefaultGroupAllocationTable.java:53-72 | the key list's length is always `size()` |
| `GroupAllocationTable.DefaultGroupAllocationTable.GetValue` | mist-core/src/main/java/edu/snu/mist/core/task/groupaware/eventprocessor/DefaultGroupAllocationTable.java:58-61 | returns the collection mapped to the processor; None (null) exactly when it is unregistered |
| `GroupAllocationTable.DefaultGroupAllocationTable.Size` | mist-core/src/main/java/edu/snu/mist/core/task/groupaware/eventprocessor/DefaultGroupAllocationTable.java:69-72 | the size is the length of the key list (see `GetKeys`); in a table whose processors were each put once, it is also the number of mapped processors |
| `GroupAllocationTable.DistinctListedCount` | mist-core/src/main/java/edu/snu/mist/core/task/groupaware/eventprocessor/DefaultGroupAllocationTable.java:63-72 | when the map's keys are exactly the processors of a duplicate-free list, the map has as many entries as the list |
| `GroupAllocationTable.DistinctSetSize` | mist-core/src/main/java/edu/snu/mist/core/task/groupaware/eventprocessor/DefaultGroupAllocationTable.java:69-72 | a duplicate-free list of processors has as many elements as the set of processors it holds |
| `GroupAllocationTable.DefaultGroupAllocationTable.Put` | mist-core/src/main/java/edu/snu/mist/core/task/groupaware/eventprocessor/DefaultGroupAllocationTable.java:63-67 | maps the key to an empty collection, even when it was registered, and appends it to the list; size grows by one; the two invariants are kept, the stricter one only for an unregistered key |
| `GroupAllocationTable.DefaultGroupAllocationTable.GetEventProcessorsNotRunningIsolatedGroup` | mist-core/src/main/java/edu/snu/mist/core/task/groupaware/eventprocessor/DefaultGroupAllocationTable.java:74-87 | with the default processor count it returns a list equal to the key list; otherwise the non-isolated processors in list order |
| `GroupAllocationTable.DefaultGroupAllocationTable.Remove` | mist-core/src/main/java/edu/snu/mist/core/task/groupaware/eventprocessor/DefaultGroupAllocationTable.java:89-93 | returns the key's old collection (None if unmapped); drops its first listing and its entry; every other processor's value is unchanged; the invariants are kept |
| `GroupAllocationTable.RemoveFirstAbsent` | mist-core/src/main/java/edu/snu/mist/core/task/groupaware/eventprocessor/DefaultGroupAllocationTable.java:91 | removing an unlisted processor leaves the list unchanged |
| `GroupAllocationTable.RemoveFirstMultiset` | mist-core/src/main/java/edu/snu/mist/core/task/groupaware/eventprocessor/DefaultGroupAllocationTable.java:91 | removal takes exactly one copy of the processor out of the list |
| `GroupAllocationTable.FirstIndex` | mist-core/src/main/java/edu/snu/mist/core/task/groupaware/eventprocessor/DefaultGroupAllocationTable.java:91 | the index found holds the processor and no earlier index does |
| `GroupAllocationTable.RemoveFirstCuts` | mist-core/src/main/java/edu/snu/mist/core/task/groupaware/eventprocessor/DefaultGroupAllocationTable.java:91 | removal cuts out the first occurrence and keeps all other processors in order |
| `GroupAllocationTable.RemoveFirstDistinct` | mist-core/src/main/java/edu/snu/mist/core/task/groupaware/eventprocessor/DefaultGroupAllocationTable.java:89-93 | on a duplicate-free list, removal leaves no duplicates and takes the processor out entirely |
| `GroupAllocationTable.RemoveAfterRePut` | mist-core/src/main/java/edu/snu/mist/core/task/groupaware/eventprocessor/DefaultGroupAllocationTable.java:63-93 | a processor put a second time is still listed after one remove |
| `GroupAllocationTable.NotIsolatedSpec` | mist-core/src/main/java/edu/snu/mist/core/task/groupaware/eventprocessor/DefaultGroupAllocationTable.java:80-86 | the filter keeps exactly the processors whose isolation flag is false; it never lengthens the list; it keeps the whole list when no flag is set |
| `GroupAllocationTable.NotIsolatedAppend` | mist-core/src/main/java/edu/snu/mist/core/task/groupaware/eventprocessor/DefaultGroupAllocationTable.java:80-86 | the filter distributes over concatenation, so list order is preserved |
| `GlobalSched.OnlyChainsCount` | src/main/java/edu/snu/mist/core/task/globalsched/metrics/EventNumAndWeightMetricEventHandler.java:68-71 | a vertex collection's count equals the count of its operator chains alone |
| `GlobalSched.ChainsAreChains` | src/main/java/edu/snu/mist/core/task/globalsched/metrics/EventNumAndWeightMetricEventHandler.java:69 | only operator-chain vertices of the collection are counted |
| `GlobalSched.NonChainAddsNothing` | src/main/java/edu/snu/mist/core/task/globalsched/metrics/EventNumAndWeightMetricEventHandler.java:69-71 | a source or sink vertex contributes 0 |
| `GlobalSched.SumVertexEventsAppend` | src/main/java/edu/snu/mist/core/task/globalsched/metrics/EventNumAndWeightMetricEventHandler.java:66-73 | the count of a union of vertex collections is the sum of their counts |
| `GlobalSched.SumWeightsOf` | src/main/java/edu/snu/mist/core/task/globalsched/metrics/EventNumAndWeightMetricEventHandler.java:81 | the accumulated weight equals the sum of the groups' weights |
| `EventNumAndWeightMetric.CountGroupEvents` | src/main/java/edu/snu/mist/core/task/globalsched/metrics/EventNumAndWeightMetricEventHandler.java:65-73 | the nested loops compute the sum of queued events over the operator chains of all the group's DAGs |
| `EventNumAndWeightMetric.EventNumAndWeightMetricEventHandler.constructor` | src/main/java/edu/snu/mist/core/task/globalsched/metrics/EventNumAndWeightMetricEventHandler.java:50-56 | the handler keeps the group map and the global metric holder |
| `EventNumAndWeightMetric.EventNumAndWeightMetricEventHandler.UpdateGroup` | src/main/java/edu/snu/mist/core/task/globalsched/metrics/EventNumAndWeightMetricEventHandler.java:65-81 | the group's metric gets exactly one sample, its count; its weight is the EWMA value read after that sample |
| `EventNumAndWeightMetric.EventNumAndWeightMetricEventHandler.UpdateGroups` | src/main/java/edu/snu/mist/core/task/globalsched/metrics/EventNumAndWeightMetricEventHandler.java:60-82 | every group is updated once; the totals are the sum of the counts and the sum of the new weights |
| `EventNumAndWeightMetric.EventNumAndWeightMetricEventHandler.OnNext` | src/main/java/edu/snu/mist/core/task/globalsched/metrics/EventNumAndWeightMetricEventHandler.java:59-85 | each group gets one sample (its count) and weight = its EWMA; the global metric gets one sample (the total count); global weight = sum of group weights (0 and 0.0 with no groups); only groups and the global holder are written |
| `NumGroupsMetric.NumGroupsMetricEventHandler.constructor` | src/main/java/edu/snu/mist/core/task/globalsched/metrics/NumGroupsMetricEventHandler.java:41-49 | right after construction the numGroups metric equals the group map's size |
| `NumGroupsMetric.NumGroupsMetricEventHandler.OnNext` | src/main/java/edu/snu/mist/core/task/globalsched/metrics/NumGroupsMetricEventHandler.java:51-55 | every tick sets numGroups to the map's current size whatever the event; the map is unchanged, so a repeated tick is idempotent |
| `RoundRobinAllocation.Pick` | mist-core/src/main/java/edu/snu/mist/core/master/allocation/RoundRobinQueryAllocationManager.java:58 | the picked address is one of the registered tasks |
| `RoundRobinAllocation.PicksWalk` | mist-core/src/main/java/edu/snu/mist/core/master/allocation/RoundRobinQueryAllocationManager.java:58 | up to n consecutive picks walk the list from `counter % n`, wrapping once |
| `RoundRobinAllocation.NConsecutivePicksAreFair` | mist-core/src/main/java/edu/snu/mist/core/master/allocation/RoundRobinQueryAllocationManager.java:58 | any n consecutive picks over n tasks are a rotation of the list, so each task is returned exactly once |
| `RoundRobinAllocation.PicksSplit` | mist-core/src/main/java/edu/snu/mist/core/master/allocation/RoundRobinQueryAllocationManager.java:58 | a + b consecutive picks are the first a picks followed by the b picks after them |
| `RoundRobinAllocation.WholeRoundsAreFair` | mist-core/src/main/java/edu/snu/mist/core/master/allocation/RoundRobinQueryAllocationManager.java:58 | k * n consecutive picks over n tasks return each task exactly k times (k times as often as it is listed) |
| `RoundRobinAllocation.ModShift` | mist-core/src/main/java/edu/snu/mist/core/master/allocation/RoundRobinQueryAllocationManager.java:58 | advancing the counter by k < n advances the picked index by k modulo n |
| `RoundRobinAllocation.RoundRobinQueryAllocationManager.constructor` | mist-core/src/main/java/edu/snu/mist/core/master/allocation/RoundRobinQueryAllocationManager.java:48-54 | starts with an empty task list, counter 0 and the configured port |
| `RoundRobinAllocation.RoundRobinQueryAllocationManager.GetAllocatedTask` | mist-core/src/main/java/edu/snu/mist/core/master/allocation/RoundRobinQueryAllocationManager.java:56-60 | returns the task at `counter % size` with the configured port, independent of appId; the counter grows by exactly one; an empty list is excluded (division by zero) |
| `RoundRobinAllocation.RoundRobinQueryAllocationManager.AddTaskInfo` | mist-core/src/main/java/edu/snu/mist/core/master/allocation/RoundRobinQueryAllocationManager.java:62-67 | appends the address to the end of the list and returns what the base class's `addTaskInfo` returned for the same arguments |
| `RoundRobinAllocation.AllocateInTurn` | mist-core/src/main/java/edu/snu/mist/core/master/allocation/RoundRobinQueryAllocationManager.java:48-67 | the first call returns the first task added; later calls follow the list in turn, whatever the app ids and the base class's results |
| `ReduceByKey.ReduceByKeyOperator.constructor` | src/main/java/edu/snu/mist/task/operators/ReduceByKeyOperator.java:57-67 | keeps the reduce function and the key index |
| `ReduceByKey.ReduceByKeyOperator.GetInitialState` | src/main/java/edu/snu/mist/task/operators/ReduceByKeyOperator.java:69-72 | the initial state is a fresh, empty map |
| `ReduceByKey.ReduceByKeyOperator.UpdateState` | src/main/java/edu/snu/mist/task/operators/ReduceByKeyOperator.java:83-94 | key = field keyIndex, value = field 1 - keyIndex; an absent key gets the value, a present one gets `reduceFunc(old, value)`; every other key is unchanged; the same map object is mutated and returned |
| `ReduceByKey.ReduceByKeyOperator.GenerateOutput` | src/main/java/edu/snu/mist/task/operators/ReduceByKeyOperator.java:101-104 | the output is the state itself |
| `ReduceByKey.StepAllPerKey` | src/main/java/edu/snu/mist/task/operators/ReduceByKeyOperator.java:84-94 | after any input sequence, a key's entry is the left fold of reduceFunc over that key's values in arrival order; the fold starts from the existing entry, or from the first value when there was none |
| `ReduceByKey.StepAllKeys` | src/main/java/edu/snu/mist/task/operators/ReduceByKeyOperator.java:84-94 | after any input sequence, the keys are the old keys plus the inputs' keys, and nothing else |
| `ReduceByKey.ReduceAll` | src/main/java/edu/snu/mist/task/operators/ReduceByKeyOperator.java:69-94 | feeding inputs one by one from the initial state yields the fold of the update rule over them |
| `MapOperator.MapOperator.constructor` | src/main/java/edu/snu/mist/task/operators/MapOperator.java:44-51 | keeps the map function; the output emitter, a base-class field in Java that is set outside the constructor, is given here |
| `MapOperator.MapOperator.ProcessLeftData` | src/main/java/edu/snu/mist/task/operators/MapOperator.java:57-62 | overwrites the event's value with `mapFunc(value)` and keeps its timestamp; appends exactly one data event, that event, to the emitter log |
| `MapOperator.MapOperator.ProcessLeftWatermark` | src/main/java/edu/snu/mist/task/operators/MapOperator.java:65-67 | appends exactly the incoming watermark, unchanged, to the log |
| `MapOperator.MapOperator.GetOperatorType` | src/main/java/edu/snu/mist/task/operators/MapOperator.java:69-72 | the operator reports the MAP operator type, not any other type |
| `MapOperator.OutputsPointwise` | src/main/java/edu/snu/mist/task/operators/MapOperator.java:57-67 | the output stream matches the input event by event; data stays data with value mapped and timestamp kept; a watermark stays the same watermark |
| `MapOperator.OutputsKeepWatermarks` | src/main/java/edu/snu/mist/task/operators/MapOperator.java:64-67 | the emitted watermarks are the received ones in order, so non-decreasing watermarks stay non-decreasing |
| `MapOperator.ProcessStream` | src/main/java/edu/snu/mist/task/operators/MapOperator.java:57-67 | for a sequence of inputs the emitted log grows by the inputs mapped in the same order |
| `SourceSerializeInfo.GetAvroSerializedTypeInfo` | src/main/java/edu/snu/mist/api/parameters/SourceSerializeInfo.java:51-53 | the lookup yields None (null) exactly for keys that name no parameter of the table |
| `SourceSerializeInfo.LookupRow` | src/main/java/edu/snu/mist/api/parameters/SourceSerializeInfo.java:35-46 | each parameter's key finds that parameter's row |
| `SourceSerializeInfo.TableRows` | src/main/java/edu/snu/mist/api/parameters/SourceSerializeInfo.java:37-45 | timestamp extraction function: BYTES; socket host address: STRING; socket host port: INT; Kafka topic: STRING; Kafka consumer config, watermark predicate, timestamp-from-watermark parser: BYTES; period and expected delay: INT |
| `SourceSerializeInfo.TextSocketRows` | src/main/java/edu/snu/mist/api/parameters/SourceSerializeInfo.java:38-39 | the strings "SocketHostAddress" and "SocketHostPort" map to STRING and INT |

## Left out

- Threads and concurrency: the thread safety of the concurrent list, map and queue in the allocation table. Starting each event processor in the table's constructor is not modelled either; it only starts a thread.
- The atomicity of the round-robin `AtomicInteger`.
- `RoundRobinAllocation.RoundRobinQueryAllocationManager.GetAllocatedTask`: the counter is an unbounded `nat`. The Java `int` wraps to a negative value after 2^31 calls, which would make the index negative. That wrap-around is not modelled.
- `EventNumAndWeightMetric.EventNumAndWeightMetricEventHandler.OnNext`: event counts are unbounded naturals and weights are reals. Java `long` overflow and `double` rounding are not modelled.
- The EWMA smoothing of `EWMAMetric` is not part of this model. The handler's contract holds for any `getEwmaValue` that depends only on the samples received.
- `GlobalSchedGroupInfoMap` is not part of this model. Only its `values()`, in iteration order, and its size are represented.
- Subscribing the handlers to the event bus: this is wiring.
- `GroupAllocationTable.DefaultGroupAllocationTable.GetKeys`: Java returns the table's own live list, so a caller that keeps it sees later `put` and `remove` calls. The model returns a value equal to the list at the moment of the call.
- `GroupAllocationTable.DefaultGroupAllocationTable.GetEventProcessorsNotRunningIsolatedGroup`: on the default-count branch Java returns the table's own live list, and on the other branch a new list that later calls leave alone. The model returns, on both branches, a value equal to the result at the moment of the call, so that difference after a later mutation is not captured.
- `GroupAllocationTable.DefaultGroupAllocationTable.constructor`: the default processor count is a `nat`. A negative Java `int` would build an empty table, and the filter would then throw when it sizes its `ArrayList`. That case is not modelled.
- `RoundRobinAllocation.RoundRobinQueryAllocationManager.GetAllocatedTask`: on an empty task list Java increments the counter and then throws (division by zero). The precondition excludes that call, so the counter's advance before the exception is not modelled.
- `EventNumAndWeightMetric.EventNumAndWeightMetricEventHandler.OnNext`: the group infos in the map's values are required to be distinct objects. If the same object appeared twice, Java would update it twice, and the model does not cover that.
- `GroupAllocationTable.DefaultGroupAllocationTable.GetValue`: it returns the collection as a value. The live, shared collection that the balancer mutates in place is not modelled. No method in the table mutates it.
- `toString` of the allocation table: string formatting of a double load.
- `ReduceByKey.ReduceByKeyOperator.UpdateState`: null tuple fields and null map entries are not modelled. A key index other than 0 or 1 is excluded by the constructor's precondition. `Tuple2` is not part of this model; its `get` is presumed to fail for such an index.
- The logging call in `processLeftData`.
- The query and operator identifiers that `MapOperator`'s constructor passes to its base class: they are ids only.
- The `StreamType.OperatorType` enum is not part of this model. `OperatorType` lists MAP, which `MapOperator` reports, and REDUCE_BY_KEY, APPLY_STATEFUL and UNION, the other values the stream API's tests name.
- The operator-state wrapper (`OperatorState`) around the initial map: the map itself is returned.
- Everything else in the repository: the source generator's fetch thread, the query manager, the master and its RPC, the query-builder API, configuration parameters and interfaces. These are I/O, threads or wiring.
