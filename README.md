# OTLP log attribute counter — Dafny model

This project models the sequential core of an OTLP logs ingestion service.
The service receives batches of log records. It looks up one configured
attribute key at every level of a batch: the resource, the instrumentation
scope and each log record. It keeps a running count per attribute value in a
shared counter aggregator.

- `wrappers.dfy`, module `Wrappers`: an `Option` type. It stands in for Go's
  nil pointers and for `(value, ok)` results.
- `aggregator.dfy`, module `Aggregator`: the counter aggregator, modelled as the
  class `CounterAggregator`. Its field `values: map<string, Int64>` is updated in
  place by `AddToKey` and replaced by `ResetAll`. `Snapshot` copies it with a
  loop. `SnapshotAndReset` is `Snapshot` followed by `ResetAll`. On 64-bit
  platforms Go's `int` is 64 bits wide, so additions wrap around explicitly at
  2^64 (`WrapInt64`). The
  specification functions `Added`, `Replay` and `SumFor` describe runs of adds.
  The lemmas about them give sums per key and independence between keys.
- `otlp.dfy`, module `Otlp`: the decoded OTLP request as datatypes. A nil message
  pointer is `None`. A nil element of a repeated field reads in Go like an empty
  message, so it needs no case of its own.
- `logservice.dfy`, module `LogService`:
  - `FindAttribute` is the first-match lookup.
  - The functions `RecordsMatches`, `ScopesMatches`, `ResourceMatches` and
    `BatchMatches` give the set of values a batch contributes.
  - `ExportEffect` is the effect of one `Export` on the counter map. It is
    written without reference to any enumeration order of that set.
  - The handler `LogsServiceServer.Export` walks the batch into a `found` set
    with nested loops, adds 1 per distinct value and falls back to
    `"unknown"`.
  - Its `ensures` ties the new aggregator state to
    `ExportEffect(old state, BatchMatches(batch, key))`.
  - `BatchMatchesSpec` characterises `BatchMatches` by the locations where
    the lookup succeeds.

The walk in `Export` is one method in Go. Here it is split into one method per
level: `CollectBatch`, `CollectResourceLogs` and `CollectScopeLogs`. The
counting phase is `AddFound`. The loops, the order of visits and the updates
are the Go code's.

Code and tests disagree on a batch with no match. `logs_service.go:54-56`
adds 1 to `"unknown"`. The test case at `logs_service_test.go:119-126` expects
an empty map. The model follows the code: `ExportNoMatchScenario` proves that
such a batch leaves `{"unknown": 1}`. The code also deduplicates values within
a batch: a value found at several places in one batch is counted once.
The tests also call
`SnapshotAndReset`, which `aggregator.go` does not define. The model defines it
as `Snapshot` followed by `ResetAll`, as its callers use it.

## Model

| member | source | states |
|---|---|---|
| `LogService.FindAttribute` | internal/logservice/logs_service.go:61-70 | the string value of the first entry whose key is the name and whose value is set, None otherwise (characterised by FindAttributeNone and FindAttributeFirstMatch) |
| `Aggregator.CounterAggregator.constructor` | internal/aggregator/aggregator.go:18-22 | a new aggregator holds the empty map |
| `Aggregator.CounterAggregator.AddToKey` | internal/aggregator/aggregator.go:24-28 | the key's count becomes its old count (0 if absent) plus the delta, wrapped to 64 bits; every other key is unchanged |
| `Aggregator.Added` | internal/aggregator/aggregator.go:27 | adding to a key inserts it if absent and leaves the count of every other key as it was |
| `Aggregator.CounterAggregator.Snapshot` | internal/aggregator/aggregator.go:30-38 | the returned map equals the current counts, and the aggregator is not modified |
| `Aggregator.CounterAggregator.ResetAll` | internal/aggregator/aggregator.go:40-44 | afterwards the counts are the empty map, whatever they were, so a second reset changes nothing |
| `Aggregator.CounterAggregator.SnapshotAndReset` | internal/exporter/exporter.go:52 | returns exactly the counts held before the call and leaves the map empty |
| `Aggregator.ReplayCount` | internal/aggregator/aggregator.go:24-28 | after any run of adds, a key's count is its old count plus the sum of the deltas for that key (mod 2^64) |
| `Aggregator.ReplayUntouched` | internal/aggregator/aggregator_test.go:45-59 | a key that no add mentions keeps its count and its presence |
| `Aggregator.ReplayKeys` | internal/aggregator/aggregator.go:27 | the keys after a run of adds are the old keys plus the keys added to |
| `Aggregator.WrapAddWrap` | internal/aggregator/aggregator.go:27 | a run of 64-bit additions wraps to the same value as the exact sum wrapped once |
| `Aggregator.AddSameKeyScenario` | internal/aggregator/aggregator_test.go:31-44 | adds of 1, 2 and 3 to "foo" read back as {"foo": 6} |
| `Aggregator.AddManyKeysScenario` | internal/aggregator/aggregator_test.go:45-59 | adds to three keys read back as three independent counts |
| `Aggregator.ResetScenario` | internal/aggregator/aggregator_test.go:74-93 | counts are visible before ResetAll; afterwards every key reads as 0 |
| `Aggregator.SnapshotIsolationScenario` | internal/aggregator/aggregator_test.go:115-136 | a later add shows in the next snapshot and not in the earlier one |
| `LogService.FindAttributeNone` | internal/logservice/logs_service.go:61-70 | the lookup reports ("", false) exactly when no entry has the key with a non-nil value |
| `LogService.FindAttributeFirstMatch` | internal/logservice/logs_service.go:62-67 | the lookup returns the string value of the first entry with the key and a non-nil value |
| `LogService.FindAttributeNonString` | internal/logservice/logs_service.go:65 | a first match holding a non-string value yields "" with ok = true |
| `LogService.FindAttributeIgnoresLater` | internal/logservice/logs_service.go:62-67 | once an entry matches, entries appended after it never change the result |
| `LogService.RecordsMatchesSpec` | internal/logservice/logs_service.go:42-46 | a value is collected from a scope's records exactly when the lookup yields it on some record |
| `LogService.ScopesMatchesSpec` | internal/logservice/logs_service.go:36-47 | a value is collected from a list of scopes exactly when it is collected from one of them |
| `LogService.ResourceMatchesSpec` | internal/logservice/logs_service.go:30-47 | a value is collected from a resource exactly when it is found at its attributes (if present), at a scope's attributes (if present) or at a record |
| `LogService.BatchMatchesSpec` | internal/logservice/logs_service.go:29-48 | a value is in a batch's found set exactly when the lookup yields it at some resource, scope or record location of the batch; absent resources and scopes contribute nothing |
| `LogService.BatchMatchesAppend` | internal/logservice/logs_service.go:26-48 | the found set of two concatenated batches is the union of their found sets |
| `LogService.RepeatedBatchSameEffect` | internal/logservice/logs_service.go:50-52 | repeating a batch's resource logs does not change what Export adds: each distinct value counts once |
| `LogService.ExportEffectCounts` | internal/logservice/logs_service.go:50-56 | each found value gains exactly 1; "unknown" gains 1 exactly when nothing was found; every other key is unchanged |
| `LogService.CollectBatch` | internal/logservice/logs_service.go:29-48 | the walk over the resource logs yields the batch's found set |
| `LogService.CollectResourceLogs` | internal/logservice/logs_service.go:30-47 | the walk over one resource adds its resource and scope matches to the set |
| `LogService.CollectScopeLogs` | internal/logservice/logs_service.go:37-46 | the walk over one scope adds its scope and record matches to the set |
| `LogService.AddFound` | internal/logservice/logs_service.go:50-56 | adding 1 per found value, in any enumeration order, then the "unknown" fallback, yields ExportEffect of the old counts |
| `LogService.LogsServiceServer.constructor` | internal/logservice/logs_service.go:17-22 | the server holds the given aggregator and attribute name |
| `LogService.LogsServiceServer.Export` | internal/logservice/logs_service.go:24-59 | the aggregator's counts become ExportEffect of the old counts and the batch's found set; the response is empty and the error nil for every batch |
| `LogService.ExportHierarchyScenario` | internal/logservice/logs_service_test.go:101-118 | the key at resource, scope and record level counts {"bar": 1, "baz": 1, "qux": 1} |
| `LogService.ExportNoMatchScenario` | internal/logservice/logs_service.go:54-56 | a batch without the key leaves {"unknown": 1}, not the empty map the test at logs_service_test.go:119-126 expects |

## Left out

- The mutex in `aggregator.go` and all concurrency: every operation is one atomic step. The concurrent-add test is not modelled.
- Counts on 32-bit targets: there Go's `int` is 32 bits and `AddToKey` wraps modulo 2^32, while the model wraps modulo 2^64 only.
- The `Aggregator` Go interface: the model has only its single implementation, as a class.
- `internal/exporter/exporter.go` (ticker and cancellation loop, logging, metric counter) and the periodic loop in `cmd/main.go`: timer, logging and concurrency plumbing around `SnapshotAndReset` or `Snapshot` plus `ResetAll`.
- `cmd/main.go` flag parsing, telemetry setup and signal handling; `internal/server/server.go`; `cmd/testclient/main.go`.
- Protobuf wire decoding and the gRPC transport: `Export` receives an already-decoded request. Its `context` argument is dropped because the handler never reads it.
- OTLP message fields that the handler never reads: timestamps, bodies, severities, scope names and versions, dropped-attribute counts. `AnyValue` keeps only the string variant and one variant for all other types.
