# RabbitMQ exporter: memory and aliveness collectors

This project models two collectors of a Prometheus exporter for RabbitMQ.
Each collector turns what the broker's management API reports into labelled
gauges.

- The **memory collector** keeps a package-level table with 22 gauges. Each
  gauge is keyed by a dotted stat key such as `memory.atom`. On each scrape
  it resets every gauge and reads the cluster and local node names from the
  scrape context. It then fetches the node list and one memory snapshot per
  node. Every table key present in a node's snapshot is written under the
  labels `(cluster, node, self)`. `self` is `"1"` for the scraped node and
  `"0"` for the others.
- The **aliveness collector** runs the aliveness probe and stores its
  `status`, `error` and `reason` strings. It resets the info metric
  `rabbitmq_aliveness_info` and writes one series
  `(status, error, reason)` to it. The value is 1 when the status is `"ok"`
  and 0 otherwise. It also writes each table key found in the reply under
  the label `(status)`. The table gauges are not reset.
- Both constructors delete the operator's excluded keys from the
  **package-level** table itself. The collector holds that same table, not a
  copy.

Files:

- `exclusion.dfy` holds the exclusion filter `ExcludeAll` and its laws.
- `gauges.dfy` holds the shared gauge machinery:
  - `GaugeVec`: one metric family. Its label tuples map to values, and it is
    updated in place.
  - `GaugeTable`: a dotted key mapped to its gauge. Both package-level tables
    are objects of this class.
  - The spec functions `Cleared` and `Write`. `Write` is the stat-to-gauge
    step that both collectors share.
- `memory.dfy` holds the memory table constants, the collector class and the
  spec function `MemoryCycle`, with lemmas about what one scrape leaves in
  the table.
- `aliveness.dfy` holds the aliveness table, the info metric, the collector
  class and the spec function `AlivenessCycle`, with lemmas about it.

Modelling choices:

- **Package-level tables** are `GaugeTable` objects, passed to the
  constructors and the initialisers. The collector's `const` field points to
  the object it was given, so the aliasing in the constructors is visible in
  their contracts. The info metric is a `GaugeVec` passed to the aliveness
  `Collect`.
- **Go map iteration order** is random. Each loop over a table picks its next
  key with `:|`, so the proofs hold for every order.
- **Network inputs** become parameters of the collectors:
  - the node list is a `Result<seq<Node>>`;
  - the per-node snapshot is a function from endpoint path to
    `Result<Snapshot>`, asked for `"nodes/" + name + "/memory"`;
  - the aliveness request is a `Result<Response>`;
  - reply parsing is a function from `Response` to `Result<Reply>`.
- **A reply** has string fields and numeric fields. A missing string field
  reads as `""`.
- **The scrape context** has two optional strings. A missing value, or one
  that is not a string, reads as `""`.
- **Sending to the channel** is modelled as the returned set of samples. For
  the aliveness collector, `hasChannel` stands for a non-nil channel.
- **Gauge values** are `real`. The code only copies them, apart from the 0/1
  flag.

A reader might expect each collector to work on its own copy of its table,
to clear every gauge on each scrape, and to leave nothing partial after a
failed scrape. The code does otherwise, and the model follows the code:

- The exclusion filter deletes from the shared, package-level table, not
  from a per-collector copy.
- A failed per-node fetch sends nothing, but the gauges keep the series
  written for the nodes before it.
- The aliveness table gauges are never reset, so a series under an earlier
  status stays.

## Model

| member | source | states |
|---|---|---|
| `Exclusion.ExcludeAll` | exporter_memory.go:138-144 | after filtering, a key is in the table exactly when it was there before and is not in the exclusion list; every kept key still maps to its original gauge |
| `Exclusion.ExcludeAbsentIsNoop` | exporter_memory.go:139-143 | excluding a key the table does not hold changes nothing |
| `Exclusion.ExcludeIdempotent` | exporter_memory.go:139-143 | listing the keys twice, or filtering a second time, gives the same table as filtering once |
| `Exclusion.ExcludeOrderIndependent` | exporter_memory.go:139-143 | only the set of excluded keys matters, not their order or repetition |
| `Exclusion.ExcludeCompose` | exporter_memory.go:136-147 | filtering an already filtered table equals filtering the original by both lists |
| `Gauges.Write` | exporter_memory.go:178-182 | every table key present in the snapshot gets the snapshot's value at the label tuple; keys absent from the snapshot are untouched; no other series changes or appears; the keys stay the same |
| `Gauges.GaugeVec.constructor` | metrics.go:9-18 | a new gauge has the given name, help text and label schema, and no series |
| `Gauges.GaugeVec.Reset` | exporter_memory.go:153 | resetting a gauge leaves it with no series |
| `Gauges.GaugeVec.Set` | exporter_memory.go:180 | setting a series needs one value per label; only that series changes |
| `Gauges.GaugeTable.Exclude` | exporter_memory.go:138-144 | the in-place deletion loop leaves the table equal to `ExcludeAll` of the old table and the list; distinct keys still have distinct gauges, and every label schema keeps its length |
| `Gauges.GaugeTable.ResetAll` | exporter_memory.go:152-154 | after the loop every gauge of the table is empty; the keys are unchanged |
| `Gauges.GaugeTable.WriteSnapshot` | exporter_memory.go:178-182 | the write loop, in any key order, leaves the table's content equal to `Write` of the old content |
| `Gauges.GaugeTable.Emit` | exporter_memory.go:185-187 | the samples sent are exactly the series of every gauge of the table |
| `Gauges.GaugeVec.Samples` | exporter_memory.go:186 | collecting a gauge sends exactly one sample per series, under the gauge's published name, with that series' label values and value, and nothing else |
| `Gauges.NewGaugeTable` | metrics.go:9-18 | builds one fresh, empty and distinct gauge per descriptor, keyed as the descriptors are |
| `Memory.MemoryTableSize` | exporter_memory.go:17-128 | the memory table has exactly 22 keys |
| `Memory.MemoryTableLabels` | exporter_memory.go:15-128 | every memory gauge has the schema `cluster`, `node`, `self` in that order, under the `rabbitmq` namespace |
| `Memory.MemoryTableLookup` | exporter_memory.go:23-52 | the exact key `memory.connection_readers_bytes` maps to `memory_connection_readers`, and `memory.atom` maps to `memory_atom_bytes` |
| `Memory.NewMemoryGaugeTable` | exporter_memory.go:14-129 | the package-level table holds one fresh, empty gauge per key of the memory table, each with its descriptor |
| `Memory.NewExporterMemory` | exporter_memory.go:135-149 | the collector holds the very table it was given, and that table has lost the excluded keys |
| `Memory.ConstructTwice` | exporter_memory.go:136-147 | a second construction starts from the table the first one reduced, so both exclusion lists hold |
| `Memory.ExporterMemory.constructor` | exporter_memory.go:146-148 | the new collector holds the table it was given, not a copy |
| `Memory.SelfFlag` | exporter_memory.go:170-173 | the `self` label is `"1"` exactly when the node's name equals the context's node name, and `"0"` otherwise |
| `Memory.SelfNode` | exporter_memory.go:155-158 | the scraped node's name is the context's node name, or `""` when the context lacks one |
| `Memory.Cluster` | exporter_memory.go:159-162 | the cluster name is the context's cluster name, or `""` when the context lacks one |
| `Memory.NodeName` | exporter_memory.go:171-180 | a node's name is its `name` label, or `""` when the label is missing, as Go reads a missing map key |
| `Memory.CollectNodes` | exporter_memory.go:169-183 | the walk over the nodes keeps the table's keys, and it fails exactly when some node's fetch fails |
| `Memory.MemoryCycle` | exporter_memory.go:151-183 | one scrape: every gauge is reset, then the nodes are walked; the keys never change; a failed node list gives that error and every gauge empty; there is no error exactly when the node list and every node's fetch succeed |
| `Memory.CollectNodesSound` | exporter_memory.go:169-183 | every series after the walk was there before unchanged, or was written from a fetched node's snapshot under that node's label tuple |
| `Memory.CollectNodesKeeps` | exporter_memory.go:178-182 | no series is ever removed by the walk; one that no node's label tuple matches keeps its value |
| `Memory.CollectNodesComplete` | exporter_memory.go:169-183 | when every fetch succeeds there is no error, and every node's series exists for each table key its snapshot holds; with distinct node names it holds that node's value |
| `Memory.CollectNodesStopsAt` | exporter_memory.go:174-177 | the first failed fetch ends the walk with that error and the table as the earlier nodes left it |
| `Memory.MemoryCycleSeries` | exporter_memory.go:151-183 | after a scrape every series was written in that scrape from a fetched node, so no stale node survives; a failed node list leaves no series; each label tuple is (cluster, node, self), with self `"1"` exactly when the node is the context's node and `"0"` otherwise |
| `Memory.MemoryCycleComplete` | exporter_memory.go:169-183 | a scrape where every node answers returns no error and holds each node's series for every table key in its snapshot; with distinct node names each holds that node's value |
| `Memory.MemoryCycleNodeFailure` | exporter_memory.go:174-177 | a failed per-node fetch returns that error, and the series written for the nodes before it remain in the gauges |
| `Memory.TwoNodeScrape` | exporter_memory.go:169-183 | nodes `n1` and `n2` scraped from `n2`: `n1`'s series carries self `"0"`, `n2`'s carries `"1"`, and nothing else is written |
| `Memory.ExporterMemory.Collect` | exporter_memory.go:151-189 | the gauges after `Collect`, and its error, are those of `MemoryCycle`: reset first, with context values defaulting to `""`; a failed node list leaves every gauge empty; on success every gauge is sent, and on failure nothing is |
| `Aliveness.AlivenessTableShape` | exporter_aliveness.go:15-19 | the aliveness table has the one key `vhost.aliveness`, named `aliveness_test` in the `rabbitmq` namespace, with schema `vhost` |
| `Aliveness.InfoMetricShape` | exporter_aliveness.go:21-27 | the info metric is published as `rabbitmq_aliveness_info`, with no namespace added, under schema `status`, `error`, `reason` |
| `Aliveness.NewAlivenessGaugeTable` | exporter_aliveness.go:17-19 | the package-level aliveness table holds one fresh, empty gauge per key |
| `Aliveness.NewAlivenessInfoMetric` | exporter_aliveness.go:21-27 | the package-level info metric starts with no series |
| `Aliveness.NewExporterAliveness` | exporter_aliveness.go:41-56 | the collector holds the very table it was given, which has lost the excluded keys; its stored strings start empty |
| `Aliveness.ExporterAliveness.constructor` | exporter_aliveness.go:52-55 | a new collector holds the table it was given and empty probe strings |
| `Aliveness.Flag` | exporter_aliveness.go:76-79 | the flag is 1 if and only if the status is `"ok"`, and 0 for every other status, `""` included |
| `Aliveness.GetString` | exporter_aliveness.go:71-73 | a present string field reads as its value; a non-empty result always comes from a present field, so a missing field reads as `""` |
| `Aliveness.Probe` | exporter_aliveness.go:59-67 | the probe fails exactly when the request or the parse fails; a request error comes first and is returned as is, and otherwise the parse's result is returned |
| `Aliveness.ReadInfo` | exporter_aliveness.go:71-73 | each of `status`, `error`, `reason` present in the reply is stored as given; a reply with none of them gives the three empty strings a new collector starts with |
| `Aliveness.AlivenessCycle` | exporter_aliveness.go:58-88 | one scrape: it fails exactly when the request or the parse fails, and then changes nothing; the table's keys never change; on success the info metric holds exactly the one series labelled by the stored strings |
| `Aliveness.ExporterAliveness.RecordInfo` | exporter_aliveness.go:71-80 | the stored strings become the reply's three fields, `""` when missing, and the info metric is left with exactly the one series (status, error, reason), valued 1 exactly when the status is `"ok"` |
| `Aliveness.AlivenessFailureChangesNothing` | exporter_aliveness.go:59-67 | a failed request or parse returns that error before the stored strings, the info metric or any gauge change |
| `Aliveness.AlivenessInfoSeries` | exporter_aliveness.go:71-80 | after a successful probe the stored strings are the reply's three fields, `""` when missing; the info metric holds exactly the one tuple (status, error, reason), valued 1 exactly when the status is `"ok"` |
| `Aliveness.AlivenessTableWrites` | exporter_aliveness.go:83-88 | each table key present in the reply holds its value at label (status); absent keys are untouched; no earlier series is dropped |
| `Aliveness.StatusChangeKeepsOldSeries` | exporter_aliveness.go:75-88 | the table gauges are not reset: a series written under one status is still present, with its value, after a scrape that reports another status |
| `Aliveness.ExporterAliveness.Collect` | exporter_aliveness.go:58-97 | the stored strings, the info metric and the gauges after `Collect`, and its error, are those of `AlivenessCycle`; with a channel the info metric and every gauge are sent; without one the state is still updated but nothing is sent |

## Left out

- `Describe` of both collectors is left out. It streams metric descriptors, and the aliveness one refers to `rabbitmqVersionMetric`, which is not part of this model.
- `RegisterExporter` and the `init` registrations are left out. The registry is not part of this model.
- The HTTP and JSON plumbing is not modelled: `getStatsInfo`, `getMetricMap`, `apiRequest`, `MakeReply`, `reply.MakeMap` and `reply.GetString`. Their results are inputs, and `GetString` reads a missing field as `""` because its error is discarded.
- The shape of a node descriptor beyond its `name` label is not modelled. The node label keys requested from the node list are not modelled either.
- The order in which samples are sent is not modelled. A channel is a set of samples, because Go map iteration order is random anyway.
- The memory collector's `Collect` always sends to its channel, whatever the channel is. A nil channel, which would block, is not modelled.
- `float64` is modelled as `real`. Values are only copied, apart from the 0/1 flag.
- Logging and concurrency are left out. The code has no locking.
- Help texts are only stored in each memory descriptor. No lemma states anything about their contents.
- `Memory.CollectNodesComplete`: states a node's exact value only when node names are distinct. In the program, a second fetch of the same path may answer differently, and the later node overwrites the earlier series. The model's fetcher is a function of the path and cannot express that, so the guard keeps the lemma true of the program. Without it, the lemma only states that the series exists.
- `Memory.MemoryCycleComplete`: states a node's exact value only when node names are distinct, for the same reason.
- `Gauges.GaugeVec.Set`: the metrics library panics when the number of label values does not match the schema. This is modelled as a precondition, which the collectors always meet.
