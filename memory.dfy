/** The per-node memory collector: one gauge per memory-breakdown stat of
    the broker, labelled by cluster, node and whether the node is the one
    being scraped. */
module Memory {
  import opened Exclusion
  import opened Gauges

  /** The label schema of every memory gauge, in this order. */
  const MemoryLabels: seq<string> := ["cluster", "node", "self"]

  /** The package-level table as (dotted key, metric name) pairs. A Go map
      literal has no order, so the pairs are listed in ascending KeyBefore
      order (by length, then by the characters after "memory."), not in the
      order of the source; that order serves only the proof that the 22 keys
      are distinct, behind MemoryTableSize. */
  function MemoryStats(): seq<(string, string)> {
    [
      ("memory.atom", "memory_atom_bytes"),
      ("memory.code", "memory_code_bytes"),
      ("memory.binary", "memory_binary_bytes"),
      ("memory.mnesia", "memory_mnesia_bytes"),
      ("memory.metrics", "memory_metrics_bytes"),
      ("memory.mgmt_db", "memory_mgmt_db_bytes"),
      ("memory.plugins", "memory_plugins_bytes"),
      ("memory.msg_index", "memory_msg_index_bytes"),
      ("memory.other_ets", "memory_other_ets_bytes"),
      ("memory.total.rss", "memory_total_rss_bytes"),
      ("memory.other_proc", "memory_other_proc_bytes"),
      ("memory.queue_procs", "memory_queue_procs_bytes"),
      ("memory.other_system", "memory_other_system_bytes"),
      ("memory.total.erlang", "memory_total_erlang_bytes"),
      ("memory.total.allocated", "memory_total_allocated_bytes"),
      ("memory.allocated_unused", "memory_allocated_unused_bytes"),
      ("memory.connection_other", "memory_connection_other_bytes"),
      ("memory.queue_slave_procs", "memory_queue_slave_procs_bytes"),
      ("memory.connection_writers", "memory_connection_writers_bytes"),
      ("memory.connection_channels", "memory_connection_channels_bytes"),
      ("memory.reserved_unallocated", "memory_reserved_unallocated_bytes"),
      ("memory.connection_readers_bytes", "memory_connection_readers")
    ]
  }

  /** The help text of the gauge published for each dotted key. */
  function MemoryHelp(key: string): string {
    match key
    case "memory.atom" =>
      "Memory used by atoms. Should be fairly constant"
    case "memory.code" =>
      "Memory used by code (bytecode, module metadata). This section is usually fairly constant and relatively small (unless the node is entirely blank and stores no data)."
    case "memory.binary" =>
      "Memory used by shared binary data in the runtime. Most of this memory is message bodies and metadata.)"
    case "memory.mnesia" =>
      "Internal database (Mnesia) tables keep an in-memory copy of all its data (even on disc nodes)"
    case "memory.metrics" =>
      "Node-local metrics. The more connections, channels, queues are node hosts, the more stats there are to collect and keep"
    case "memory.mgmt_db" =>
      "Management DB ETS tables + processes"
    case "memory.plugins" =>
      "Memory used by plugins (apart from the Erlang client which is counted under Connections, and the management database which is counted separately). "
    case "memory.msg_index" =>
      "Message index ETS + processes"
    case "memory.other_ets" =>
      "Other in-memory tables besides those belonging to the stats database and internal database tables"
    case "memory.total.rss" =>
      "Node-local total memory - rss"
    case "memory.other_proc" =>
      "Memory used by all other processes that RabbitMQ cannot categorise"
    case "memory.queue_procs" =>
      "Memory used by class queue masters, queue indices, queue state"
    case "memory.other_system" =>
      "Memory used by all other system that RabbitMQ cannot categorise"
    case "memory.total.erlang" =>
      "Node-local total memory - erlang"
    case "memory.total.allocated" =>
      "Node-local total memory - allocated"
    case "memory.allocated_unused" =>
      "Memory preallocated by the runtime (VM allocators) but not yet used"
    case "memory.connection_other" =>
      "Memory used by client connection - other"
    case "memory.queue_slave_procs" =>
      "Memory used by class queue mirrors, queue indices, queue state"
    case "memory.connection_writers" =>
      "Memory used by processes responsible for serialization of outgoing protocol frames and writing to client connections socktes"
    case "memory.connection_channels" =>
      "Memory used by client connections - channels"
    case "memory.reserved_unallocated" =>
      "Memory preallocated/reserved by the kernel but not the runtime"
    case "memory.connection_readers_bytes" =>
      "Memory used by processes responsible for connection parser and most of connection state. Most of their memory attributes to TCP buffers"
    case _ => ""
  }

  /** The package-level map from dotted key to published metric name. */
  function MemoryNames(): map<string, string> {
    NameMap(MemoryStats())
  }

  /** The gauge descriptor of a key of the table. */
  function MemoryDescriptor(key: string): Descriptor
    requires key in MemoryNames()
  {
    TableDescriptor(MemoryNames()[key], MemoryHelp(key), MemoryLabels)
  }

  /** The package-level table: dotted key to the gauge publishing it. */
  function MemoryDescriptors(): map<string, Descriptor> {
    map k | k in MemoryNames() :: MemoryDescriptor(k)
  }

  /** The map of a list of (key, name) pairs; a later pair under the same
      key replaces an earlier one. */
  function NameMap(t: seq<(string, string)>): (m: map<string, string>)
    ensures forall k :: k in m <==> exists i :: 0 <= i < |t| && t[i].0 == k
    decreases |t|
  {
    if t == [] then map[]
    else NameMap(t[..|t| - 1])[t[|t| - 1].0 := t[|t| - 1].1]
  }

  /** A strict order on dotted keys: by length, then by the two characters
      that follow the "memory." prefix. */
  predicate KeyBefore(a: string, b: string) {
    |a| < |b| || (|a| == |b| && |a| >= 9 && (a[7] < b[7] || (a[7] == b[7] && a[8] < b[8])))
  }

  ghost predicate Ascending(t: seq<(string, string)>) {
    forall i :: 0 <= i < |t| - 1 ==> KeyBefore(t[i].0, t[i + 1].0)
  }

  ghost predicate DistinctKeys(t: seq<(string, string)>) {
    forall i, j :: 0 <= i < j < |t| ==> t[i].0 != t[j].0
  }

  lemma {:induction false} AscendingApart(t: seq<(string, string)>, i: nat, j: nat)
    requires Ascending(t) && i < j < |t|
    ensures KeyBefore(t[i].0, t[j].0)
    decreases j - i
  {
    if j > i + 1 {
      AscendingApart(t, i, j - 1);
    }
  }

  lemma AscendingDistinct(t: seq<(string, string)>)
    requires Ascending(t)
    ensures DistinctKeys(t)
  {
    forall i, j | 0 <= i < j < |t| ensures t[i].0 != t[j].0 {
      AscendingApart(t, i, j);
    }
  }

  /** Dropping the last pair keeps the keys distinct. */
  lemma DistinctKeysInit(t: seq<(string, string)>)
    requires DistinctKeys(t) && t != []
    ensures DistinctKeys(t[..|t| - 1])
    ensures forall i :: 0 <= i < |t| - 1 ==> t[..|t| - 1][i] == t[i] && t[i].0 != t[|t| - 1].0
  {
    var init := t[..|t| - 1];
    forall i, j | 0 <= i < j < |init| ensures init[i].0 != init[j].0 {
      assert init[i] == t[i] && init[j] == t[j];
    }
  }

  /** With distinct keys, the map has one entry per pair. */
  lemma {:induction false} NameMapSize(t: seq<(string, string)>)
    requires DistinctKeys(t)
    ensures |NameMap(t)| == |t|
    decreases |t|
  {
    if t != [] {
      var init, last := t[..|t| - 1], t[|t| - 1];
      DistinctKeysInit(t);
      NameMapSize(init);
      var m0 := NameMap(init);
      assert last.0 !in m0;
      assert NameMap(t) == m0[last.0 := last.1];
    }
  }

  /** With distinct keys, each key of the list finds its own name. */
  lemma {:induction false} NameMapLookup(t: seq<(string, string)>, i: nat)
    requires DistinctKeys(t) && i < |t|
    ensures t[i].0 in NameMap(t) && NameMap(t)[t[i].0] == t[i].1
    decreases |t|
  {
    var init, last := t[..|t| - 1], t[|t| - 1];
    assert NameMap(t) == NameMap(init)[last.0 := last.1];
    if i < |t| - 1 {
      DistinctKeysInit(t);
      NameMapLookup(init, i);
    }
  }

  lemma MemoryStatsAscendingLow()
    ensures forall i :: 0 <= i < 7 ==> KeyBefore(MemoryStats()[i].0, MemoryStats()[i + 1].0)
  {
    var t := MemoryStats();
    assert KeyBefore(t[0].0, t[1].0);
    assert KeyBefore(t[1].0, t[2].0);
    assert KeyBefore(t[2].0, t[3].0);
    assert KeyBefore(t[3].0, t[4].0);
    assert KeyBefore(t[4].0, t[5].0);
    assert KeyBefore(t[5].0, t[6].0);
    assert KeyBefore(t[6].0, t[7].0);
  }

  lemma MemoryStatsAscendingMid()
    ensures forall i :: 7 <= i < 14 ==> KeyBefore(MemoryStats()[i].0, MemoryStats()[i + 1].0)
  {
    var t := MemoryStats();
    assert KeyBefore(t[7].0, t[8].0);
    assert KeyBefore(t[8].0, t[9].0);
    assert KeyBefore(t[9].0, t[10].0);
    assert KeyBefore(t[10].0, t[11].0);
    assert KeyBefore(t[11].0, t[12].0);
    assert KeyBefore(t[12].0, t[13].0);
    assert KeyBefore(t[13].0, t[14].0);
  }

  lemma MemoryStatsAscendingHigh()
    ensures forall i :: 14 <= i < 21 ==> KeyBefore(MemoryStats()[i].0, MemoryStats()[i + 1].0)
  {
    var t := MemoryStats();
    assert KeyBefore(t[14].0, t[15].0);
    assert KeyBefore(t[15].0, t[16].0);
    assert KeyBefore(t[16].0, t[17].0);
    assert KeyBefore(t[17].0, t[18].0);
    assert KeyBefore(t[18].0, t[19].0);
    assert KeyBefore(t[19].0, t[20].0);
    assert KeyBefore(t[20].0, t[21].0);
  }

  lemma MemoryStatsAscending()
    ensures Ascending(MemoryStats())
  {
    MemoryStatsAscendingLow();
    MemoryStatsAscendingMid();
    MemoryStatsAscendingHigh();
  }

  lemma MemoryTableSize()
    ensures |MemoryDescriptors()| == 22
  {
    var t := MemoryStats();
    MemoryStatsAscending();
    AscendingDistinct(t);
    NameMapSize(t);
    assert MemoryDescriptors().Keys == MemoryNames().Keys;
  }

  lemma MemoryTableLabels()
    ensures forall k :: k in MemoryDescriptors() ==>
      && MemoryDescriptors()[k].labels == ["cluster", "node", "self"]
      && MemoryDescriptors()[k].namespace == "rabbitmq"
      && MemoryDescriptors()[k].name == MemoryNames()[k]
  {
  }

  lemma MemoryTableLookup()
    ensures "memory.connection_readers_bytes" in MemoryNames()
    ensures MemoryNames()["memory.connection_readers_bytes"] == "memory_connection_readers"
    ensures "memory.atom" in MemoryNames() && MemoryNames()["memory.atom"] == "memory_atom_bytes"
  {
    var t := MemoryStats();
    MemoryStatsAscending();
    AscendingDistinct(t);
    NameMapLookup(t, 21);
    NameMapLookup(t, 0);
  }

  /** Builds the package-level table: one new, empty gauge per key. */
  method NewMemoryGaugeTable() returns (t: GaugeTable)
    ensures fresh(t) && t.Valid() && t.HasArity(|MemoryLabels|)
    ensures t.entries.Keys == MemoryDescriptors().Keys
    ensures forall k :: k in t.entries ==> fresh(t.entries[k]) && t.entries[k].desc == MemoryDescriptors()[k]
    ensures t.Contents() == Cleared(MemoryDescriptors().Keys)
  {
    t := NewGaugeTable(MemoryDescriptors());
  }

  // ---------------------------------------------------------------------
  // Scrape inputs

  /** The two values the collector reads from the scrape context; a value
      that is absent, or is not a string, reads as None. */
  datatype Context = Context(nodeName: Option<string>, clusterName: Option<string>)

  /** A cluster member as the node list reports it. */
  datatype Node = Node(labels: map<string, string>)

  /** The broker's answer to a request for an endpoint path. */
  type Fetcher = string -> Result<Snapshot>

  /** The scraped node's name; the empty string when the context lacks it. */
  function SelfNode(ctx: Context): (r: string)
    ensures ctx.nodeName.Some? ==> r == ctx.nodeName.value
    ensures ctx.nodeName.None? ==> r == ""
  {
    ctx.nodeName.GetOr("")
  }

  /** The cluster's name; the empty string when the context lacks it. */
  function Cluster(ctx: Context): (r: string)
    ensures ctx.clusterName.Some? ==> r == ctx.clusterName.value
    ensures ctx.clusterName.None? ==> r == ""
  {
    ctx.clusterName.GetOr("")
  }

  /** The node's "name" label; a missing label reads as the empty string. */
  function NodeName(n: Node): (r: string)
    ensures "name" in n.labels ==> r == n.labels["name"]
    ensures "name" !in n.labels ==> r == ""
  {
    if "name" in n.labels then n.labels["name"] else ""
  }

  /** The `self` label: "1" for the node being scraped, "0" for any other. */
  function SelfFlag(name: string, selfNode: string): (r: string)
    ensures r == "1" <==> name == selfNode
    ensures r == "0" <==> name != selfNode
  {
    if name == selfNode then "1" else "0"
  }

  function MemoryPath(name: string): string {
    "nodes/" + name + "/memory"
  }

  function FetchNode(fetch: Fetcher, n: Node): Result<Snapshot> {
    fetch(MemoryPath(NodeName(n)))
  }

  /** The label tuple (cluster, node, self) under which a node's stats go. */
  function NodeSeries(cluster: string, selfNode: string, n: Node): seq<string> {
    [cluster, NodeName(n), SelfFlag(NodeName(n), selfNode)]
  }

  // ---------------------------------------------------------------------
  // What one scrape does to the table

  /** Fetches the nodes in list order and writes each snapshot under that
      node's label tuple; the first failed fetch stops the walk and is
      returned beside what was written before it. */
  function CollectNodes(c: TableContents, cluster: string, selfNode: string, nodes: seq<Node>, fetch: Fetcher)
    : (r: (TableContents, Option<Error>))
    ensures r.0.Keys == c.Keys
    ensures r.1.Some? <==> exists i :: 0 <= i < |nodes| && FetchNode(fetch, nodes[i]).Err?
    decreases |nodes|
  {
    if nodes == [] then (c, None)
    else
      match FetchNode(fetch, nodes[0])
      case Err(e) => (c, Some(e))
      case Ok(snap) =>
        var r := CollectNodes(Write(c, NodeSeries(cluster, selfNode, nodes[0]), snap), cluster, selfNode, nodes[1..], fetch);
        assert forall i :: 1 <= i < |nodes| ==> nodes[i] == nodes[1..][i - 1];
        r
  }

  /** The table after one Collect: every gauge is reset, then filled from
      the nodes; a failed node-list fetch leaves the table empty. */
  function MemoryCycle(keys: set<string>, ctx: Context, nodes: Result<seq<Node>>, fetch: Fetcher)
    : (r: (TableContents, Option<Error>))
    ensures r.0.Keys == keys
    ensures nodes.Err? ==> r.1 == Some(nodes.error) && forall k :: k in r.0 ==> r.0[k] == map[]
    ensures r.1.None? <==> nodes.Ok? && forall i :: 0 <= i < |nodes.value| ==> FetchNode(fetch, nodes.value[i]).Ok?
  {
    match nodes
    case Err(e) => (Cleared(keys), Some(e))
    case Ok(list) => CollectNodes(Cleared(keys), Cluster(ctx), SelfNode(ctx), list, fetch)
  }

  /** Node `i` of the list fetched successfully and its snapshot holds `k`
      with value `v`, written under label tuple `t`. */
  ghost predicate WrittenBy(cluster: string, selfNode: string, nodes: seq<Node>, fetch: Fetcher,
                            k: string, t: seq<string>, v: real)
  {
    exists i :: 0 <= i < |nodes| && FetchNode(fetch, nodes[i]).Ok? && k in FetchNode(fetch, nodes[i]).value
      && t == NodeSeries(cluster, selfNode, nodes[i]) && v == FetchNode(fetch, nodes[i]).value[k]
  }

  ghost predicate DistinctNames(nodes: seq<Node>) {
    forall i, j :: 0 <= i < j < |nodes| ==> NodeName(nodes[i]) != NodeName(nodes[j])
  }

  /** Every series after the walk was either there before, untouched, or
      written from some node's snapshot. */
  lemma {:induction false} CollectNodesSound(c: TableContents, cluster: string, selfNode: string, nodes: seq<Node>, fetch: Fetcher)
    ensures var r := CollectNodes(c, cluster, selfNode, nodes, fetch).0;
      forall k, t :: k in r && t in r[k] ==>
        (t in c[k] && r[k][t] == c[k][t]) || WrittenBy(cluster, selfNode, nodes, fetch, k, t, r[k][t])
    decreases |nodes|
  {
    if nodes != [] {
      match FetchNode(fetch, nodes[0])
      case Err(_) =>
      case Ok(snap) =>
        var l0 := NodeSeries(cluster, selfNode, nodes[0]);
        var c' := Write(c, l0, snap);
        var rest := nodes[1..];
        CollectNodesSound(c', cluster, selfNode, rest, fetch);
        var r := CollectNodes(c, cluster, selfNode, nodes, fetch).0;
        assert r == CollectNodes(c', cluster, selfNode, rest, fetch).0;
        forall k, t | k in r && t in r[k]
          ensures (t in c[k] && r[k][t] == c[k][t]) || WrittenBy(cluster, selfNode, nodes, fetch, k, t, r[k][t])
        {
          var v := r[k][t];
          if t in c'[k] && v == c'[k][t] {
            if t == l0 && k in snap {
              WrittenByHead(cluster, selfNode, nodes, fetch, k);
            }
          } else {
            WrittenByTail(cluster, selfNode, nodes, fetch, k, t, v);
          }
        }
    }
  }

  /** The first node's own write is a write by the list. */
  lemma WrittenByHead(cluster: string, selfNode: string, nodes: seq<Node>, fetch: Fetcher, k: string)
    requires |nodes| > 0 && FetchNode(fetch, nodes[0]).Ok? && k in FetchNode(fetch, nodes[0]).value
    ensures WrittenBy(cluster, selfNode, nodes, fetch, k, NodeSeries(cluster, selfNode, nodes[0]), FetchNode(fetch, nodes[0]).value[k])
  {
  }

  /** A write by the rest of the list is a write by the list. */
  lemma WrittenByTail(cluster: string, selfNode: string, nodes: seq<Node>, fetch: Fetcher, k: string, t: seq<string>, v: real)
    requires |nodes| > 0 && WrittenBy(cluster, selfNode, nodes[1..], fetch, k, t, v)
    ensures WrittenBy(cluster, selfNode, nodes, fetch, k, t, v)
  {
    var i :| 0 <= i < |nodes[1..]| && FetchNode(fetch, nodes[1..][i]).Ok? && k in FetchNode(fetch, nodes[1..][i]).value
      && t == NodeSeries(cluster, selfNode, nodes[1..][i]) && v == FetchNode(fetch, nodes[1..][i]).value[k];
    assert nodes[1..][i] == nodes[i + 1];
  }

  /** A series that no node of the list writes keeps its value. */
  lemma {:induction false} CollectNodesKeeps(c: TableContents, cluster: string, selfNode: string, nodes: seq<Node>,
                                             fetch: Fetcher, k: string, t: seq<string>)
    requires k in c && t in c[k]
    ensures var r := CollectNodes(c, cluster, selfNode, nodes, fetch).0;
      t in r[k] && ((forall i :: 0 <= i < |nodes| ==> NodeSeries(cluster, selfNode, nodes[i]) != t) ==> r[k][t] == c[k][t])
    decreases |nodes|
  {
    if nodes != [] {
      match FetchNode(fetch, nodes[0])
      case Err(_) =>
      case Ok(snap) =>
        var c' := Write(c, NodeSeries(cluster, selfNode, nodes[0]), snap);
        CollectNodesKeeps(c', cluster, selfNode, nodes[1..], fetch, k, t);
        if forall i :: 0 <= i < |nodes| ==> NodeSeries(cluster, selfNode, nodes[i]) != t {
          assert forall i :: 0 <= i < |nodes| - 1 ==> nodes[1..][i] == nodes[i + 1];
        }
    }
  }

  /** When every fetch succeeds, nothing fails and every node's series is
      present for each table key its snapshot holds; with distinct node
      names the series holds exactly that node's value. */
  lemma {:induction false} CollectNodesComplete(c: TableContents, cluster: string, selfNode: string, nodes: seq<Node>, fetch: Fetcher)
    requires forall i :: 0 <= i < |nodes| ==> FetchNode(fetch, nodes[i]).Ok?
    ensures CollectNodes(c, cluster, selfNode, nodes, fetch).1 == None
    ensures var r := CollectNodes(c, cluster, selfNode, nodes, fetch).0;
      forall i, k :: 0 <= i < |nodes| && k in c && k in FetchNode(fetch, nodes[i]).value ==>
        NodeSeries(cluster, selfNode, nodes[i]) in r[k]
        && (DistinctNames(nodes) ==> r[k][NodeSeries(cluster, selfNode, nodes[i])] == FetchNode(fetch, nodes[i]).value[k])
    decreases |nodes|
  {
    if nodes != [] {
      var snap := FetchNode(fetch, nodes[0]).value;
      var l0 := NodeSeries(cluster, selfNode, nodes[0]);
      var c' := Write(c, l0, snap);
      var rest := nodes[1..];
      assert forall i :: 0 <= i < |rest| ==> rest[i] == nodes[i + 1];
      CollectNodesComplete(c', cluster, selfNode, rest, fetch);
      var r := CollectNodes(c, cluster, selfNode, nodes, fetch).0;
      assert r == CollectNodes(c', cluster, selfNode, rest, fetch).0;
      forall i, k | 0 <= i < |nodes| && k in c && k in FetchNode(fetch, nodes[i]).value
        ensures NodeSeries(cluster, selfNode, nodes[i]) in r[k]
        ensures DistinctNames(nodes) ==> r[k][NodeSeries(cluster, selfNode, nodes[i])] == FetchNode(fetch, nodes[i]).value[k]
      {
        if i == 0 {
          CollectNodesKeeps(c', cluster, selfNode, rest, fetch, k, l0);
          if DistinctNames(nodes) {
            forall m | 0 <= m < |rest| ensures NodeSeries(cluster, selfNode, rest[m]) != l0 {
              assert NodeSeries(cluster, selfNode, rest[m])[1] != l0[1];
            }
          }
        } else {
          assert rest[i - 1] == nodes[i];
          if DistinctNames(nodes) {
            assert DistinctNames(rest);
          }
        }
      }
    }
  }

  /** The walk stops at the first failed fetch: it returns that error and
      the table as the earlier nodes left it. */
  lemma {:induction false} CollectNodesStopsAt(c: TableContents, cluster: string, selfNode: string, nodes: seq<Node>,
                                               fetch: Fetcher, j: nat)
    requires j < |nodes| && FetchNode(fetch, nodes[j]).Err?
    requires forall i :: 0 <= i < j ==> FetchNode(fetch, nodes[i]).Ok?
    ensures CollectNodes(c, cluster, selfNode, nodes, fetch)
         == (CollectNodes(c, cluster, selfNode, nodes[..j], fetch).0, Some(FetchNode(fetch, nodes[j]).error))
    decreases j
  {
    if j > 0 {
      var c' := Write(c, NodeSeries(cluster, selfNode, nodes[0]), FetchNode(fetch, nodes[0]).value);
      assert nodes[1..][j - 1] == nodes[j];
      CollectNodesStopsAt(c', cluster, selfNode, nodes[1..], fetch, j - 1);
      assert nodes[..j][0] == nodes[0];
      assert nodes[..j][1..] == nodes[1..][..j - 1];
    }
  }

  /** No stale series: after a scrape every series was written during that
      scrape, from a node of the fetched list whose snapshot holds the key;
      its labels are (cluster, node, self) with self "1" exactly for the
      scraped node and "0" for every other. */
  lemma MemoryCycleSeries(keys: set<string>, ctx: Context, nodes: Result<seq<Node>>, fetch: Fetcher)
    ensures var r := MemoryCycle(keys, ctx, nodes, fetch).0;
      forall k, t :: k in r && t in r[k] ==>
        && nodes.Ok?
        && WrittenBy(Cluster(ctx), SelfNode(ctx), nodes.value, fetch, k, t, r[k][t])
        && |t| == 3 && t[0] == Cluster(ctx)
        && (t[2] == "1" <==> t[1] == SelfNode(ctx))
        && (t[2] == "0" <==> t[1] != SelfNode(ctx))
  {
    if nodes.Ok? {
      CollectNodesSound(Cleared(keys), Cluster(ctx), SelfNode(ctx), nodes.value, fetch);
    }
  }

  /** A successful scrape of nodes that all answer holds, for every node and
      every table key its snapshot holds, the node's value under (cluster,
      node, self). */
  lemma MemoryCycleComplete(keys: set<string>, ctx: Context, nodes: seq<Node>, fetch: Fetcher)
    requires forall i :: 0 <= i < |nodes| ==> FetchNode(fetch, nodes[i]).Ok?
    ensures var (r, err) := MemoryCycle(keys, ctx, Ok(nodes), fetch);
      && err == None
      && forall i, k :: 0 <= i < |nodes| && k in keys && k in FetchNode(fetch, nodes[i]).value ==>
        NodeSeries(Cluster(ctx), SelfNode(ctx), nodes[i]) in r[k]
        && (DistinctNames(nodes) ==> r[k][NodeSeries(Cluster(ctx), SelfNode(ctx), nodes[i])] == FetchNode(fetch, nodes[i]).value[k])
  {
    CollectNodesComplete(Cleared(keys), Cluster(ctx), SelfNode(ctx), nodes, fetch);
  }

  /** A failed node fetch returns its error; the series written for the
      nodes before it stay in the table. */
  lemma MemoryCycleNodeFailure(keys: set<string>, ctx: Context, nodes: seq<Node>, fetch: Fetcher, j: nat)
    requires j < |nodes| && FetchNode(fetch, nodes[j]).Err?
    requires forall i :: 0 <= i < j ==> FetchNode(fetch, nodes[i]).Ok?
    ensures var (r, err) := MemoryCycle(keys, ctx, Ok(nodes), fetch);
      && err == Some(FetchNode(fetch, nodes[j]).error)
      && forall i, k :: 0 <= i < j && k in keys && k in FetchNode(fetch, nodes[i]).value ==>
        NodeSeries(Cluster(ctx), SelfNode(ctx), nodes[i]) in r[k]
  {
    var c, cluster, selfNode := Cleared(keys), Cluster(ctx), SelfNode(ctx);
    var r := CollectNodes(c, cluster, selfNode, nodes, fetch).0;
    var before := nodes[..j];
    CollectNodesStopsAt(c, cluster, selfNode, nodes, fetch, j);
    CollectNodesComplete(c, cluster, selfNode, before, fetch);
    assert r == CollectNodes(c, cluster, selfNode, before, fetch).0;
    forall i, k | 0 <= i < j && k in keys && k in FetchNode(fetch, nodes[i]).value
      ensures NodeSeries(cluster, selfNode, nodes[i]) in r[k]
    {
      assert before[i] == nodes[i];
    }
  }

  /** Nodes "n1" and "n2" scraped from "n2", both reporting memory.atom as
      100: the atom gauge holds n1's series with self "0" and n2's with
      self "1", and nothing else. */
  lemma TwoNodeScrape(fetch: Fetcher)
    requires forall p :: fetch(p) == Ok(map["memory.atom" := 100.0])
    ensures var (r, err) := MemoryCycle({"memory.atom"}, Context(Some("n2"), Some("c")),
                                        Ok([Node(map["name" := "n1"]), Node(map["name" := "n2"])]), fetch);
      err == None && r["memory.atom"] == map[["c", "n1", "0"] := 100.0, ["c", "n2", "1"] := 100.0]
  {
    var n1, n2 := Node(map["name" := "n1"]), Node(map["name" := "n2"]);
    assert NodeName(n1) == "n1" && NodeName(n2) == "n2";
    assert SelfFlag("n1", "n2") == "0";
    var c1 := Write(Cleared({"memory.atom"}), ["c", "n1", "0"], map["memory.atom" := 100.0]);
    assert c1["memory.atom"] == map[["c", "n1", "0"] := 100.0];
    assert [n1, n2][1..] == [n2];
  }

  // ---------------------------------------------------------------------
  // The collector

  class ExporterMemory {
    const gauges: GaugeTable

    constructor (gauges: GaugeTable)
      ensures this.gauges == gauges
    {
      this.gauges := gauges;
    }

    /** One scrape. Resets every gauge, then fetches the node list and each
        node's memory snapshot, writing every table key the snapshot holds.
        A fetch failure returns at once and sends nothing; otherwise every
        gauge is sent. */
    method Collect(ctx: Context, nodes: Result<seq<Node>>, fetch: Fetcher) returns (err: Option<Error>, sent: set<Sample>)
      requires gauges.Valid() && gauges.HasArity(|MemoryLabels|)
      modifies gauges.entries.Values
      ensures (gauges.Contents(), err) == MemoryCycle(gauges.entries.Keys, ctx, nodes, fetch)
      ensures sent == if err.None? then gauges.SamplesOf(gauges.entries.Keys) else {}
    {
      gauges.ResetAll();
      var selfNode := SelfNode(ctx);
      var cluster := Cluster(ctx);
      if nodes.Err? {
        return Some(nodes.error), {};
      }
      var list := nodes.value;
      ghost var want := CollectNodes(gauges.Contents(), cluster, selfNode, list, fetch);
      var i := 0;
      while i < |list|
        invariant i <= |list|
        invariant CollectNodes(gauges.Contents(), cluster, selfNode, list[i..], fetch) == want
      {
        var name := NodeName(list[i]);
        var self := "0";
        if name == selfNode {
          self := "1";
        }
        var snap := fetch(MemoryPath(name));
        ghost var c := gauges.Contents();
        assert snap == FetchNode(fetch, list[i]) && list[i..][0] == list[i];
        if snap.Err? {
          assert CollectNodes(c, cluster, selfNode, list[i..], fetch) == (c, Some(snap.error));
          return Some(snap.error), {};
        }
        assert [cluster, name, self] == NodeSeries(cluster, selfNode, list[i]);
        assert list[i..][1..] == list[i + 1..];
        assert CollectNodes(c, cluster, selfNode, list[i..], fetch)
          == CollectNodes(Write(c, [cluster, name, self], snap.value), cluster, selfNode, list[i + 1..], fetch);
        gauges.WriteSnapshot([cluster, name, self], snap.value);
        i := i + 1;
      }
      assert list[i..] == [];
      sent := gauges.Emit();
      err := None;
    }
  }

  /** Builds the collector over the package-level table, deleting every
      excluded key from that very table: the collector and the package
      share one table. */
  method NewExporterMemory(table: GaugeTable, exclude: seq<string>) returns (e: ExporterMemory)
    modifies table
    ensures fresh(e) && e.gauges == table
    ensures table.entries == ExcludeAll(old(table.entries), exclude)
    ensures old(table.Valid()) ==> table.Valid()
    ensures old(table.HasArity(|MemoryLabels|)) ==> table.HasArity(|MemoryLabels|)
  {
    table.Exclude(exclude);
    e := new ExporterMemory(table);
  }

  /** Two constructions over the same package table: the second starts from
      the table the first reduced, so both exclusions hold. */
  method ConstructTwice(table: GaugeTable, first: seq<string>, second: seq<string>)
    returns (e1: ExporterMemory, e2: ExporterMemory)
    modifies table
    ensures e1.gauges == e2.gauges == table
    ensures table.entries == ExcludeAll(old(table.entries), first + second)
  {
    e1 := NewExporterMemory(table, first);
    e2 := NewExporterMemory(table, second);
    ExcludeCompose(old(table.entries), first, second);
  }
}
