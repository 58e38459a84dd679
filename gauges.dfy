/** Labelled gauges and the tables of them that each collector owns.

    A gauge vector is one metric family: a descriptor (name, help text,
    label schema) and a sparse table from a tuple of label values to a
    value. A gauge table maps a dotted stat key to the gauge that publishes
    it. Both are updated in place, so both are classes. */
module Gauges {
  import opened Exclusion

  datatype Option<T> = None | Some(value: T) {
    function GetOr(default: T): T {
      match this
      case Some(v) => v
      case None => default
    }
  }

  datatype Error = Error(message: string)

  datatype Result<T> = Ok(value: T) | Err(error: Error)

  /** The namespace every table gauge is registered under. */
  const Namespace := "rabbitmq"

  datatype Descriptor = Descriptor(namespace: string, name: string, help: string, labels: seq<string>) {
    /** The published metric name: the namespace and the name joined by an
        underscore, or the name alone when there is no namespace; a
        descriptor without a name publishes the empty name. */
    function FullName(): string {
      if name == "" then ""
      else if namespace == "" then name
      else namespace + "_" + name
    }
  }

  /** A table gauge, as built by the package's gauge constructor. */
  function TableDescriptor(name: string, help: string, labels: seq<string>): Descriptor {
    Descriptor(Namespace, name, help, labels)
  }

  /** One series as it is sent to the scrape channel. */
  datatype Sample = Sample(metric: string, labelValues: seq<string>, value: real)

  /** The series of one gauge vector: label-value tuple to value. */
  type Series = map<seq<string>, real>

  /** A stat snapshot fetched from the broker: dotted key to value. */
  type Snapshot = map<string, real>

  /** The abstract content of a gauge table: dotted key to that gauge's series. */
  type TableContents = map<string, Series>

  /** The content after every gauge of the table has been reset. */
  function Cleared(keys: set<string>): (c: TableContents)
    ensures c.Keys == keys
    ensures forall k :: k in c ==> c[k] == map[]
  {
    map k | k in keys :: map[]
  }

  /** The generic stat-to-gauge step: for every table key present in the
      snapshot, its gauge gets the snapshot's value at `labels`; keys the
      snapshot lacks are skipped, and no other series changes. */
  function Write(c: TableContents, labels: seq<string>, snap: Snapshot): (r: TableContents)
    ensures r.Keys == c.Keys
    ensures forall k :: k in c && k in snap ==> labels in r[k] && r[k][labels] == snap[k]
    ensures forall k :: k in c && k !in snap ==> r[k] == c[k]
    ensures forall k, t :: k in c && t in c[k] && t != labels ==> t in r[k] && r[k][t] == c[k][t]
    ensures forall k, t :: k in r && t in r[k] ==> t in c[k] || (t == labels && k in snap)
  {
    map k | k in c :: if k in snap then c[k][labels := snap[k]] else c[k]
  }

  class GaugeVec {
    const desc: Descriptor
    var series: Series

    constructor (desc: Descriptor)
      ensures this.desc == desc && series == map[]
    {
      this.desc := desc;
      series := map[];
    }

    /** Drops every series of this gauge. */
    method Reset()
      modifies this
      ensures series == map[]
    {
      series := map[];
    }

    /** Sets the series at `labelValues`; the label count must match the
        schema, as the metrics library demands. */
    method Set(labelValues: seq<string>, value: real)
      requires |labelValues| == |desc.labels|
      modifies this
      ensures series == old(series)[labelValues := value]
    {
      series := series[labelValues := value];
    }

    /** What collecting this gauge sends to the channel: one sample per
        series, under the published name, and nothing else. */
    function Samples(): (r: set<Sample>)
      reads this
      ensures forall s :: s in r <==> s.metric == desc.FullName() && s.labelValues in series && s.value == series[s.labelValues]
    {
      set t | t in series :: Sample(desc.FullName(), t, series[t])
    }
  }

  class GaugeTable {
    var entries: map<string, GaugeVec>

    /** Wraps a map as it is; only NewGaugeTable builds a table that is
        known to be Valid. */
    constructor (entries: map<string, GaugeVec>)
      ensures this.entries == entries
    {
      this.entries := entries;
    }

    /** Distinct keys are backed by distinct gauges, so writing one gauge
        never shows through another key. */
    ghost predicate Valid()
      reads this
    {
      forall k1, k2 :: k1 in entries && k2 in entries && k1 != k2 ==> entries[k1] != entries[k2]
    }

    /** Every gauge of the table has `n` labels in its schema. */
    ghost predicate HasArity(n: nat)
      reads this
    {
      forall k :: k in entries ==> |entries[k].desc.labels| == n
    }

    ghost function Contents(): (c: TableContents)
      reads this, entries.Values
    {
      map k | k in entries :: entries[k].series
    }

    /** Everything collecting the gauges of `keys` sends to the channel. */
    ghost function SamplesOf(keys: set<string>): set<Sample>
      reads this, entries.Values
    {
      set k, s | k in keys && k in entries && s in entries[k].Samples() :: s
    }

    /** Deletes, in list order, every listed key the table holds. */
    method Exclude(xs: seq<string>)
      modifies this
      ensures entries == ExcludeAll(old(entries), xs)
      ensures old(Valid()) ==> Valid()
      ensures forall n: nat :: old(HasArity(n)) ==> HasArity(n)
    {
      if |xs| > 0 {
        for i := 0 to |xs|
          invariant entries == ExcludeAll(old(entries), xs[..i])
        {
          assert xs[..i + 1][..i] == xs[..i];
          if xs[i] in entries {
            entries := entries - {xs[i]};
          }
        }
        assert xs[..|xs|] == xs;
      }
    }

    /** Resets every gauge of the table. */
    method ResetAll()
      requires Valid()
      modifies entries.Values
      ensures Contents() == Cleared(entries.Keys)
    {
      var todo := entries.Keys;
      while todo != {}
        invariant todo <= entries.Keys
        invariant forall k :: k in entries ==> entries[k].series == if k in todo then old(entries[k].series) else map[]
        decreases todo
      {
        var k :| k in todo;
        entries[k].Reset();
        todo := todo - {k};
      }
    }

    /** For every key of the table present in `snap`, sets that gauge's
        series at `labelValues` to the snapshot's value. */
    method WriteSnapshot(labelValues: seq<string>, snap: Snapshot)
      requires Valid() && HasArity(|labelValues|)
      modifies entries.Values
      ensures Contents() == Write(old(Contents()), labelValues, snap)
    {
      ghost var start := Contents();
      var todo := entries.Keys;
      while todo != {}
        invariant todo <= entries.Keys
        invariant forall k :: k in entries ==>
          entries[k].series == if k in todo || k !in snap then start[k] else start[k][labelValues := snap[k]]
        decreases todo
      {
        var k :| k in todo;
        if k in snap {
          entries[k].Set(labelValues, snap[k]);
        }
        todo := todo - {k};
      }
    }

    /** Collects every gauge of the table into the channel. */
    method Emit() returns (sent: set<Sample>)
      ensures sent == SamplesOf(entries.Keys)
    {
      sent := {};
      var todo := entries.Keys;
      while todo != {}
        invariant todo <= entries.Keys
        invariant sent == SamplesOf(entries.Keys - todo)
        decreases todo
      {
        var k :| k in todo;
        sent := sent + entries[k].Samples();
        todo := todo - {k};
      }
    }
  }

  /** Builds a fresh table holding one new, empty gauge per descriptor. */
  method NewGaugeTable(descs: map<string, Descriptor>) returns (t: GaugeTable)
    ensures fresh(t) && t.Valid()
    ensures t.entries.Keys == descs.Keys
    ensures forall k :: k in t.entries ==> fresh(t.entries[k]) && t.entries[k].desc == descs[k]
    ensures t.Contents() == Cleared(descs.Keys)
  {
    var entries: map<string, GaugeVec> := map[];
    var todo := descs.Keys;
    while todo != {}
      invariant todo <= descs.Keys
      invariant entries.Keys == descs.Keys - todo
      invariant forall k :: k in entries ==> fresh(entries[k]) && entries[k].desc == descs[k] && entries[k].series == map[]
      invariant forall k1, k2 :: k1 in entries && k2 in entries && k1 != k2 ==> entries[k1] != entries[k2]
      decreases todo
    {
      var k :| k in todo;
      var g := new GaugeVec(descs[k]);
      entries := entries[k := g];
      todo := todo - {k};
    }
    t := new GaugeTable(entries);
  }
}
