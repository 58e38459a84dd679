/** The aliveness collector: runs the broker's aliveness probe, publishes
    its outcome on an info metric labelled by (status, error, reason), and
    writes the probe's numeric fields into the table gauges, labelled by the
    status. */
module Aliveness {
  import opened Exclusion
  import opened Gauges

  /** The label schema of the table gauges. */
  const AlivenessLabels: seq<string> := ["vhost"]

  /** The package-level table: dotted key to the gauge publishing it. */
  function AlivenessDescriptors(): map<string, Descriptor> {
    map["vhost.aliveness" := TableDescriptor("aliveness_test", "vhost aliveness test", AlivenessLabels)]
  }

  /** The package-level info metric; it is built without a namespace. */
  function InfoDescriptor(): Descriptor {
    Descriptor(
      "", "rabbitmq_aliveness_info",
      "A metric with value 1 status:ok else 0 labeled by aliveness test status, error, reason",
      ["status", "error", "reason"])
  }

  /** The package-level table holds the one "vhost.aliveness" gauge, in
      the "rabbitmq" namespace, with the schema (vhost). */
  lemma AlivenessTableShape()
    ensures AlivenessDescriptors().Keys == {"vhost.aliveness"}
    ensures AlivenessDescriptors()["vhost.aliveness"].namespace == "rabbitmq"
    ensures AlivenessDescriptors()["vhost.aliveness"].name == "aliveness_test"
    ensures AlivenessDescriptors()["vhost.aliveness"].labels == ["vhost"]
  {
  }

  /** The info metric is published under its own name, without the
      namespace, with the schema (status, error, reason). */
  lemma InfoMetricShape()
    ensures InfoDescriptor().FullName() == "rabbitmq_aliveness_info"
    ensures InfoDescriptor().labels == ["status", "error", "reason"]
  {
  }

  /** Builds the package-level table of table gauges. */
  method NewAlivenessGaugeTable() returns (t: GaugeTable)
    ensures fresh(t) && t.Valid() && t.HasArity(|AlivenessLabels|)
    ensures t.entries.Keys == AlivenessDescriptors().Keys
    ensures forall k :: k in t.entries ==> fresh(t.entries[k]) && t.entries[k].desc == AlivenessDescriptors()[k]
    ensures t.Contents() == Cleared(AlivenessDescriptors().Keys)
  {
    t := NewGaugeTable(AlivenessDescriptors());
  }

  /** Builds the package-level info metric. */
  method NewAlivenessInfoMetric() returns (g: GaugeVec)
    ensures fresh(g) && g.desc == InfoDescriptor() && g.series == map[]
  {
    g := new GaugeVec(InfoDescriptor());
  }

  // ---------------------------------------------------------------------
  // Probe inputs

  datatype AlivenessInfo = AlivenessInfo(status: string, error: string, reason: string)

  /** The raw answer to the probe request. */
  datatype Response = Response(body: seq<bv8>, contentType: string)

  /** A parsed reply: its string fields and its numeric fields by dotted key. */
  datatype Reply = Reply(strings: map<string, string>, values: Snapshot)

  /** Turns a raw answer into a reply, or fails. */
  type Parser = Response -> Result<Reply>

  /** The reply, or the error of the request or of the parse, whichever
      came first. */
  function Probe(request: Result<Response>, parse: Parser): (r: Result<Reply>)
    ensures r.Err? <==> request.Err? || parse(request.value).Err?
    ensures request.Err? ==> r == Err(request.error)
    ensures request.Ok? ==> r == parse(request.value)
  {
    match request
    case Err(e) => Err(e)
    case Ok(response) => parse(response)
  }

  /** A string field of the reply; a missing field reads as "". */
  function GetString(reply: Reply, key: string): (r: string)
    ensures key in reply.strings ==> r == reply.strings[key]
    ensures r != "" ==> key in reply.strings
  {
    if key in reply.strings then reply.strings[key] else ""
  }

  /** The probe's three strings; a reply without them reads as the empty
      result a new collector starts with. */
  function ReadInfo(reply: Reply): (r: AlivenessInfo)
    ensures "status" in reply.strings ==> r.status == reply.strings["status"]
    ensures "error" in reply.strings ==> r.error == reply.strings["error"]
    ensures "reason" in reply.strings ==> r.reason == reply.strings["reason"]
    ensures "status" !in reply.strings && "error" !in reply.strings && "reason" !in reply.strings ==> r == AlivenessInfo("", "", "")
  {
    AlivenessInfo(GetString(reply, "status"), GetString(reply, "error"), GetString(reply, "reason"))
  }

  /** The info metric's value: 1 exactly when the status is "ok", else 0. */
  function Flag(status: string): (r: real)
    ensures r == 1.0 <==> status == "ok"
    ensures r == 0.0 <==> status != "ok"
  {
    if status == "ok" then 1.0 else 0.0
  }

  function InfoSeries(info: AlivenessInfo): seq<string> {
    [info.status, info.error, info.reason]
  }

  // ---------------------------------------------------------------------
  // What one scrape does

  /** The collector's probe result, the info metric's series and the table
      gauges' content. */
  datatype AlivenessState = AlivenessState(info: AlivenessInfo, infoSeries: Series, table: TableContents)

  /** One Collect: a failed probe returns its error and changes nothing;
      otherwise the probe's strings are stored, the info metric is reset
      and given one series, and the table gauges are written under the
      status without being reset. */
  function AlivenessCycle(st: AlivenessState, request: Result<Response>, parse: Parser): (r: (AlivenessState, Option<Error>))
    ensures r.1.Some? <==> Probe(request, parse).Err?
    ensures r.1.Some? ==> r.0 == st
    ensures r.0.table.Keys == st.table.Keys
    ensures r.1.None? ==> r.0.infoSeries.Keys == {InfoSeries(r.0.info)}
  {
    match Probe(request, parse)
    case Err(e) => (st, Some(e))
    case Ok(reply) =>
      var info := ReadInfo(reply);
      (AlivenessState(info, map[InfoSeries(info) := Flag(info.status)], Write(st.table, [info.status], reply.values)), None)
  }

  /** A failed request or parse returns that error and leaves the stored
      strings, the info metric and the table gauges as they were. */
  lemma AlivenessFailureChangesNothing(st: AlivenessState, request: Result<Response>, parse: Parser)
    requires request.Err? || parse(request.value).Err?
    ensures AlivenessCycle(st, request, parse).0 == st
    ensures AlivenessCycle(st, request, parse).1.Some?
    ensures request.Err? ==> AlivenessCycle(st, request, parse).1 == Some(request.error)
    ensures request.Ok? ==> AlivenessCycle(st, request, parse).1 == Some(parse(request.value).error)
  {
  }

  /** After a successful probe the info metric holds exactly one series,
      (status, error, reason) as read from the reply, with value 1 exactly
      when the status is "ok"; the stored strings are those same three. */
  lemma AlivenessInfoSeries(st: AlivenessState, request: Result<Response>, parse: Parser)
    requires Probe(request, parse).Ok?
    ensures var (st', err) := AlivenessCycle(st, request, parse);
      var reply := Probe(request, parse).value;
      && err == None
      && st'.info.status == GetString(reply, "status")
      && st'.info.error == GetString(reply, "error")
      && st'.info.reason == GetString(reply, "reason")
      && st'.infoSeries.Keys == {[st'.info.status, st'.info.error, st'.info.reason]}
      && (st'.infoSeries[[st'.info.status, st'.info.error, st'.info.reason]] == 1.0 <==> st'.info.status == "ok")
      && (st'.infoSeries[[st'.info.status, st'.info.error, st'.info.reason]] == 0.0 <==> st'.info.status != "ok")
  {
  }

  /** After a successful probe each table gauge whose key the reply holds
      has the reply's value under (status); gauges whose key is missing are
      untouched; and no earlier series of any table gauge is dropped. */
  lemma AlivenessTableWrites(st: AlivenessState, request: Result<Response>, parse: Parser)
    requires Probe(request, parse).Ok?
    ensures var st' := AlivenessCycle(st, request, parse).0;
      var reply := Probe(request, parse).value;
      var status := GetString(reply, "status");
      && st'.table.Keys == st.table.Keys
      && (forall k :: k in st.table && k in reply.values ==> [status] in st'.table[k] && st'.table[k][[status]] == reply.values[k])
      && (forall k :: k in st.table && k !in reply.values ==> st'.table[k] == st.table[k])
      && (forall k, t :: k in st.table && t in st.table[k] && t != [status] ==> t in st'.table[k] && st'.table[k][t] == st.table[k][t])
  {
  }

  /** The table gauges are never reset: a series written under one status
      is still there, with its value, after a scrape that reports another
      status. */
  lemma StatusChangeKeepsOldSeries(st: AlivenessState, request1: Result<Response>, parse1: Parser,
                                   request2: Result<Response>, parse2: Parser, k: string)
    requires Probe(request1, parse1).Ok? && Probe(request2, parse2).Ok?
    requires k in st.table && k in Probe(request1, parse1).value.values
    requires GetString(Probe(request1, parse1).value, "status") != GetString(Probe(request2, parse2).value, "status")
    ensures var st1 := AlivenessCycle(st, request1, parse1).0;
      var st2 := AlivenessCycle(st1, request2, parse2).0;
      var earlier := [st1.info.status];
      earlier in st2.table[k] && st2.table[k][earlier] == Probe(request1, parse1).value.values[k]
  {
  }

  // ---------------------------------------------------------------------
  // The collector

  class ExporterAliveness {
    const metrics: GaugeTable
    var info: AlivenessInfo

    constructor (metrics: GaugeTable)
      ensures this.metrics == metrics && info == AlivenessInfo("", "", "")
    {
      this.metrics := metrics;
      info := AlivenessInfo("", "", "");
    }

    /** Stores the probe's three strings, then resets the info metric and
        sets its one series: 1 when the status is "ok", else 0. */
    method RecordInfo(infoMetric: GaugeVec, reply: Reply)
      requires |infoMetric.desc.labels| == 3
      modifies this, infoMetric
      ensures info == ReadInfo(reply)
      ensures infoMetric.series == map[InfoSeries(info) := Flag(info.status)]
    {
      info := info.(status := GetString(reply, "status"));
      info := info.(error := GetString(reply, "error"));
      info := info.(reason := GetString(reply, "reason"));

      infoMetric.Reset();
      var flag := 0.0;
      if info.status == "ok" {
        flag := 1.0;
      }
      infoMetric.Set([info.status, info.error, info.reason], flag);
    }

    ghost function State(infoMetric: GaugeVec): AlivenessState
      reads this, infoMetric, metrics, metrics.entries.Values
    {
      AlivenessState(info, infoMetric.series, metrics.Contents())
    }

    /** One scrape. Runs the probe; on success stores its three strings,
        resets the info metric and writes its one series, and writes the
        table gauges under the status; with a channel, sends the info metric
        and every table gauge. */
    method Collect(infoMetric: GaugeVec, request: Result<Response>, parse: Parser, hasChannel: bool)
      returns (err: Option<Error>, sent: set<Sample>)
      requires metrics.Valid() && metrics.HasArity(|AlivenessLabels|)
      requires |infoMetric.desc.labels| == 3 && infoMetric !in metrics.entries.Values
      modifies this, infoMetric, metrics.entries.Values
      ensures (State(infoMetric), err) == AlivenessCycle(old(State(infoMetric)), request, parse)
      ensures sent == if err.None? && hasChannel then infoMetric.Samples() + metrics.SamplesOf(metrics.entries.Keys) else {}
    {
      if request.Err? {
        return Some(request.error), {};
      }
      var reply := parse(request.value);
      assert Probe(request, parse) == reply;
      if reply.Err? {
        return Some(reply.error), {};
      }
      var data := reply.value.values;
      ghost var before := metrics.Contents();
      RecordInfo(infoMetric, reply.value);
      assert metrics.Contents() == before;
      metrics.WriteSnapshot([info.status], data);
      assert State(infoMetric) == AlivenessState(info, map[InfoSeries(info) := Flag(info.status)], Write(before, [info.status], data));

      sent := {};
      if hasChannel {
        var rest := metrics.Emit();
        sent := infoMetric.Samples() + rest;
      }
      err := None;
    }
  }

  /** Builds the collector over the package-level table, deleting every
      excluded key from that very table. */
  method NewExporterAliveness(table: GaugeTable, exclude: seq<string>) returns (e: ExporterAliveness)
    modifies table
    ensures fresh(e) && e.metrics == table && e.info == AlivenessInfo("", "", "")
    ensures table.entries == ExcludeAll(old(table.entries), exclude)
    ensures old(table.Valid()) ==> table.Valid()
    ensures old(table.HasArity(|AlivenessLabels|)) ==> table.HasArity(|AlivenessLabels|)
  {
    table.Exclude(exclude);
    e := new ExporterAliveness(table);
  }
}
