/**
 * The wire messages of the agent and their conversions to and from the buffered
 * form (services/cxx-agent/src/main.cpp and grpc_client.cpp).
 */
module Protocol {
  import opened BatchCodec
  import opened Decimal

  datatype Timestamp = Timestamp(seconds: int, nanos: int)

  datatype Point<V> = Point(name: string, value: V, timestamp: Timestamp, labels: map<string, string>)

  datatype ProtoBatch<V> = ProtoBatch(
    agentId: string, hostname: string, cluster: string,
    metrics: seq<Point<V>>,
    batchSeq: int64, originalTimestampMs: int64, isBacklog: bool, queueDepth: int)

  datatype AgentConfig = AgentConfig(agentId: string, hostname: string, cluster: string, tenantId: string)

  // ------------------------------------------------------------- timestamps

  /** C++ integer division and remainder truncate toward zero. */
  function TruncDiv(a: int, b: int): int
    requires b > 0
  {
    if a < 0 then -(-a / b) else a / b
  }

  function TruncMod(a: int, b: int): int
    requires b > 0
  {
    a - TruncDiv(a, b) * b
  }

  function SplitMillis(ms: int): Timestamp {
    Timestamp(TruncDiv(ms, 1000), TruncMod(ms, 1000) * 1000000)
  }

  function JoinMillis(t: Timestamp): int {
    t.seconds * 1000 + TruncDiv(t.nanos, 1000000)
  }

  /** Seconds and nanos hold a millisecond time without loss, also before 1970, and nanos fit 32 bits. */
  lemma JoinSplit(ms: int)
    ensures JoinMillis(SplitMillis(ms)) == ms
    ensures -1_000_000_000 < SplitMillis(ms).nanos < 1_000_000_000
  {}

  /** The time is the millisecond time, both parts on the same side of zero and nanos below a second. */
  ghost predicate Denotes(t: Timestamp, ms: int) {
    && t.seconds * 1_000_000_000 + t.nanos == ms * 1_000_000
    && -1_000_000_000 < t.nanos < 1_000_000_000
    && (t.seconds > 0 ==> t.nanos >= 0) && (t.seconds < 0 ==> t.nanos <= 0)
  }

  /** Splitting gives the one pair that denotes the time. */
  lemma SplitExact(t: Timestamp, ms: int)
    ensures Denotes(t, ms) <==> t == SplitMillis(ms)
  {}

  // ------------------------------------------------------------ conversions

  function ToPoint<V>(m: Sample<V>): Point<V> {
    Point(m.name, m.value, SplitMillis(m.timestampMs), m.labels)
  }

  function ToPoints<V>(ms: seq<Sample<V>>): (ps: seq<Point<V>>)
    ensures |ps| == |ms|
    ensures forall i | 0 <= i < |ms| :: ps[i] == ToPoint(ms[i])
  {
    seq(|ms|, i requires 0 <= i < |ms| => ToPoint(ms[i]))
  }

  /** The message `stream_backlog` fills from the popped batch. */
  function BacklogMessage<V>(b: Batch<V>, queueDepth: int): ProtoBatch<V> {
    ProtoBatch(b.agentId, b.hostname, b.cluster, ToPoints(b.metrics), b.batchSeq, b.originalTimestampMs, true,
               queueDepth)
  }

  predicate InInt64(i: int) {
    INT64_MIN <= i <= INT64_MAX
  }

  /** The sample `main` saves for a point it could not send. */
  function ToSample<V>(p: Point<V>): Sample<V>
    requires InInt64(JoinMillis(p.timestamp))
  {
    Sample(p.name, p.value, JoinMillis(p.timestamp), p.labels)
  }

  ghost predicate Joinable<V>(ps: seq<Point<V>>) {
    forall i | 0 <= i < |ps| :: InInt64(JoinMillis(ps[i].timestamp))
  }

  /** The timestamps are what a millisecond time is split into. */
  ghost predicate WholeMillis<V>(ps: seq<Point<V>>) {
    forall i | 0 <= i < |ps| :: ps[i].timestamp == SplitMillis(JoinMillis(ps[i].timestamp))
  }

  function ToSamples<V>(ps: seq<Point<V>>): (ms: seq<Sample<V>>)
    requires Joinable(ps)
    ensures |ms| == |ps|
    ensures forall i | 0 <= i < |ps| :: ms[i] == ToSample(ps[i])
  {
    seq(|ps|, i requires 0 <= i < |ps| => ToSample(ps[i]))
  }

  /** The batch `main` buffers when the live message could not be sent. */
  function LocalEntry<V>(p: ProtoBatch<V>): Batch<V>
    requires Joinable(p.metrics)
  {
    Batch(p.agentId, p.hostname, p.cluster, ToSamples(p.metrics), p.batchSeq, p.originalTimestampMs, true)
  }

  // --------------------------------------------------------- the live batch

  /** The six computed values of one interval: cpu, rx, tx, disk, memory, load. */
  datatype Readings<V> = Readings(cpu: V, rx: V, tx: V, disk: V, memory: V, load: V)

  function BaseLabels(cfg: AgentConfig): map<string, string> {
    map["source" := "cxx-agent", "host" := cfg.hostname, "tenantId" := cfg.tenantId]
  }

  function LivePoints<V>(cfg: AgentConfig, ts: int64, r: Readings<V>): (ps: seq<Point<V>>)
    ensures Joinable(ps) && WholeMillis(ps)
  {
    JoinSplit(ts);
    var t, labels := SplitMillis(ts), BaseLabels(cfg);
    [ Point("system.cpu.utilization", r.cpu, t, labels),
      Point("system.network.rx_bytes", r.rx, t, labels),
      Point("system.network.tx_bytes", r.tx, t, labels),
      Point("system.disk.io_rate", r.disk, t, labels),
      Point("system.memory.usage_percent", r.memory, t, labels),
      Point("system.load.1m", r.load, t, labels) ]
  }

  function LiveMessage<V>(cfg: AgentConfig, ts: int64, queueDepth: int, batchSeq: int64, r: Readings<V>)
    : (live: ProtoBatch<V>)
    ensures Joinable(live.metrics)
  {
    ProtoBatch(cfg.agentId, cfg.hostname, cfg.cluster, LivePoints(cfg, ts, r), batchSeq, ts, false, queueDepth)
  }

  /** Exactly one point has the name, and it has the value. */
  ghost predicate Under<V>(ps: seq<Point<V>>, name: string, v: V) {
    exists i :: 0 <= i < |ps| && ps[i].name == name && ps[i].value == v &&
                forall j | 0 <= j < |ps| && j != i :: ps[j].name != name
  }

  /** The six points of one interval: each reading under its own name, all at its time and with the agent's labels. */
  ghost predicate Reports<V>(cfg: AgentConfig, ts: int64, r: Readings<V>, ps: seq<Point<V>>) {
    && |ps| == 6
    && Under(ps, "system.cpu.utilization", r.cpu)
    && Under(ps, "system.network.rx_bytes", r.rx)
    && Under(ps, "system.network.tx_bytes", r.tx)
    && Under(ps, "system.disk.io_rate", r.disk)
    && Under(ps, "system.memory.usage_percent", r.memory)
    && Under(ps, "system.load.1m", r.load)
    && forall i | 0 <= i < |ps| ::
         && Denotes(ps[i].timestamp, ts)
         && ps[i].labels == map["source" := "cxx-agent", "host" := cfg.hostname, "tenantId" := cfg.tenantId]
  }

  lemma UnderAt<V>(ps: seq<Point<V>>, i: nat)
    requires i < |ps| && forall j | 0 <= j < |ps| && j != i :: ps[j].name != ps[i].name
    ensures Under(ps, ps[i].name, ps[i].value)
  {}

  lemma LiveReports<V>(cfg: AgentConfig, ts: int64, r: Readings<V>)
    ensures Reports(cfg, ts, r, LivePoints(cfg, ts, r))
  {
    var ps := LivePoints(cfg, ts, r);
    SplitExact(SplitMillis(ts), ts);
    hide SplitMillis, Denotes, Under;
    forall i | 0 <= i < 6
      ensures Under(ps, ps[i].name, ps[i].value)
    {
      assert ps[0].name[7] == 'c' && ps[1].name[15] == 'r' && ps[2].name[15] == 't';
      assert ps[1].name[7] == 'n' && ps[2].name[7] == 'n' && ps[3].name[7] == 'd';
      assert ps[4].name[7] == 'm' && ps[5].name[7] == 'l';
      UnderAt(ps, i);
    }
    assert Under(ps, ps[0].name, ps[0].value) && Under(ps, ps[1].name, ps[1].value);
    assert Under(ps, ps[2].name, ps[2].value) && Under(ps, ps[3].name, ps[3].value);
    assert Under(ps, ps[4].name, ps[4].value) && Under(ps, ps[5].name, ps[5].value);
  }

  lemma LiveSized<V>(cfg: AgentConfig, ts: int64, queueDepth: int, batchSeq: int64, r: Readings<V>)
    ensures Sized(LocalEntry(LiveMessage(cfg, ts, queueDepth, batchSeq, r)))
  {
    var ps := LivePoints(cfg, ts, r);
    assert forall i | 0 <= i < |ps| :: ps[i].labels == BaseLabels(cfg);
    ThreeLabels(cfg);
    hide LivePoints, BaseLabels, JoinMillis, SplitMillis;
    assert forall m | m in ToSamples(ps) :: m.labels == BaseLabels(cfg);
  }

  lemma ThreeLabels(cfg: AgentConfig)
    ensures |BaseLabels(cfg)| == 3
  {
    assert BaseLabels(cfg).Keys == {"source", "host", "tenantId"};
    assert |BaseLabels(cfg)| == |BaseLabels(cfg).Keys|;
  }

  /** Points with their values replaced by what the values' text denotes. */
  ghost predicate RereadPoints<V>(vt: ValueText<V>, ps: seq<Point<V>>, rs: seq<Point<V>>) {
    && |rs| == |ps|
    && forall i | 0 <= i < |ps| ::
         Readable(vt, ps[i].value) && rs[i] == ps[i].(value := vt.parse(vt.render(ps[i].value)).value)
  }

  lemma {:induction false} RereadSampleAt<V>(vt: ValueText<V>, ms: seq<Sample<V>>, i: nat)
    requires i < |ms| && SamplesReadable(vt, ms)
    ensures SampleReadable(vt, ms[i]) && RereadSamples(vt, ms)[i] == RereadSample(vt, ms[i])
  {
    SplitFirst(vt, ms);
    if i > 0 {
      RereadSampleAt(vt, ms[1..], i - 1);
    }
  }

  /**
   * A message that failed live, was buffered, popped into an empty batch and
   * streamed as backlog is the live one but for the backlog flag, the queue depth
   * and the text rounding of its values.
   */
  lemma EndToEnd<V(!new)>(vt: ValueText<V>, live: ProtoBatch<V>, target: Batch<V>, queueDepth: int)
    requires OneLine(vt) && target.metrics == []
    requires Joinable(live.metrics) && WholeMillis(live.metrics)
    requires Sized(LocalEntry(live)) && BatchReadable(vt, LocalEntry(live))
    ensures var r := Deserialize(vt, Serialize(vt, LocalEntry(live)), target);
            && r.0
            && var again := BacklogMessage(r.1, queueDepth);
            && RereadPoints(vt, live.metrics, again.metrics)
            && again == live.(metrics := again.metrics, isBacklog := true, queueDepth := queueDepth)
  {
    hide RereadPoints, RereadSamples, ToSamples, ToPoints, SamplesReadable, Joinable, WholeMillis, Readable, Sized;
    hide Serialize, Deserialize, OneLine;
    RoundTripExact(vt, LocalEntry(live), target);
    PointsBack(vt, live.metrics);
  }

  /** Points turned into samples, read back and turned into points again. */
  lemma PointsBack<V>(vt: ValueText<V>, ps: seq<Point<V>>)
    requires Joinable(ps) && WholeMillis(ps) && SamplesReadable(vt, ToSamples(ps))
    ensures RereadPoints(vt, ps, ToPoints(RereadSamples(vt, ToSamples(ps))))
  {
    var ms := ToSamples(ps);
    var rs := RereadSamples(vt, ms);
    hide JoinMillis, SplitMillis, SamplesReadable, RereadSamples;
    forall i | 0 <= i < |ps|
      ensures Readable(vt, ps[i].value) && ToPoints(rs)[i] == ps[i].(value := vt.parse(vt.render(ps[i].value)).value)
    {
      RereadSampleAt(vt, ms, i);
    }
  }

  predicate ReadingsReadable<V>(vt: ValueText<V>, r: Readings<V>) {
    && Readable(vt, r.cpu) && Readable(vt, r.rx) && Readable(vt, r.tx)
    && Readable(vt, r.disk) && Readable(vt, r.memory) && Readable(vt, r.load)
  }

  /** The readings as their text denotes them. */
  function RereadReadings<V>(vt: ValueText<V>, r: Readings<V>): Readings<V>
    requires ReadingsReadable(vt, r)
  {
    Readings(RereadValue(vt, r.cpu), RereadValue(vt, r.rx), RereadValue(vt, r.tx), RereadValue(vt, r.disk),
             RereadValue(vt, r.memory), RereadValue(vt, r.load))
  }

  function RereadValue<V>(vt: ValueText<V>, v: V): V
    requires Readable(vt, v)
  {
    vt.parse(vt.render(v)).value
  }

  lemma RereadUnder<V>(vt: ValueText<V>, ps: seq<Point<V>>, rs: seq<Point<V>>, name: string, v: V)
    requires RereadPoints(vt, ps, rs) && Under(ps, name, v)
    ensures Readable(vt, v) && Under(rs, name, RereadValue(vt, v))
  {
    hide Readable;
    var i :| 0 <= i < |ps| && ps[i].name == name && ps[i].value == v &&
             forall j | 0 <= j < |ps| && j != i :: ps[j].name != name;
    assert rs[i].name == name && rs[i].value == RereadValue(vt, v);
    assert forall j | 0 <= j < |rs| && j != i :: rs[j].name != name;
  }

  /** Points that report the readings report, read back, the readings as they read back. */
  lemma RereadReports<V>(vt: ValueText<V>, cfg: AgentConfig, ts: int64, r: Readings<V>,
                         ps: seq<Point<V>>, rs: seq<Point<V>>)
    requires Reports(cfg, ts, r, ps) && RereadPoints(vt, ps, rs)
    ensures ReadingsReadable(vt, r) && Reports(cfg, ts, RereadReadings(vt, r), rs)
  {
    hide Under, Denotes, Readable, RereadValue;
    RereadUnder(vt, ps, rs, "system.cpu.utilization", r.cpu);
    RereadUnder(vt, ps, rs, "system.network.rx_bytes", r.rx);
    RereadUnder(vt, ps, rs, "system.network.tx_bytes", r.tx);
    RereadUnder(vt, ps, rs, "system.disk.io_rate", r.disk);
    RereadUnder(vt, ps, rs, "system.memory.usage_percent", r.memory);
    RereadUnder(vt, ps, rs, "system.load.1m", r.load);
  }

  /** The same for every message the agent builds, whose only condition is on its six values. */
  lemma LiveEndToEnd<V(!new)>(vt: ValueText<V>, cfg: AgentConfig, ts: int64, depth: int, batchSeq: int64,
                              r: Readings<V>, target: Batch<V>, queueDepth: int)
    requires OneLine(vt) && target.metrics == []
    requires Readable(vt, r.cpu) && Readable(vt, r.rx) && Readable(vt, r.tx)
    requires Readable(vt, r.disk) && Readable(vt, r.memory) && Readable(vt, r.load)
    ensures var live := LiveMessage(cfg, ts, depth, batchSeq, r);
            var (ok, popped) := Deserialize(vt, Serialize(vt, LocalEntry(live)), target);
            && ok
            && var again := BacklogMessage(popped, queueDepth);
            && RereadPoints(vt, live.metrics, again.metrics)
            && again == live.(metrics := again.metrics, isBacklog := true, queueDepth := queueDepth)
  {
    var live := LiveMessage(cfg, ts, depth, batchSeq, r);
    LiveSized(cfg, ts, depth, batchSeq, r);
    JoinSplit(ts);
    hide Serialize, Deserialize, SplitMillis, JoinMillis;
    assert forall i | 0 <= i < |live.metrics| ::
        live.metrics[i].timestamp == SplitMillis(ts) && Readable(vt, live.metrics[i].value);
    forall m | m in LocalEntry(live).metrics
      ensures SampleReadable(vt, m)
    {
      var i :| 0 <= i < |live.metrics| && m == LocalEntry(live).metrics[i];
      assert m.value == live.metrics[i].value;
    }
    EndToEnd(vt, live, target, queueDepth);
  }

  // ---------------------------------------------------------------- methods

  /** `build_proto_batch`; the readings are computed from procfs and event counts. */
  method BuildProtoBatch<V>(cfg: AgentConfig, ts: int64, queueDepth: int, isBacklog: bool, batchSeq: int64,
                            r: Readings<V>)
    returns (proto: ProtoBatch<V>)
    ensures proto == LiveMessage(cfg, ts, queueDepth, batchSeq, r).(isBacklog := isBacklog)
    ensures Reports(cfg, ts, r, proto.metrics)
    ensures proto.agentId == cfg.agentId && proto.hostname == cfg.hostname && proto.cluster == cfg.cluster
    ensures proto.batchSeq == batchSeq && proto.originalTimestampMs == ts
    ensures proto.isBacklog == isBacklog && proto.queueDepth == queueDepth
  {
    LiveReports(cfg, ts, r);
    hide Reports;
    proto := ProtoBatch(cfg.agentId, cfg.hostname, cfg.cluster, [], batchSeq, ts, isBacklog, queueDepth);
    var labels := map["source" := "cxx-agent", "host" := cfg.hostname, "tenantId" := cfg.tenantId];
    proto := AddPoint(proto, "system.cpu.utilization", r.cpu, ts, labels);
    proto := AddPoint(proto, "system.network.rx_bytes", r.rx, ts, labels);
    proto := AddPoint(proto, "system.network.tx_bytes", r.tx, ts, labels);
    proto := AddPoint(proto, "system.disk.io_rate", r.disk, ts, labels);
    proto := AddPoint(proto, "system.memory.usage_percent", r.memory, ts, labels);
    proto := AddPoint(proto, "system.load.1m", r.load, ts, labels);
  }

  method AddPoint<V>(proto: ProtoBatch<V>, name: string, value: V, ts: int64, labels: map<string, string>)
    returns (r: ProtoBatch<V>)
    ensures r == proto.(metrics := proto.metrics + [Point(name, value, SplitMillis(ts), labels)])
  {
    var timestamp := Timestamp(TruncDiv(ts, 1000), TruncMod(ts, 1000) * 1000000);
    r := proto.(metrics := proto.metrics + [Point(name, value, timestamp, labels)]);
  }

  method BuildLocalEntry<V>(cfg: AgentConfig, batchSeq: int64, batchStart: int64, points: seq<Point<V>>)
    returns (b: Batch<V>)
    requires Joinable(points)
    ensures b == Batch(cfg.agentId, cfg.hostname, cfg.cluster, ToSamples(points), batchSeq, batchStart, true)
  {
    b := Batch(cfg.agentId, cfg.hostname, cfg.cluster, [], batchSeq, batchStart, true);
    for i := 0 to |points|
      invariant b == Batch(cfg.agentId, cfg.hostname, cfg.cluster, ToSamples(points)[..i], batchSeq, batchStart, true)
    {
      var m := points[i];
      var ts := m.timestamp.seconds * 1000 + TruncDiv(m.timestamp.nanos, 1000000);
      var sample := Sample(m.name, m.value, ts, m.labels);
      b := b.(metrics := b.metrics + [sample]);
    }
  }

  method BuildBacklogMessage<V>(b: Batch<V>, queueDepth: int) returns (pb: ProtoBatch<V>)
    ensures pb == BacklogMessage(b, queueDepth)
  {
    pb := ProtoBatch(b.agentId, b.hostname, b.cluster, [], b.batchSeq, b.originalTimestampMs, true, queueDepth);
    for i := 0 to |b.metrics|
      invariant pb == BacklogMessage(b, queueDepth).(metrics := ToPoints(b.metrics)[..i])
    {
      var ms := b.metrics[i];
      var timestamp := Timestamp(TruncDiv(ms.timestampMs, 1000), TruncMod(ms.timestampMs, 1000) * 1000000);
      pb := pb.(metrics := pb.metrics + [Point(ms.name, ms.value, timestamp, ms.labels)]);
    }
  }
}
