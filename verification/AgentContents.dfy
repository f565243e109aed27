/** What the agent's buffer and its backlog messages contain, over every run. */
module AgentContents {
  import opened Agent
  import opened BatchCodec
  import opened Decimal
  import opened Drain
  import opened Protocol
  import opened RingBytes

  const METRIC_NAMES: seq<string> := [
    "system.cpu.utilization", "system.network.rx_bytes", "system.network.tx_bytes",
    "system.disk.io_rate", "system.memory.usage_percent", "system.load.1m"]

  /** A batch this agent built: its own identity, the six points of one interval, all stamped with its time. */
  ghost predicate Built<V>(cfg: AgentConfig, b: Batch<V>) {
    && b.agentId == cfg.agentId && b.hostname == cfg.hostname && b.cluster == cfg.cluster && b.isBacklog
    && |b.metrics| == |METRIC_NAMES|
    && forall i | 0 <= i < |b.metrics| ::
         && b.metrics[i].name == METRIC_NAMES[i]
         && b.metrics[i].timestampMs == b.originalTimestampMs
         && b.metrics[i].labels == BaseLabels(cfg)
  }

  ghost predicate AllBuilt<V>(cfg: AgentConfig, bs: seq<Batch<V>>) {
    forall i | 0 <= i < |bs| :: Built(cfg, bs[i])
  }

  /** The buffer holds batches of this agent only, and they fit. */
  ghost predicate Sound<V>(vt: ValueText<V>, cfg: AgentConfig, s: AgentState<V>) {
    AllBuilt(cfg, s.queue) && WithinCapacity(vt, s)
  }

  lemma LiveBuilt<V>(cfg: AgentConfig, ts: int64, depth: int, batchSeq: int64, r: Readings<V>)
    ensures Built(cfg, LocalEntry(LiveMessage(cfg, ts, depth, batchSeq, r)))
  {
    JoinSplit(ts);
  }

  /** A drain leaves a tail of the queue. */
  lemma DrainLeavesTail<V>(vt: ValueText<V>, s: AgentState<V>, input: Input<V>) returns (j: nat)
    ensures j <= |s.queue| && DrainPhase(vt, s, input).queue == s.queue[j..]
    ensures DrainPhase(vt, s, input).capacity == s.capacity
  {
    j := 0;
    if s.connected && s.queue != [] && input.streamOpen {
      DrainSplits(vt, s.queue, [], 0, input.outcomes);
      hide DrainFrom;
      var r := DrainFrom(vt, s.queue, [], 0, input.outcomes);
      j := |r.sent + LostPart(r)|;
    }
  }

  lemma {:induction false} TailTakesLess<V>(vt: ValueText<V>, queue: seq<Batch<V>>, j: nat)
    requires j <= |queue|
    ensures |Frames(Printed(vt, queue[j..]))| <= |Frames(Printed(vt, queue))|
    decreases j
  {
    if j == 0 {
      assert queue[0..] == queue;
    } else {
      PrintedTail(vt, queue);
      FramesTail(Printed(vt, queue));
      hide Printed, Frames;
      TailTakesLess(vt, queue[1..], j - 1);
      assert queue[1..][j - 1..] == queue[j..];
    }
  }

  lemma TailBuilt<V>(cfg: AgentConfig, queue: seq<Batch<V>>, j: nat)
    requires j <= |queue| && AllBuilt(cfg, queue)
    ensures AllBuilt(cfg, queue[j..])
  {
    hide Built;
  }

  lemma DrainKeepsSound<V>(vt: ValueText<V>, cfg: AgentConfig, s: AgentState<V>, input: Input<V>)
    requires Sound(vt, cfg, s)
    ensures Sound(vt, cfg, DrainPhase(vt, s, input))
  {
    var j := DrainLeavesTail(vt, s, input);
    hide DrainPhase, AllBuilt, Printed, Frames;
    TailBuilt(cfg, s.queue, j);
    TailTakesLess(vt, s.queue, j);
  }

  lemma BufferKeepsSound<V>(vt: ValueText<V>, cfg: AgentConfig, s: AgentState<V>, b: Batch<V>)
    requires Sound(vt, cfg, s) && Built(cfg, b)
    ensures Sound(vt, cfg, BufferBatch(vt, s, b))
  {
    hide Serialize, Built, Frames;
    PrintedAppend(vt, s.queue, b);
    FramesAppend(Printed(vt, s.queue), Serialize(vt, b));
    if s.queue != [] {
      PrintedTail(vt, s.queue);
      FramesTail(Printed(vt, s.queue));
      PrintedAppend(vt, s.queue[1..], b);
      FramesAppend(Printed(vt, s.queue[1..]), Serialize(vt, b));
    }
  }

  lemma SendKeepsSound<V>(vt: ValueText<V>, cfg: AgentConfig, s: AgentState<V>, live: ProtoBatch<V>, sendOk: bool)
    requires Sound(vt, cfg, s) && Joinable(live.metrics) && Built(cfg, LocalEntry(live))
    ensures Sound(vt, cfg, SendPhase(vt, s, live, sendOk))
  {
    hide BufferBatch, AllBuilt, Built, Frames, Printed;
    BufferKeepsSound(vt, cfg, s.(connected := false), LocalEntry(live));
  }

  lemma StepKeepsSound<V>(vt: ValueText<V>, cfg: AgentConfig, s: AgentState<V>, input: Input<V>)
    requires Sound(vt, cfg, s)
    ensures Sound(vt, cfg, Step(vt, cfg, s, input))
  {
    var n := NextSeq(s.batchSeq);
    var live := LiveMessage(cfg, input.ts, |s.queue|, n, input.readings);
    LiveBuilt(cfg, input.ts, |s.queue|, n, input.readings);
    StepPhases(vt, cfg, s, input);
    hide Step, DrainPhase, SendPhase, LivePoints, AllBuilt, Built, Frames, Printed;
    DrainKeepsSound(vt, cfg, s, input);
    SendKeepsSound(vt, cfg, DrainPhase(vt, s, input).(batchSeq := n), live, input.sendOk);
  }

  /** In every reachable state the buffer holds this agent's batches and never more than the region. */
  lemma {:induction false} RunKeepsSound<V>(vt: ValueText<V>, cfg: AgentConfig, s: AgentState<V>, inputs: seq<Input<V>>)
    requires Sound(vt, cfg, s)
    ensures Sound(vt, cfg, Run(vt, cfg, s, inputs))
    decreases |inputs|
  {
    hide Step, Sound;
    if inputs != [] {
      StepKeepsSound(vt, cfg, s, inputs[0]);
      RunKeepsSound(vt, cfg, Step(vt, cfg, s, inputs[0]), inputs[1..]);
    }
  }

  lemma {:induction false} AllSamplesCount<V>(vt: ValueText<V>, cfg: AgentConfig, bs: seq<Batch<V>>)
    requires AllReadable(vt, bs) && AllBuilt(cfg, bs)
    ensures |AllSamples(vt, bs)| == 6 * |bs|
  {
    if bs != [] {
      assert Built(cfg, bs[0]);
      AllSamplesCount(vt, cfg, bs[1..]);
    }
  }

  /**
   * The k-th message of a drain carries 6 * (k + 1) points: those of every batch
   * sent before it, then its own. Only the first message is the buffered batch.
   */
  lemma DrainRepeatsSamples<V>(vt: ValueText<V>, cfg: AgentConfig, queue: seq<Batch<V>>, o: Outcomes, k: nat)
    requires AllBuilt(cfg, queue) && k < |DrainFrom(vt, queue, [], 0, o).messages|
    ensures var r := DrainFrom(vt, queue, [], 0, o);
            && |r.messages[k].metrics| == 6 * (k + 1)
            && k < |r.sent| && k < |queue| && r.sent[k] == queue[k] && BatchReadable(vt, queue[k])
            && (r.messages[k] == BacklogMessage(Reread(vt, queue[k]), |queue| - k - 1) <==> k == 0)
  {
    hide DrainFrom, Reread, BatchReadable;
    DrainSplits(vt, queue, [], 0, o);
    DrainContents(vt, queue, [], 0, o, k);
    MessageFaithful(vt, queue, o, k);
    var r := DrainFrom(vt, queue, [], 0, o);
    var sent := r.sent;
    hide LostPart;
    assert forall j | 0 <= j <= k :: sent[j] == queue[j] && Built(cfg, queue[j]);
    AllSamplesCount(vt, cfg, sent[..k]);
    RereadKeepsSize(vt, sent[k]);
    if k > 0 {
      assert Built(cfg, sent[0]) && |sent[0].metrics| == 6;
    }
  }

  lemma RereadKeepsSize<V>(vt: ValueText<V>, b: Batch<V>)
    requires BatchReadable(vt, b)
    ensures |Reread(vt, b).metrics| == |b.metrics|
  {}
}
