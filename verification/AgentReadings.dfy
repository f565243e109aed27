/** What every message of the agent says: the readings of the iteration that gave it its number. */
module AgentReadings {
  import opened Agent
  import opened AgentContents
  import opened BatchCodec
  import opened Decimal
  import opened Drain
  import opened Protocol

  /** A live message of the iteration that has its number. */
  ghost predicate LiveOf<V>(cfg: AgentConfig, inputs: seq<Input<V>>, m: ProtoBatch<V>) {
    && 1 <= m.batchSeq <= |inputs| && !m.isBacklog
    && m.agentId == cfg.agentId && m.hostname == cfg.hostname && m.cluster == cfg.cluster
    && var input := inputs[m.batchSeq - 1];
       m.originalTimestampMs == input.ts && Reports(cfg, input.ts, input.readings, m.metrics)
  }

  /** A buffered batch of the iteration that has its number. */
  ghost predicate EntryIs<V>(cfg: AgentConfig, inputs: seq<Input<V>>, b: Batch<V>) {
    && 1 <= b.batchSeq <= |inputs| && b.isBacklog
    && b.agentId == cfg.agentId && b.hostname == cfg.hostname && b.cluster == cfg.cluster
    && var input := inputs[b.batchSeq - 1];
       b.originalTimestampMs == input.ts && Reports(cfg, input.ts, input.readings, ToPoints(b.metrics))
  }

  /**
   * A backlog message of the iteration that has its number: it ends with that
   * interval's six points, with their values as they read back.
   */
  ghost predicate BacklogOf<V>(vt: ValueText<V>, cfg: AgentConfig, inputs: seq<Input<V>>, m: ProtoBatch<V>) {
    && 1 <= m.batchSeq <= |inputs| && m.isBacklog
    && m.agentId == cfg.agentId && m.hostname == cfg.hostname && m.cluster == cfg.cluster
    && var input := inputs[m.batchSeq - 1];
       m.originalTimestampMs == input.ts && EndsWithReport(vt, cfg, input.ts, input.readings, m.metrics)
  }

  ghost predicate EndsWithReport<V>(vt: ValueText<V>, cfg: AgentConfig, ts: int64, r: Readings<V>, ps: seq<Point<V>>) {
    |ps| >= 6 && ReadingsReadable(vt, r) && Reports(cfg, ts, RereadReadings(vt, r), ps[|ps| - 6..])
  }

  ghost predicate Traced<V>(vt: ValueText<V>, cfg: AgentConfig, inputs: seq<Input<V>>, s: AgentState<V>) {
    && (forall i | 0 <= i < |s.queue| :: EntryIs(cfg, inputs, s.queue[i]))
    && (forall i | 0 <= i < |s.delivered| :: LiveOf(cfg, inputs, s.delivered[i]))
    && (forall i | 0 <= i < |s.messages| :: BacklogOf(vt, cfg, inputs, s.messages[i]))
  }

  lemma SamplesBack<V>(ps: seq<Point<V>>)
    requires Joinable(ps) && WholeMillis(ps)
    ensures ToPoints(ToSamples(ps)) == ps
  {
    hide SplitMillis, JoinMillis;
  }

  lemma MessageOf<V>(cfg: AgentConfig, inputs: seq<Input<V>>, depth: int, n: int64, input: Input<V>)
    requires 1 <= n <= |inputs| && inputs[n - 1] == input
    ensures var live := LiveMessage(cfg, input.ts, depth, n, input.readings);
            LiveOf(cfg, inputs, live) && EntryIs(cfg, inputs, LocalEntry(live))
  {
    var ps := LivePoints(cfg, input.ts, input.readings);
    LiveReports(cfg, input.ts, input.readings);
    SamplesBack(ps);
    hide *;
    LiveFields(cfg, input, depth, n);
    LiveFrom(cfg, inputs, ps, depth, n, input);
    EntryFrom(cfg, inputs, ToSamples(ps), n, input);
  }

  lemma LiveFrom<V>(cfg: AgentConfig, inputs: seq<Input<V>>, ps: seq<Point<V>>, depth: int, n: int64, input: Input<V>)
    requires 1 <= n <= |inputs| && inputs[n - 1] == input && Reports(cfg, input.ts, input.readings, ps)
    ensures LiveOf(cfg, inputs, ProtoBatch(cfg.agentId, cfg.hostname, cfg.cluster, ps, n, input.ts, false, depth))
  {
    hide Reports;
  }

  lemma EntryFrom<V>(cfg: AgentConfig, inputs: seq<Input<V>>, ms: seq<Sample<V>>, n: int64, input: Input<V>)
    requires 1 <= n <= |inputs| && inputs[n - 1] == input && Reports(cfg, input.ts, input.readings, ToPoints(ms))
    ensures EntryIs(cfg, inputs, Batch(cfg.agentId, cfg.hostname, cfg.cluster, ms, n, input.ts, true))
  {
    hide Reports, ToPoints;
  }

  lemma LiveFields<V>(cfg: AgentConfig, input: Input<V>, depth: int, n: int64)
    ensures var ps := LivePoints(cfg, input.ts, input.readings);
            && LiveMessage(cfg, input.ts, depth, n, input.readings) ==
               ProtoBatch(cfg.agentId, cfg.hostname, cfg.cluster, ps, n, input.ts, false, depth)
            && LocalEntry(LiveMessage(cfg, input.ts, depth, n, input.readings)) ==
               Batch(cfg.agentId, cfg.hostname, cfg.cluster, ToSamples(ps), n, input.ts, true)
  {
    hide LivePoints, ToSamples, JoinMillis;
  }

  /** The points of a batch as they read back. */
  lemma RereadEnd<V>(vt: ValueText<V>, ms: seq<Sample<V>>)
    requires SamplesReadable(vt, ms)
    ensures RereadPoints(vt, ToPoints(ms), ToPoints(RereadSamples(vt, ms)))
  {
    var rs := RereadSamples(vt, ms);
    hide SplitMillis, SamplesReadable, RereadSamples;
    forall i | 0 <= i < |ms|
      ensures Readable(vt, ms[i].value) &&
              ToPoints(rs)[i] == ToPoints(ms)[i].(value := vt.parse(vt.render(ms[i].value)).value)
    {
      RereadSampleAt(vt, ms, i);
    }
  }

  lemma SixthsEnd<V>(vt: ValueText<V>, cfg: AgentConfig, ts: int64, r: Readings<V>, ms: seq<Sample<V>>,
                     carried: seq<Sample<V>>)
    requires SamplesReadable(vt, ms) && Reports(cfg, ts, r, ToPoints(ms))
    ensures EndsWithReport(vt, cfg, ts, r, ToPoints(carried + RereadSamples(vt, ms)))
  {
    var own, rs := ToPoints(ms), RereadSamples(vt, ms);
    RereadEnd(vt, ms);
    RereadReports(vt, cfg, ts, r, own, ToPoints(rs));
    SixPoints(cfg, ts, RereadReadings(vt, r), ToPoints(rs));
    PointsSplit(carried, rs);
    hide Reports, RereadPoints, ToPoints, RereadSamples, SamplesReadable, ReadingsReadable, RereadReadings;
    var all := ToPoints(carried) + ToPoints(rs);
    assert all[|all| - 6..] == ToPoints(rs);
  }

  lemma SixPoints<V>(cfg: AgentConfig, ts: int64, r: Readings<V>, ps: seq<Point<V>>)
    requires Reports(cfg, ts, r, ps)
    ensures |ps| == 6
  {}

  lemma PointsSplit<V>(a: seq<Sample<V>>, b: seq<Sample<V>>)
    ensures ToPoints(a + b) == ToPoints(a) + ToPoints(b)
  {
    hide ToPoint;
  }

  /** A message popped onto other samples still ends with its own batch's points. */
  lemma PoppedEnds<V>(vt: ValueText<V>, cfg: AgentConfig, inputs: seq<Input<V>>, b: Batch<V>, carried: seq<Sample<V>>,
                      queueDepth: int)
    requires EntryIs(cfg, inputs, b) && BatchReadable(vt, b)
    ensures BacklogOf(vt, cfg, inputs, BacklogMessage(ReadOnto(vt, b, carried), queueDepth))
  {
    hide Reports, ToPoints, RereadSamples, SamplesReadable, EndsWithReport;
    var input := inputs[b.batchSeq - 1];
    SixthsEnd(vt, cfg, input.ts, input.readings, b.metrics, carried);
  }

  lemma DrainedOf<V>(vt: ValueText<V>, cfg: AgentConfig, inputs: seq<Input<V>>, queue: seq<Batch<V>>, o: Outcomes,
                     k: nat)
    requires forall i | 0 <= i < |queue| :: EntryIs(cfg, inputs, queue[i])
    requires k < |DrainFrom(vt, queue, [], 0, o).messages|
    ensures BacklogOf(vt, cfg, inputs, DrainFrom(vt, queue, [], 0, o).messages[k])
  {
    hide DrainFrom, EntryIs, BacklogOf, BatchReadable, ReadOnto, BacklogMessage;
    DrainSplits(vt, queue, [], 0, o);
    DrainContents(vt, queue, [], 0, o, k);
    var r := DrainFrom(vt, queue, [], 0, o);
    assert r.sent[k] == queue[k];
    PoppedEnds(vt, cfg, inputs, r.sent[k], [] + AllSamples(vt, r.sent[..k]), |queue| - k - 1);
  }

  lemma MoreTraced<V>(vt: ValueText<V>, cfg: AgentConfig, inputs: seq<Input<V>>, s: AgentState<V>, t: AgentState<V>,
                      j: nat, more: seq<ProtoBatch<V>>)
    requires Traced(vt, cfg, inputs, s) && j <= |s.queue|
    requires t.queue == s.queue[j..] && t.delivered == s.delivered && t.messages == s.messages + more
    requires forall k | 0 <= k < |more| :: BacklogOf(vt, cfg, inputs, more[k])
    ensures Traced(vt, cfg, inputs, t)
  {
    hide EntryIs, BacklogOf, LiveOf;
  }

  lemma DrainTraced<V>(vt: ValueText<V>, cfg: AgentConfig, inputs: seq<Input<V>>, s: AgentState<V>, input: Input<V>)
    requires Traced(vt, cfg, inputs, s)
    ensures Traced(vt, cfg, inputs, DrainPhase(vt, s, input))
  {
    var j := DrainLeavesTail(vt, s, input);
    var r := Streamed(vt, s.queue, input.streamOpen, input.outcomes);
    var more := if s.connected && s.queue != [] then r.messages else [];
    forall k | 0 <= k < |more|
      ensures BacklogOf(vt, cfg, inputs, more[k])
    {
      hide DrainFrom, EntryIs, BacklogOf, LiveOf;
      DrainedOf(vt, cfg, inputs, s.queue, input.outcomes, k);
    }
    hide DrainFrom, LossesOf, Streamed, Traced, EntryIs, BacklogOf, LiveOf;
    MoreTraced(vt, cfg, inputs, s, DrainPhase(vt, s, input), j, more);
  }

  lemma SendTraced<V>(vt: ValueText<V>, cfg: AgentConfig, inputs: seq<Input<V>>, s: AgentState<V>, n: int64,
                      live: ProtoBatch<V>, sendOk: bool)
    requires Traced(vt, cfg, inputs, s) && LiveOf(cfg, inputs, live)
    requires Joinable(live.metrics) && EntryIs(cfg, inputs, LocalEntry(live))
    ensures Traced(vt, cfg, inputs, SendPhase(vt, s.(batchSeq := n), live, sendOk))
  {
    hide Accepts, EntryIs, BacklogOf, LiveOf;
  }

  lemma NextTraced<V>(vt: ValueText<V>, cfg: AgentConfig, inputs: seq<Input<V>>, s: AgentState<V>, input: Input<V>,
                      n: int64)
    requires Traced(vt, cfg, inputs, s) && n == NextSeq(s.batchSeq)
    requires 1 <= n <= |inputs| && inputs[n - 1] == input
    ensures Traced(vt, cfg, inputs, Step(vt, cfg, s, input))
  {
    hide *;
    var live := LiveMessage(cfg, input.ts, |s.queue|, n, input.readings);
    StepPhases(vt, cfg, s, input);
    MessageOf(cfg, inputs, |s.queue|, n, input);
    DrainTraced(vt, cfg, inputs, s, input);
    SendTraced(vt, cfg, inputs, DrainPhase(vt, s, input), n, live, input.sendOk);
  }

  lemma StepTraced<V>(vt: ValueText<V>, cfg: AgentConfig, inputs: seq<Input<V>>, s: AgentState<V>)
    requires Traced(vt, cfg, inputs, s) && 0 <= s.batchSeq < |inputs| <= INT64_MAX
    ensures Traced(vt, cfg, inputs, Step(vt, cfg, s, inputs[s.batchSeq]))
    ensures Step(vt, cfg, s, inputs[s.batchSeq]).batchSeq == s.batchSeq + 1
  {
    var input := inputs[s.batchSeq];
    NextTraced(vt, cfg, inputs, s, input, NextSeq(s.batchSeq));
    StepAccounts(vt, cfg, s, input);
    hide Traced, Step, Accounted;
  }

  lemma {:induction false} RestTraced<V>(vt: ValueText<V>, cfg: AgentConfig, inputs: seq<Input<V>>, s: AgentState<V>)
    requires Traced(vt, cfg, inputs, s) && 0 <= s.batchSeq <= |inputs| <= INT64_MAX
    ensures Traced(vt, cfg, inputs, Run(vt, cfg, s, inputs[s.batchSeq..]))
    decreases |inputs| - s.batchSeq
  {
    hide Step, Traced;
    if s.batchSeq < |inputs| {
      StepTraced(vt, cfg, inputs, s);
      var rest := inputs[s.batchSeq..];
      assert rest[0] == inputs[s.batchSeq] && rest[1..] == inputs[s.batchSeq + 1..];
      RestTraced(vt, cfg, inputs, Step(vt, cfg, s, inputs[s.batchSeq]));
    }
  }

  /**
   * After any run from an empty buffer, every message acknowledged live, every
   * buffered batch and the end of every backlog message carries, under each of
   * the six names, the reading of the iteration that gave it its number.
   */
  lemma RunCarriesReadings<V>(vt: ValueText<V>, cfg: AgentConfig, capacity: nat, connected: bool, inputs: seq<Input<V>>)
    requires |inputs| <= INT64_MAX
    ensures var t := Run(vt, cfg, Start(capacity, connected), inputs);
            && (forall i | 0 <= i < |t.delivered| :: LiveOf(cfg, inputs, t.delivered[i]))
            && (forall i | 0 <= i < |t.queue| :: EntryIs(cfg, inputs, t.queue[i]))
            && (forall i | 0 <= i < |t.messages| :: BacklogOf(vt, cfg, inputs, t.messages[i]))
  {
    hide Run, LiveOf, EntryIs, BacklogOf;
    var s: AgentState<V> := Start(capacity, connected);
    assert inputs[0..] == inputs;
    RestTraced(vt, cfg, inputs, s);
  }
}
