/** When the agent loses a batch, and why, over every run. */
module AgentLosses {
  import opened Agent
  import opened AgentContents
  import opened BatchCodec
  import opened Decimal
  import opened Drain
  import opened Protocol
  import opened RingBytes
  import opened Wrappers

  // --------------------------------------------------------------- unreadable

  ghost predicate NoneUnreadable(losses: seq<Loss>) {
    forall i | 0 <= i < |losses| :: losses[i].cause != Unreadable
  }

  /** A saved batch reads back exactly when each of the six values of its interval does. */
  lemma LiveReadable<V>(vt: ValueText<V>, cfg: AgentConfig, ts: int64, depth: int, batchSeq: int64, r: Readings<V>)
    ensures BatchReadable(vt, LocalEntry(LiveMessage(cfg, ts, depth, batchSeq, r))) <==> ReadingsReadable(vt, r)
  {
    hide Readable, SplitMillis, JoinMillis;
    var ps := LivePoints(cfg, ts, r);
    var ms := ToSamples(ps);
    assert |ms| == 6;
    assert ms[0].value == r.cpu && ms[1].value == r.rx && ms[2].value == r.tx;
    assert ms[3].value == r.disk && ms[4].value == r.memory && ms[5].value == r.load;
    assert forall m | m in ms :: m == ms[0] || m == ms[1] || m == ms[2] || m == ms[3] || m == ms[4] || m == ms[5];
    assert forall i | 0 <= i < 6 :: ms[i] in ms;
    assert SamplesReadable(vt, ms) <==> forall i | 0 <= i < 6 :: SampleReadable(vt, ms[i]);
  }

  /** Nothing lost so far was unreadable, and nothing buffered is. */
  ghost predicate Legible<V>(vt: ValueText<V>, s: AgentState<V>) {
    NoneUnreadable(s.losses) && AllReadable(vt, s.queue)
  }

  lemma DrainLosesLegible<V>(vt: ValueText<V>, queue: seq<Batch<V>>, o: Outcomes)
    requires AllReadable(vt, queue)
    ensures NoneUnreadable(LossesOf(DrainFrom(vt, queue, [], 0, o)))
  {
    DrainSplits(vt, queue, [], 0, o);
    DrainCauses(vt, queue, [], 0, o);
    hide DrainFrom, BatchReadable;
    var r := DrainFrom(vt, queue, [], 0, o);
    if r.lost.Some? {
      assert r.lost.value.0 == queue[|r.sent|];
    }
  }

  lemma DrainKeepsLegible<V>(vt: ValueText<V>, s: AgentState<V>, input: Input<V>)
    requires Legible(vt, s)
    ensures Legible(vt, DrainPhase(vt, s, input))
  {
    DrainLosesLegible(vt, s.queue, input.outcomes);
    var j := DrainLeavesTail(vt, s, input);
    hide DrainFrom, BatchReadable;
  }

  lemma SendKeepsLegible<V>(vt: ValueText<V>, s: AgentState<V>, live: ProtoBatch<V>, sendOk: bool)
    requires Legible(vt, s) && Joinable(live.metrics) && BatchReadable(vt, LocalEntry(live))
    ensures Legible(vt, SendPhase(vt, s, live, sendOk))
  {
    hide Accepts, BatchReadable;
  }

  lemma StepKeepsLegible<V>(vt: ValueText<V>, cfg: AgentConfig, s: AgentState<V>, input: Input<V>)
    requires Legible(vt, s) && ReadingsReadable(vt, input.readings)
    ensures Legible(vt, Step(vt, cfg, s, input))
  {
    var n := NextSeq(s.batchSeq);
    var live := LiveMessage(cfg, input.ts, |s.queue|, n, input.readings);
    LiveReadable(vt, cfg, input.ts, |s.queue|, n, input.readings);
    StepPhases(vt, cfg, s, input);
    hide Step, DrainPhase, SendPhase, LivePoints, NoneUnreadable, AllReadable, BatchReadable;
    DrainKeepsLegible(vt, s, input);
    SendKeepsLegible(vt, DrainPhase(vt, s, input).(batchSeq := n), live, input.sendOk);
  }

  /** A run whose own readings read back never loses a batch because it could not be read. */
  lemma {:induction false} RunNeverUnreadable<V>(vt: ValueText<V>, cfg: AgentConfig, s: AgentState<V>,
                                                 inputs: seq<Input<V>>)
    requires NoneUnreadable(s.losses) && AllReadable(vt, s.queue)
    requires forall i | 0 <= i < |inputs| :: ReadingsReadable(vt, inputs[i].readings)
    ensures var t := Run(vt, cfg, s, inputs);
            NoneUnreadable(t.losses) && AllReadable(vt, t.queue)
    decreases |inputs|
  {
    hide Step, NoneUnreadable, AllReadable, ReadingsReadable;
    if inputs != [] {
      StepKeepsLegible(vt, cfg, s, inputs[0]);
      RunNeverUnreadable(vt, cfg, Step(vt, cfg, s, inputs[0]), inputs[1..]);
    }
  }

  // ------------------------------------------------------------------ lossless

  /** Every buffered batch is read, wanted and accepted. */
  ghost predicate AllWritten<V>(vt: ValueText<V>, queue: seq<Batch<V>>, o: Outcomes) {
    forall k | 0 <= k < |queue| :: Written(vt, queue[k], k, o)
  }

  ghost predicate CleanDrain<V>(vt: ValueText<V>, s: AgentState<V>, input: Input<V>) {
    s.connected && input.streamOpen ==> AllWritten(vt, s.queue, input.outcomes)
  }

  ghost function EntryBytes<V>(vt: ValueText<V>, cfg: AgentConfig, n: int64, input: Input<V>): nat {
    EntrySize(vt, EntryOf(cfg, n, input))
  }

  /** An iteration in which the drain gets everything through, and a failed batch finds room. */
  ghost predicate CleanStep<V>(vt: ValueText<V>, cfg: AgentConfig, s: AgentState<V>, input: Input<V>) {
    && CleanDrain(vt, s, input)
    && (input.sendOk ||
        Accepts(vt, s.capacity, DrainPhase(vt, s, input).queue, EntryOf(cfg, NextSeq(s.batchSeq), input)))
  }

  ghost predicate CleanRun<V>(vt: ValueText<V>, cfg: AgentConfig, s: AgentState<V>, inputs: seq<Input<V>>)
    decreases |inputs|
  {
    inputs == [] || (CleanStep(vt, cfg, s, inputs[0]) && CleanRun(vt, cfg, Step(vt, cfg, s, inputs[0]), inputs[1..]))
  }

  lemma DrainLosesNothingExactly<V>(vt: ValueText<V>, queue: seq<Batch<V>>, o: Outcomes)
    ensures DrainFrom(vt, queue, [], 0, o).lost == None <==> AllWritten(vt, queue, o)
  {
    hide DrainFrom, Written, EndCause;
    DrainSplits(vt, queue, [], 0, o);
    DrainCauses(vt, queue, [], 0, o);
    var r := DrainFrom(vt, queue, [], 0, o);
    var sent := r.sent;
    if r.lost.Some? {
      var b := r.lost.value.0;
      assert queue == sent + [b] + r.left;
      assert queue[|sent|] == b;
    } else {
      assert queue == sent;
    }
  }

  lemma DrainPhaseLosses<V>(vt: ValueText<V>, s: AgentState<V>, input: Input<V>)
    ensures s.losses <= DrainPhase(vt, s, input).losses
    ensures DrainPhase(vt, s, input).losses == s.losses <==> CleanDrain(vt, s, input)
  {
    hide DrainFrom, Written;
    DrainLosesNothingExactly(vt, s.queue, input.outcomes);
  }

  lemma SendPhaseLosses<V>(vt: ValueText<V>, s: AgentState<V>, live: ProtoBatch<V>, sendOk: bool)
    requires Joinable(live.metrics)
    ensures s.losses <= SendPhase(vt, s, live, sendOk).losses
    ensures SendPhase(vt, s, live, sendOk).losses == s.losses <==>
            sendOk || Accepts(vt, s.capacity, s.queue, LocalEntry(live))
  {
    hide Accepts;
  }

  /** Losses are only ever added, and an iteration adds none exactly when it is clean. */
  lemma StepLosesNothingExactly<V>(vt: ValueText<V>, cfg: AgentConfig, s: AgentState<V>, input: Input<V>)
    ensures s.losses <= Step(vt, cfg, s, input).losses
    ensures Step(vt, cfg, s, input).losses == s.losses <==> CleanStep(vt, cfg, s, input)
  {
    var n := NextSeq(s.batchSeq);
    var live := LiveMessage(cfg, input.ts, |s.queue|, n, input.readings);
    EntryIgnoresDepth(cfg, |s.queue|, n, input);
    StepPhases(vt, cfg, s, input);
    DrainPhaseLosses(vt, s, input);
    var j := DrainLeavesTail(vt, s, input);
    hide Step, DrainPhase, SendPhase, LivePoints, Accepts, CleanDrain, EntryOf, LocalEntry;
    SendPhaseLosses(vt, DrainPhase(vt, s, input).(batchSeq := n), live, input.sendOk);
  }

  /** A run loses nothing exactly when each of its iterations is clean. */
  lemma {:induction false} RunLosesNothingExactly<V>(vt: ValueText<V>, cfg: AgentConfig, s: AgentState<V>,
                                                     inputs: seq<Input<V>>)
    ensures s.losses <= Run(vt, cfg, s, inputs).losses
    ensures Run(vt, cfg, s, inputs).losses == s.losses <==> CleanRun(vt, cfg, s, inputs)
    decreases |inputs|
  {
    hide Step, CleanStep;
    if inputs != [] {
      StepLosesNothingExactly(vt, cfg, s, inputs[0]);
      RunLosesNothingExactly(vt, cfg, Step(vt, cfg, s, inputs[0]), inputs[1..]);
    }
  }

  // ------------------------------------------------- conditions on the outside

  /** Nothing stops the agent, every write is accepted, and the values read back. */
  ghost predicate Steady<V>(vt: ValueText<V>, input: Input<V>) {
    && (forall k: nat :: input.outcomes.running(k) && input.outcomes.writeOk(k))
    && ReadingsReadable(vt, input.readings)
  }

  /** Even if every send fails, the batches of the run fit on top of the bytes in use. */
  ghost predicate Roomy<V>(vt: ValueText<V>, cfg: AgentConfig, capacity: nat, used: nat, n: int64,
                           inputs: seq<Input<V>>)
    decreases |inputs|
  {
    inputs == [] ||
    var size := EntryBytes(vt, cfg, NextSeq(n), inputs[0]);
    && size <= capacity / 4 && used + size <= capacity
    && Roomy(vt, cfg, capacity, used + size, NextSeq(n), inputs[1..])
  }

  ghost function Used<V>(vt: ValueText<V>, s: AgentState<V>): nat {
    |Frames(Printed(vt, s.queue))|
  }

  lemma SteadyDrain<V>(vt: ValueText<V>, s: AgentState<V>, input: Input<V>)
    requires AllReadable(vt, s.queue) && Steady(vt, input)
    ensures CleanDrain(vt, s, input) && Used(vt, DrainPhase(vt, s, input)) <= Used(vt, s)
  {
    var j := DrainLeavesTail(vt, s, input);
    hide DrainPhase, Printed, Frames, BatchReadable, ReadingsReadable;
    TailTakesLess(vt, s.queue, j);
  }

  lemma AcceptedUses<V>(vt: ValueText<V>, s: AgentState<V>, b: Batch<V>)
    requires EntrySize(vt, b) <= s.capacity / 4 && Used(vt, s) + EntrySize(vt, b) <= s.capacity
    ensures Accepts(vt, s.capacity, s.queue, b)
    ensures Used(vt, BufferBatch(vt, s, b)) == Used(vt, s) + EntrySize(vt, b)
  {
    PrintedAppend(vt, s.queue, b);
    FramesAppend(Printed(vt, s.queue), Serialize(vt, b));
    hide Printed, Frames, Serialize;
  }

  lemma SteadyStep<V>(vt: ValueText<V>, cfg: AgentConfig, s: AgentState<V>, input: Input<V>)
    requires AllReadable(vt, s.queue) && Steady(vt, input)
    requires var size := EntryBytes(vt, cfg, NextSeq(s.batchSeq), input);
             size <= s.capacity / 4 && Used(vt, s) + size <= s.capacity
    ensures var t := Step(vt, cfg, s, input);
            && CleanStep(vt, cfg, s, input)
            && Used(vt, t) <= Used(vt, s) + EntryBytes(vt, cfg, NextSeq(s.batchSeq), input)
            && t.capacity == s.capacity && t.batchSeq == NextSeq(s.batchSeq)
  {
    hide Step, DrainPhase, LivePoints, EntryOf, LocalEntry, AllReadable, Printed, Frames, Steady, CleanDrain, EntrySize;
    hide Joinable, SplitMillis, JoinMillis;
    var n := NextSeq(s.batchSeq);
    var live := LiveMessage(cfg, input.ts, |s.queue|, n, input.readings);
    EntryIgnoresDepth(cfg, |s.queue|, n, input);
    StepPhases(vt, cfg, s, input);
    StepOutcome(vt, cfg, s, input);
    var j := DrainLeavesTail(vt, s, input);
    SteadyDrain(vt, s, input);
    var drained := DrainPhase(vt, s, input).(batchSeq := n, connected := false);
    assert Used(vt, drained) <= Used(vt, s);
    AcceptedUses(vt, drained, LocalEntry(live));
  }

  /** What is buffered stays readable, whatever was lost before. */
  lemma StepKeepsReadable<V>(vt: ValueText<V>, cfg: AgentConfig, s: AgentState<V>, input: Input<V>)
    requires AllReadable(vt, s.queue) && ReadingsReadable(vt, input.readings)
    ensures AllReadable(vt, Step(vt, cfg, s, input).queue)
  {
    var n := NextSeq(s.batchSeq);
    var live := LiveMessage(cfg, input.ts, |s.queue|, n, input.readings);
    LiveReadable(vt, cfg, input.ts, |s.queue|, n, input.readings);
    StepPhases(vt, cfg, s, input);
    var j := DrainLeavesTail(vt, s, input);
    hide Step, DrainPhase, LivePoints, LocalEntry, BatchReadable, Accepts;
  }

  /**
   * A run that is never stopped, whose writes are accepted, whose readings read
   * back and whose batches fit loses nothing, whatever its sends do.
   */
  lemma {:induction false} SteadyRunLosesNothing<V>(vt: ValueText<V>, cfg: AgentConfig, s: AgentState<V>,
                                                    used: nat, inputs: seq<Input<V>>)
    requires AllReadable(vt, s.queue) && Used(vt, s) <= used && Roomy(vt, cfg, s.capacity, used, s.batchSeq, inputs)
    requires forall i | 0 <= i < |inputs| :: Steady(vt, inputs[i])
    ensures Run(vt, cfg, s, inputs).losses == s.losses
    decreases |inputs|
  {
    hide Step, CleanStep, Used, EntryBytes, AllReadable, ReadingsReadable;
    if inputs != [] {
      var input, size := inputs[0], EntryBytes(vt, cfg, NextSeq(s.batchSeq), inputs[0]);
      assert Steady(vt, input);
      SteadyStep(vt, cfg, s, input);
      StepKeepsReadable(vt, cfg, s, input);
      StepLosesNothingExactly(vt, cfg, s, input);
      hide Steady;
      SteadyRunLosesNothing(vt, cfg, Step(vt, cfg, s, input), used + size, inputs[1..]);
    }
  }
}
