/** The main loop of services/cxx-agent/src/main.cpp over the byte-level buffer. */
module AgentLoop {
  import opened Agent
  import opened BatchCodec
  import opened Decimal
  import opened Drain
  import opened Protocol
  import opened RingBuffer
  import opened RingBytes

  /** The quarter rule does not let a batch through whose size overflows the 32-bit prefix. */
  ghost predicate Storable<V>(vt: ValueText<V>, capacity: nat, b: Batch<V>) {
    EntrySize(vt, b) <= capacity / 4 ==> |Serialize(vt, b)| < TWO_32
  }

  /** So for every batch of a run that its live send does not take. */
  ghost predicate AllStorable<V>(vt: ValueText<V>, cfg: AgentConfig, capacity: nat, n: int64, inputs: seq<Input<V>>)
    decreases |inputs|
  {
    inputs == [] ||
    (&& (inputs[0].sendOk || Storable(vt, capacity, EntryOf(cfg, NextSeq(n), inputs[0])))
     && AllStorable(vt, cfg, capacity, NextSeq(n), inputs[1..]))
  }

  /** Below 16 GiB every run is. */
  lemma {:induction false} SmallRegionStorable<V>(vt: ValueText<V>, cfg: AgentConfig, capacity: nat, n: int64,
                                                  inputs: seq<Input<V>>)
    requires capacity / 4 < TWO_32 + 4
    ensures AllStorable(vt, cfg, capacity, n, inputs)
    decreases |inputs|
  {
    hide Serialize, EntryOf;
    if inputs != [] {
      SmallRegionStorable(vt, cfg, capacity, NextSeq(n), inputs[1..]);
    }
  }

  class MainLoop<V(!new)> {
    const cfg: AgentConfig
    const localBuffer: MMapRingBuffer<V>
    var collectorConnected: bool
    var batchSeq: int64

    // What the buffer holds, and the history of the run.
    ghost var queue: seq<Batch<V>>
    ghost var delivered: seq<ProtoBatch<V>>
    ghost var messages: seq<ProtoBatch<V>>
    ghost var losses: seq<Loss>

    ghost predicate Valid()
      reads this, localBuffer, localBuffer.data
    {
      Holds(localBuffer, queue) && OneLine(localBuffer.vt)
    }

    ghost function State(): AgentState<V>
      reads this
    {
      AgentState(localBuffer.data.Length, collectorConnected, batchSeq, queue, delivered, messages, losses)
    }

    /** A process starts with whatever an earlier one left in the buffer, and numbers from 1 again. */
    constructor (cfg: AgentConfig, localBuffer: MMapRingBuffer<V>, connected: bool, ghost left: seq<Batch<V>>)
      requires Holds(localBuffer, left) && OneLine(localBuffer.vt)
      ensures Valid() && this.localBuffer == localBuffer && this.cfg == cfg
      ensures State() == Start(localBuffer.data.Length, connected).(queue := left)
    {
      hide Holds, OneLine;
      this.cfg, this.localBuffer, collectorConnected, batchSeq := cfg, localBuffer, connected, 0;
      queue, delivered, messages, losses := left, [], [], [];
    }

    /** `push`, seen from the queue of batches. */
    method PushHeld(b: Batch<V>) returns (ok: bool)
      requires Valid() && Sized(b) && Storable(localBuffer.vt, localBuffer.data.Length, b)
      modifies localBuffer, localBuffer.data, `queue
      ensures Valid()
      ensures ok == Accepts(localBuffer.vt, localBuffer.data.Length, old(queue), b)
      ensures queue == if ok then old(queue) + [b] else old(queue)
    {
      hide Serialize, WellFormed, Frames, OneLine, Sized;
      PrintedAppend(localBuffer.vt, queue, b);
      ok := localBuffer.Push(b);
      if ok {
        queue := queue + [b];
      }
    }

    /** Saves a batch that could not be sent; on a full buffer the oldest one makes way. */
    method Save(b: Batch<V>)
      requires Valid() && Sized(b) && Storable(localBuffer.vt, localBuffer.data.Length, b)
      modifies localBuffer, localBuffer.data, `queue, `losses
      ensures Valid() && State() == BufferBatch(localBuffer.vt, old(State()), b)
    {
      hide Holds, OneLine, Accepts, Storable;
      var pushed := PushHeld(b);
      if !pushed {
        var dropped := Batch("", "", "", [], 0, 0, false);
        ghost var before := queue;
        var popped;
        popped, dropped := PopHeld(localBuffer, dropped, before);
        if before != [] {
          losses := losses + [Loss(before[0].batchSeq, DroppedOldest)];
          queue := before[1..];
        }
        pushed := PushHeld(b);
        if !pushed {
          losses := losses + [Loss(b.batchSeq, Refused)];
        }
      }
    }

    method StreamHeld(input: Input<V>)
      requires Valid()
      modifies localBuffer, `queue, `messages, `losses
      ensures Valid()
      ensures State() == AfterDrain(old(State()),
                                    Streamed(localBuffer.vt, old(queue), input.streamOpen, input.outcomes))
    {
      hide Holds, Streamed, LossesOf, OneLine;
      ghost var r := Streamed(localBuffer.vt, queue, input.streamOpen, input.outcomes);
      var scratch := Batch("", "", "", [], 0, 0, false);
      var written := StreamBacklog(localBuffer, input.streamOpen, input.outcomes, scratch, queue);
      queue := r.left;
      messages := messages + written;
      losses := losses + LossesOf(r);
    }

    /** `collector_connected && !local_buffer.empty()` guards the drain. */
    method DrainBacklog(input: Input<V>)
      requires Valid()
      modifies localBuffer, `queue, `messages, `losses
      ensures Valid() && State() == DrainPhase(localBuffer.vt, old(State()), input)
    {
      hide Holds, Streamed, LossesOf, OneLine;
      var depth := SizeHeld(localBuffer, queue);
      if collectorConnected && depth != 0 {
        StreamHeld(input);
      }
    }

    /** One pass of `while (g_running)`. */
    method Iterate(input: Input<V>)
      requires Valid()
      requires input.sendOk || Storable(localBuffer.vt, localBuffer.data.Length, EntryOf(cfg, NextSeq(batchSeq), input))
      modifies this, localBuffer, localBuffer.data
      ensures Valid() && State() == Step(localBuffer.vt, cfg, old(State()), input)
    {
      hide Holds, OneLine, DrainPhase, BufferBatch, LivePoints, Storable, Reports, ToSamples, Joinable, Sized;
      var depth := SizeHeld(localBuffer, queue);
      batchSeq := NextSeq(batchSeq);
      var live := BuildProtoBatch(cfg, input.ts, depth, false, batchSeq, input.readings);
      DrainBacklog(input);
      if input.sendOk {
        collectorConnected := true;
        delivered := delivered + [live];
      } else {
        collectorConnected := false;
        LiveSized(cfg, input.ts, depth, batchSeq, input.readings);
        EntryIgnoresDepth(cfg, depth, batchSeq, input);
        var entry := BuildLocalEntry(cfg, batchSeq, input.ts, live.metrics);
        Save(entry);
      }
    }

    method RunAll(inputs: seq<Input<V>>)
      requires Valid() && AllStorable(localBuffer.vt, cfg, localBuffer.data.Length, batchSeq, inputs)
      modifies this, localBuffer, localBuffer.data
      ensures Valid() && State() == Run(localBuffer.vt, cfg, old(State()), inputs)
    {
      hide Holds, OneLine, Storable;
      assert inputs[0..] == inputs;
      for i := 0 to |inputs|
        invariant Valid() && AllStorable(localBuffer.vt, cfg, localBuffer.data.Length, batchSeq, inputs[i..])
        invariant Run(localBuffer.vt, cfg, State(), inputs[i..]) == Run(localBuffer.vt, cfg, old(State()), inputs)
      {
        assert inputs[i..][0] == inputs[i] && inputs[i..][1..] == inputs[i + 1..];
        StepOutcome(localBuffer.vt, cfg, State(), inputs[i]);
        hide Step, EntryOf;
        Iterate(inputs[i]);
      }
    }
  }
}
