/** Streaming the local buffer to the collector (`GrpcClient::stream_backlog`). */
module Drain {
  import opened BatchCodec
  import opened Protocol
  import opened RingBuffer
  import opened Sequences
  import opened Wrappers

  /** How the outside answers during one drain: at its i-th pop, is the agent still running, is the write accepted. */
  datatype Outcomes = Outcomes(running: nat -> bool, writeOk: nat -> bool)

  /** Why a numbered batch is neither acknowledged, nor written as backlog, nor buffered. */
  datatype Cause = StopRequested | WriteFailed | Unreadable | DroppedOldest | Refused

  datatype DrainResult<V> = DrainResult(
    messages: seq<ProtoBatch<V>>,          // accepted by the stream
    sent: seq<Batch<V>>,                   // the batches they carry the headers of
    lost: Option<(Batch<V>, Cause)>,       // popped, but not written
    left: seq<Batch<V>>)                   // still buffered

  /** The printed form of each batch of a queue. */
  ghost function Printed<V>(vt: ValueText<V>, queue: seq<Batch<V>>): (entries: seq<string>)
    ensures |entries| == |queue|
    ensures forall i | 0 <= i < |queue| :: entries[i] == Serialize(vt, queue[i])
  {
    seq(|queue|, i requires 0 <= i < |queue| => Serialize(vt, queue[i]))
  }

  /** A batch read into one that already carries samples. */
  ghost function ReadOnto<V>(vt: ValueText<V>, b: Batch<V>, carried: seq<Sample<V>>): Batch<V>
    requires BatchReadable(vt, b)
  {
    Reread(vt, b).(metrics := carried + Reread(vt, b).metrics)
  }

  /**
   * One drain from its i-th pop on. The loop pops every entry into the same batch
   * object, so the samples read so far are `carried` along.
   */
  ghost function DrainFrom<V>(vt: ValueText<V>, queue: seq<Batch<V>>, carried: seq<Sample<V>>, i: nat, o: Outcomes)
    : DrainResult<V>
    decreases |queue|
  {
    if queue == [] then DrainResult([], [], None, [])
    else
      var b, rest := queue[0], queue[1..];
      if !BatchReadable(vt, b) then DrainResult([], [], Some((b, Unreadable)), rest)
      else if !o.running(i) then DrainResult([], [], Some((b, StopRequested)), rest)
      else if !o.writeOk(i) then DrainResult([], [], Some((b, WriteFailed)), rest)
      else
        var popped := ReadOnto(vt, b, carried);
        var more := DrainFrom(vt, rest, popped.metrics, i + 1, o);
        more.(messages := [BacklogMessage(popped, |rest|)] + more.messages, sent := [b] + more.sent)
  }

  ghost function Streamed<V>(vt: ValueText<V>, queue: seq<Batch<V>>, streamOpen: bool, o: Outcomes): DrainResult<V> {
    if streamOpen then DrainFrom(vt, queue, [], 0, o) else DrainResult([], [], None, queue)
  }

  ghost function LostPart<V>(r: DrainResult<V>): seq<Batch<V>> {
    if r.lost.Some? then [r.lost.value.0] else []
  }

  /** The pop at position `i` is read, wanted and accepted. */
  ghost predicate Written<V>(vt: ValueText<V>, b: Batch<V>, i: nat, o: Outcomes) {
    BatchReadable(vt, b) && o.running(i) && o.writeOk(i)
  }

  /** What ends a drain at position `i`. */
  ghost function EndCause<V>(vt: ValueText<V>, b: Batch<V>, i: nat, o: Outcomes): Cause {
    if !BatchReadable(vt, b) then Unreadable
    else if !o.running(i) then StopRequested
    else WriteFailed
  }

  lemma DrainStep<V>(vt: ValueText<V>, queue: seq<Batch<V>>, carried: seq<Sample<V>>, i: nat, o: Outcomes)
    requires queue != [] && Written(vt, queue[0], i, o)
    ensures var popped := ReadOnto(vt, queue[0], carried);
            var more := DrainFrom(vt, queue[1..], popped.metrics, i + 1, o);
            var r := DrainFrom(vt, queue, carried, i, o);
            && r.messages == [BacklogMessage(popped, |queue| - 1)] + more.messages
            && r.sent == [queue[0]] + more.sent
            && r.lost == more.lost && r.left == more.left
  {
    hide BatchReadable, ReadOnto, BacklogMessage;
  }

  lemma DrainEnd<V>(vt: ValueText<V>, queue: seq<Batch<V>>, carried: seq<Sample<V>>, i: nat, o: Outcomes)
    requires queue == [] || !Written(vt, queue[0], i, o)
    ensures DrainFrom(vt, queue, carried, i, o) ==
            if queue == [] then DrainResult([], [], None, [])
            else DrainResult([], [], Some((queue[0], EndCause(vt, queue[0], i, o))), queue[1..])
  {
    hide BatchReadable, ReadOnto, BacklogMessage;
  }

  /**
   * For every pattern of write failures and stop signals the queue splits, in
   * order, into what was written, at most one popped batch that was not, and
   * what is left; a drain that loses nothing empties the queue.
   */
  lemma {:induction false} DrainSplits<V>(vt: ValueText<V>, queue: seq<Batch<V>>, carried: seq<Sample<V>>, i: nat,
                                          o: Outcomes)
    ensures var r := DrainFrom(vt, queue, carried, i, o);
            && queue == r.sent + LostPart(r) + r.left
            && |r.messages| == |r.sent|
            && (r.lost == None ==> r.left == [])
  {
    if queue == [] || !Written(vt, queue[0], i, o) {
      DrainEnd(vt, queue, carried, i, o);
      assert queue != [] ==> queue == [queue[0]] + queue[1..];
    } else {
      DrainStep(vt, queue, carried, i, o);
      hide DrainFrom, BatchReadable, ReadOnto, BacklogMessage;
      var popped := ReadOnto(vt, queue[0], carried);
      DrainSplits(vt, queue[1..], popped.metrics, i + 1, o);
      var more := DrainFrom(vt, queue[1..], popped.metrics, i + 1, o);
      assert queue == [queue[0]] + queue[1..];
      Associative([queue[0]], more.sent + LostPart(more), more.left);
      Associative([queue[0]], more.sent, LostPart(more));
    }
  }

  /** Exactly the written batches got through, and the first that did not says why. */
  lemma {:induction false} DrainCauses<V>(vt: ValueText<V>, queue: seq<Batch<V>>, carried: seq<Sample<V>>, i: nat,
                                          o: Outcomes)
    ensures var r := DrainFrom(vt, queue, carried, i, o);
            && (forall k | 0 <= k < |r.sent| :: Written(vt, r.sent[k], i + k, o))
            && (r.lost.Some? ==>
                  var (b, cause) := r.lost.value;
                  !Written(vt, b, i + |r.sent|, o) && cause == EndCause(vt, b, i + |r.sent|, o))
  {
    hide BatchReadable, ReadOnto, BacklogMessage;
    if queue == [] || !Written(vt, queue[0], i, o) {
      DrainEnd(vt, queue, carried, i, o);
    } else {
      DrainStep(vt, queue, carried, i, o);
      hide DrainFrom, Written, EndCause;
      var popped := ReadOnto(vt, queue[0], carried);
      DrainCauses(vt, queue[1..], popped.metrics, i + 1, o);
      var r := DrainFrom(vt, queue, carried, i, o);
      var more := DrainFrom(vt, queue[1..], popped.metrics, i + 1, o);
      forall k | 0 <= k < |r.sent|
        ensures Written(vt, r.sent[k], i + k, o)
      {
        if k > 0 {
          assert r.sent[k] == more.sent[k - 1] && Written(vt, more.sent[k - 1], i + 1 + (k - 1), o);
        }
      }
    }
  }

  ghost predicate AllReadable<V>(vt: ValueText<V>, bs: seq<Batch<V>>) {
    forall k | 0 <= k < |bs| :: BatchReadable(vt, bs[k])
  }

  /** All samples of the given batches, one after the other, as they read back. */
  ghost function AllSamples<V>(vt: ValueText<V>, bs: seq<Batch<V>>): seq<Sample<V>>
    requires AllReadable(vt, bs)
  {
    if bs == [] then [] else Reread(vt, bs[0]).metrics + AllSamples(vt, bs[1..])
  }

  lemma SentReadable<V>(vt: ValueText<V>, queue: seq<Batch<V>>, carried: seq<Sample<V>>, i: nat, o: Outcomes, k: nat)
    requires k < |DrainFrom(vt, queue, carried, i, o).messages|
    ensures var sent := DrainFrom(vt, queue, carried, i, o).sent;
            k < |sent| && AllReadable(vt, sent[..k]) && BatchReadable(vt, sent[k])
  {
    hide DrainFrom, BatchReadable, EndCause;
    DrainSplits(vt, queue, carried, i, o);
    DrainCauses(vt, queue, carried, i, o);
    var sent := DrainFrom(vt, queue, carried, i, o).sent;
    assert Written(vt, sent[k], i + k, o);
    forall j | 0 <= j < k
      ensures BatchReadable(vt, sent[..k][j])
    {
      assert Written(vt, sent[j], i + j, o);
    }
  }

  lemma AllSamplesFirst<V>(vt: ValueText<V>, b: Batch<V>, bs: seq<Batch<V>>, carried: seq<Sample<V>>)
    requires AllReadable(vt, [b] + bs)
    ensures BatchReadable(vt, b) && AllReadable(vt, bs)
    ensures carried + AllSamples(vt, [b] + bs) == carried + Reread(vt, b).metrics + AllSamples(vt, bs)
  {
    hide BatchReadable, Reread;
    assert ([b] + bs)[0] == b && ([b] + bs)[1..] == bs;
    assert forall k | 0 <= k < |bs| :: bs[k] == ([b] + bs)[k + 1];
    Associative(carried, Reread(vt, b).metrics, AllSamples(vt, bs));
  }

  /**
   * What the k-th message says: the header of the k-th batch, the number of
   * entries still buffered, and before its own samples those of all batches sent
   * earlier in the same drain.
   */
  lemma {:induction false} DrainContents<V>(vt: ValueText<V>, queue: seq<Batch<V>>, carried: seq<Sample<V>>, i: nat,
                                            o: Outcomes, k: nat)
    requires k < |DrainFrom(vt, queue, carried, i, o).messages|
    ensures var r := DrainFrom(vt, queue, carried, i, o);
            && k < |r.sent| && AllReadable(vt, r.sent[..k]) && BatchReadable(vt, r.sent[k])
            && r.messages[k] ==
               BacklogMessage(ReadOnto(vt, r.sent[k], carried + AllSamples(vt, r.sent[..k])), |queue| - k - 1)
  {
    hide BatchReadable, BacklogMessage, Reread, AllReadable;
    SentReadable(vt, queue, carried, i, o, k);
    var r := DrainFrom(vt, queue, carried, i, o);
    if queue == [] || !Written(vt, queue[0], i, o) {
      DrainEnd(vt, queue, carried, i, o);
      assert false;
    } else {
      DrainStep(vt, queue, carried, i, o);
      hide DrainFrom, Written;
      if k == 0 {
        assert carried + AllSamples(vt, r.sent[..0]) == carried;
      } else {
        var b := queue[0];
        var popped := ReadOnto(vt, b, carried);
        var more := DrainFrom(vt, queue[1..], popped.metrics, i + 1, o);
        DrainContents(vt, queue[1..], popped.metrics, i + 1, o, k - 1);
        assert r.sent[..k] == [b] + more.sent[..k - 1];
        AllSamplesFirst(vt, b, more.sent[..k - 1], carried);
        hide ReadOnto, AllSamples;
        assert r.messages[k] == more.messages[k - 1];
      }
    }
  }

  lemma {:induction false} NoSamplesAtAll<V>(vt: ValueText<V>, bs: seq<Batch<V>>)
    requires AllReadable(vt, bs)
    ensures AllSamples(vt, bs) == [] <==> forall k | 0 <= k < |bs| :: bs[k].metrics == []
  {
    if bs != [] {
      hide BatchReadable;
      NoSamplesAtAll(vt, bs[1..]);
      assert forall k | 0 < k < |bs| :: bs[k] == bs[1..][k - 1];
    }
  }

  /**
   * The k-th message is the k-th buffered batch, and nothing else, exactly when
   * every batch sent before it in the same drain was free of samples.
   */
  lemma MessageFaithful<V>(vt: ValueText<V>, queue: seq<Batch<V>>, o: Outcomes, k: nat)
    requires k < |DrainFrom(vt, queue, [], 0, o).messages|
    ensures var r := DrainFrom(vt, queue, [], 0, o);
            && k < |r.sent| && BatchReadable(vt, r.sent[k])
            && (r.messages[k] == BacklogMessage(Reread(vt, r.sent[k]), |queue| - k - 1) <==>
                forall j | 0 <= j < k :: r.sent[j].metrics == [])
  {
    DrainContents(vt, queue, [], 0, o, k);
    hide DrainFrom, BatchReadable, AllReadable, Reread, BacklogMessage, ReadOnto;
    var r := DrainFrom(vt, queue, [], 0, o);
    NoSamplesAtAll(vt, r.sent[..k]);
    var before := AllSamples(vt, r.sent[..k]);
    assert [] + before == before;
    CarriedShows(vt, r.sent[k], before, |queue| - k - 1);
    assert forall j | 0 <= j < k :: r.sent[..k][j] == r.sent[j];
  }

  /** Samples carried into a message make it differ from its batch. */
  lemma CarriedShows<V>(vt: ValueText<V>, b: Batch<V>, carried: seq<Sample<V>>, queueDepth: int)
    requires BatchReadable(vt, b)
    ensures BacklogMessage(ReadOnto(vt, b, carried), queueDepth) == BacklogMessage(Reread(vt, b), queueDepth) <==>
            carried == []
  {
    var own := Reread(vt, b).metrics;
    if carried == [] {
      assert carried + own == own;
    } else {
      assert |BacklogMessage(ReadOnto(vt, b, carried), queueDepth).metrics| == |carried| + |own|;
    }
  }

  /** A queue as the buffer holds it. */
  ghost predicate Holds<V(!new)>(ring: MMapRingBuffer<V>, queue: seq<Batch<V>>)
    reads ring, ring.data
  {
    && ring.Valid() && ring.entries == Printed(ring.vt, queue)
    && forall i | 0 <= i < |queue| :: Sized(queue[i])
  }

  /** A pop from the buffer, seen from the queue of batches it holds. */
  method PopHeld<V(!new)>(ring: MMapRingBuffer<V>, target: Batch<V>, ghost queue: seq<Batch<V>>)
    returns (ok: bool, batch: Batch<V>)
    requires OneLine(ring.vt) && Holds(ring, queue)
    modifies ring
    ensures queue == [] ==> !ok && Holds(ring, [])
    ensures queue != [] ==>
              && Holds(ring, queue[1..])
              && (ok <==> BatchReadable(ring.vt, queue[0]))
              && (ok ==> batch == ReadOnto(ring.vt, queue[0], target.metrics))
  {
    hide Reread, BatchReadable, Serialize, Deserialize, OneLine, Sized;
    if queue != [] {
      RoundTrip(ring.vt, queue[0], target);
    }
    ok, batch := ring.Pop(target);
    assert queue != [] ==> ring.entries == Printed(ring.vt, queue[1..]);
  }

  method SizeHeld<V(!new)>(ring: MMapRingBuffer<V>, ghost queue: seq<Batch<V>>) returns (n: nat)
    requires Holds(ring, queue)
    ensures n == |queue|
  {
    n := ring.Size();
  }

  /** The whole drain is what has been written so far, followed by the drain of what is left. */
  ghost predicate Progress<V>(vt: ValueText<V>, queue: seq<Batch<V>>, o: Outcomes, messages: seq<ProtoBatch<V>>,
                              sent: seq<Batch<V>>, todo: seq<Batch<V>>, carried: seq<Sample<V>>)
  {
    var rest := DrainFrom(vt, todo, carried, |sent|, o);
    DrainFrom(vt, queue, [], 0, o) == rest.(messages := messages + rest.messages, sent := sent + rest.sent)
  }

  lemma ProgressStart<V>(vt: ValueText<V>, queue: seq<Batch<V>>, o: Outcomes)
    ensures Progress(vt, queue, o, [], [], queue, [])
  {
    hide DrainFrom;
    var r := DrainFrom(vt, queue, [], 0, o);
    assert [] + r.messages == r.messages && [] + r.sent == r.sent;
  }

  lemma ProgressStep<V>(vt: ValueText<V>, queue: seq<Batch<V>>, o: Outcomes, messages: seq<ProtoBatch<V>>,
                        sent: seq<Batch<V>>, todo: seq<Batch<V>>, carried: seq<Sample<V>>)
    requires Progress(vt, queue, o, messages, sent, todo, carried)
    requires todo != [] && Written(vt, todo[0], |sent|, o)
    ensures var popped := ReadOnto(vt, todo[0], carried);
            Progress(vt, queue, o, messages + [BacklogMessage(popped, |todo| - 1)], sent + [todo[0]], todo[1..],
                     popped.metrics)
  {
    DrainStep(vt, todo, carried, |sent|, o);
    hide DrainFrom, Written, ReadOnto, BacklogMessage;
    var popped := ReadOnto(vt, todo[0], carried);
    var more := DrainFrom(vt, todo[1..], popped.metrics, |sent| + 1, o);
    Associative(messages, [BacklogMessage(popped, |todo| - 1)], more.messages);
    Associative(sent, [todo[0]], more.sent);
  }

  lemma ProgressEnd<V>(vt: ValueText<V>, queue: seq<Batch<V>>, o: Outcomes, messages: seq<ProtoBatch<V>>,
                       sent: seq<Batch<V>>, todo: seq<Batch<V>>, carried: seq<Sample<V>>)
    requires Progress(vt, queue, o, messages, sent, todo, carried)
    requires todo == [] || !Written(vt, todo[0], |sent|, o)
    ensures var r := DrainFrom(vt, queue, [], 0, o);
            r.messages == messages && r.left == if todo == [] then [] else todo[1..]
  {
    DrainEnd(vt, todo, carried, |sent|, o);
    hide DrainFrom, Written;
    assert messages + [] == messages;
  }

  /** The loop of `stream_backlog`; `scratch` is the one batch all entries are popped into. */
  method DrainLoop<V(!new)>(ring: MMapRingBuffer<V>, o: Outcomes, scratch: Batch<V>, ghost queue: seq<Batch<V>>)
    returns (messages: seq<ProtoBatch<V>>)
    requires OneLine(ring.vt) && Holds(ring, queue) && scratch.metrics == []
    modifies ring
    ensures var r := DrainFrom(ring.vt, queue, [], 0, o);
            messages == r.messages && Holds(ring, r.left)
  {
    hide BacklogMessage, ReadOnto, BatchReadable, OneLine, Progress, DrainFrom, Holds;
    ProgressStart(ring.vt, queue, o);
    messages := [];
    ghost var todo, sent: seq<Batch<V>> := queue, [];
    var batch, sentCount := scratch, 0;
    ghost var carried := batch.metrics;
    var popped;
    popped, batch := PopHeld(ring, batch, todo);
    while popped && o.running(sentCount)
      invariant |sent| == sentCount
      invariant Progress(ring.vt, queue, o, messages, sent, todo, carried)
      invariant Holds(ring, if todo == [] then [] else todo[1..])
      invariant popped <==> todo != [] && BatchReadable(ring.vt, todo[0])
      invariant popped ==> batch == ReadOnto(ring.vt, todo[0], carried)
      decreases |todo|
    {
      var depth := SizeHeld(ring, todo[1..]);
      var pb := BuildBacklogMessage(batch, depth);
      if !o.writeOk(sentCount) {
        break;
      }
      ProgressStep(ring.vt, queue, o, messages, sent, todo, carried);
      messages, sent, todo, carried := messages + [pb], sent + [todo[0]], todo[1..], batch.metrics;
      sentCount := sentCount + 1;
      popped, batch := PopHeld(ring, batch, todo);
    }
    ProgressEnd(ring.vt, queue, o, messages, sent, todo, carried);
  }

  /** `stream_backlog`; `streamOpen` says that stub and writer exist. */
  method StreamBacklog<V(!new)>(ring: MMapRingBuffer<V>, streamOpen: bool, o: Outcomes, scratch: Batch<V>,
                                ghost queue: seq<Batch<V>>)
    returns (messages: seq<ProtoBatch<V>>)
    requires OneLine(ring.vt) && Holds(ring, queue) && scratch.metrics == []
    modifies ring
    ensures var r := Streamed(ring.vt, queue, streamOpen, o);
            messages == r.messages && Holds(ring, r.left)
  {
    hide Holds, DrainFrom;
    if !streamOpen {
      return [];
    }
    messages := DrainLoop(ring, o, scratch, queue);
  }
}
