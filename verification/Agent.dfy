/**
 * The agent's main loop as a protocol over its local buffer: number a batch,
 * drain the backlog, send live, buffer on failure and drop the oldest when full
 * (services/cxx-agent/src/main.cpp).
 */
module Agent {
  import opened BatchCodec
  import opened Decimal
  import opened Drain
  import opened LineText
  import opened Protocol
  import opened RingBytes

  datatype Loss = Loss(batchSeq: int, cause: Cause)

  /** Everything one iteration takes from outside. */
  datatype Input<V> = Input(ts: int64, readings: Readings<V>, streamOpen: bool, outcomes: Outcomes, sendOk: bool)

  /**
   * The loop's state with its history: messages acknowledged live, messages
   * written as backlog, numbers lost.
   */
  datatype AgentState<V> = AgentState(
    capacity: nat, connected: bool, batchSeq: int64, queue: seq<Batch<V>>,
    delivered: seq<ProtoBatch<V>>, messages: seq<ProtoBatch<V>>, losses: seq<Loss>)

  /** `++g_batch_seq` on a 64-bit atomic. */
  function NextSeq(n: int64): int64 {
    if n == INT64_MAX then INT64_MIN else n + 1
  }

  ghost predicate Accepts<V>(vt: ValueText<V>, capacity: nat, queue: seq<Batch<V>>, b: Batch<V>) {
    Admits(capacity, Printed(vt, queue), Serialize(vt, b))
  }

  /** Buffering a batch: on a failed push the oldest one is dropped and the push repeated. */
  ghost function BufferBatch<V>(vt: ValueText<V>, s: AgentState<V>, b: Batch<V>): AgentState<V> {
    if Accepts(vt, s.capacity, s.queue, b) then s.(queue := s.queue + [b])
    else
      var s1 := if s.queue == [] then s
                else s.(queue := s.queue[1..], losses := s.losses + [Loss(s.queue[0].batchSeq, DroppedOldest)]);
      if Accepts(vt, s1.capacity, s1.queue, b) then s1.(queue := s1.queue + [b])
      else s1.(losses := s1.losses + [Loss(b.batchSeq, Refused)])
  }

  ghost function LossesOf<V>(r: DrainResult<V>): seq<Loss> {
    match r.lost
    case None => []
    case Some((b, cause)) => [Loss(b.batchSeq, cause)]
  }

  ghost function AfterDrain<V>(s: AgentState<V>, r: DrainResult<V>): AgentState<V> {
    s.(queue := r.left, messages := s.messages + r.messages, losses := s.losses + LossesOf(r))
  }

  ghost function DrainPhase<V>(vt: ValueText<V>, s: AgentState<V>, input: Input<V>): AgentState<V> {
    if s.connected && s.queue != [] then AfterDrain(s, Streamed(vt, s.queue, input.streamOpen, input.outcomes)) else s
  }

  ghost function SendPhase<V>(vt: ValueText<V>, s: AgentState<V>, live: ProtoBatch<V>, sendOk: bool): AgentState<V>
    requires Joinable(live.metrics)
  {
    if sendOk then s.(connected := true, delivered := s.delivered + [live])
    else BufferBatch(vt, s.(connected := false), LocalEntry(live))
  }

  /** One iteration of the main loop. */
  ghost function Step<V>(vt: ValueText<V>, cfg: AgentConfig, s: AgentState<V>, input: Input<V>): AgentState<V> {
    var n := NextSeq(s.batchSeq);
    var live := LiveMessage(cfg, input.ts, |s.queue|, n, input.readings);
    SendPhase(vt, DrainPhase(vt, s.(batchSeq := n), input), live, input.sendOk)
  }

  ghost function Run<V>(vt: ValueText<V>, cfg: AgentConfig, s: AgentState<V>, inputs: seq<Input<V>>): AgentState<V>
    decreases |inputs|
  {
    if inputs == [] then s else Run(vt, cfg, Step(vt, cfg, s, inputs[0]), inputs[1..])
  }

  /** A process that starts with an empty buffer. */
  function Start<V>(capacity: nat, connected: bool): AgentState<V> {
    AgentState(capacity, connected, 0, [], [], [], [])
  }

  // ------------------------------------------------------- order, conservation

  function Seqs<V>(bs: seq<Batch<V>>): (ns: seq<int>)
    ensures |ns| == |bs| && forall i | 0 <= i < |bs| :: ns[i] == bs[i].batchSeq
  {
    seq(|bs|, i requires 0 <= i < |bs| => bs[i].batchSeq)
  }

  function MessageSeqs<V>(ms: seq<ProtoBatch<V>>): (ns: seq<int>)
    ensures |ns| == |ms| && forall i | 0 <= i < |ms| :: ns[i] == ms[i].batchSeq
  {
    seq(|ms|, i requires 0 <= i < |ms| => ms[i].batchSeq)
  }

  function LossSeqs(ls: seq<Loss>): (ns: seq<int>)
    ensures |ns| == |ls| && forall i | 0 <= i < |ls| :: ns[i] == ls[i].batchSeq
  {
    seq(|ls|, i requires 0 <= i < |ls| => ls[i].batchSeq)
  }

  /** The numbers acknowledged live. */
  function Acked<V>(s: AgentState<V>): seq<int> {
    MessageSeqs(s.delivered)
  }

  /** 1, 2, ..., n: the numbers given out so far. */
  function UpTo(n: nat): (ns: seq<int>)
    ensures |ns| == n && forall i | 0 <= i < n :: ns[i] == i + 1
  {
    seq(n, i => i + 1)
  }

  predicate Increasing(ns: seq<int>) {
    forall i, j | 0 <= i < j < |ns| :: ns[i] < ns[j]
  }

  ghost function Accounted<V>(s: AgentState<V>): multiset<int> {
    multiset(Acked(s)) + multiset(MessageSeqs(s.messages)) + multiset(Seqs(s.queue)) + multiset(LossSeqs(s.losses))
  }

  /** Every number given out is accounted for once. */
  ghost predicate Conserved<V>(s: AgentState<V>) {
    s.batchSeq >= 0 && Accounted(s) == multiset(UpTo(s.batchSeq))
  }

  ghost predicate Bounded(ns: seq<int>, n: int) {
    forall i | 0 <= i < |ns| :: ns[i] <= n
  }

  /** Numbers written as backlog, then those still buffered, in increasing order; likewise the acknowledged ones. */
  ghost predicate Ordered<V>(s: AgentState<V>) {
    var backlog := MessageSeqs(s.messages) + Seqs(s.queue);
    && Increasing(backlog) && Bounded(backlog, s.batchSeq)
    && Increasing(Acked(s)) && Bounded(Acked(s), s.batchSeq)
  }

  lemma SeqsSplit<V>(a: seq<Batch<V>>, b: seq<Batch<V>>)
    ensures Seqs(a + b) == Seqs(a) + Seqs(b)
  {}

  lemma MessageSeqsSplit<V>(a: seq<ProtoBatch<V>>, b: seq<ProtoBatch<V>>)
    ensures MessageSeqs(a + b) == MessageSeqs(a) + MessageSeqs(b)
  {}

  lemma LossSeqsSplit(a: seq<Loss>, b: seq<Loss>)
    ensures LossSeqs(a + b) == LossSeqs(a) + LossSeqs(b)
  {}

  lemma UpToNext(n: nat)
    ensures UpTo(n + 1) == UpTo(n) + [n + 1]
  {}

  /** Leaving out a middle part keeps the order. */
  lemma OrderWithout(a: seq<int>, b: seq<int>, c: seq<int>, n: int)
    requires Increasing(a + (b + c)) && Bounded(a + (b + c), n)
    ensures Increasing(a + c) && Bounded(a + c, n)
  {
    var whole, part := a + (b + c), a + c;
    var shift := |b|;
    assert forall i | 0 <= i < |a| :: part[i] == whole[i];
    assert forall i | |a| <= i < |part| :: part[i] == whole[i + shift];
  }

  /** The k-th message of a drain has the number of the k-th batch sent. */
  lemma SentNumbers<V>(vt: ValueText<V>, queue: seq<Batch<V>>, o: Outcomes)
    ensures var r := DrainFrom(vt, queue, [], 0, o);
            MessageSeqs(r.messages) == Seqs(r.sent)
  {
    DrainSplits(vt, queue, [], 0, o);
    var r := DrainFrom(vt, queue, [], 0, o);
    hide DrainFrom;
    forall k | 0 <= k < |r.messages|
      ensures r.messages[k].batchSeq == r.sent[k].batchSeq
    {
      DrainContents(vt, queue, [], 0, o, k);
    }
  }

  lemma DrainNumbers<V>(vt: ValueText<V>, queue: seq<Batch<V>>, streamOpen: bool, o: Outcomes)
    ensures var r := Streamed(vt, queue, streamOpen, o);
            Seqs(queue) == MessageSeqs(r.messages) + (LossSeqs(LossesOf(r)) + Seqs(r.left))
  {
    var r := Streamed(vt, queue, streamOpen, o);
    if streamOpen {
      SentNumbers(vt, queue, o);
      DrainSplits(vt, queue, [], 0, o);
      hide DrainFrom;
      assert LossSeqs(LossesOf(r)) == Seqs(LostPart(r));
      assert queue == r.sent + (LostPart(r) + r.left);
      SeqsSplit(r.sent, LostPart(r) + r.left);
      SeqsSplit(LostPart(r), r.left);
      hide Seqs, LossSeqs, MessageSeqs, LossesOf;
    } else {
      assert Seqs(queue) == [] + ([] + Seqs(queue));
    }
  }

  lemma Redistribute(acked: multiset<int>, m: seq<int>, d: seq<int>, l: seq<int>, q: seq<int>, lost: seq<int>)
    ensures acked + multiset(m) + multiset(d + (l + q)) + multiset(lost) ==
            acked + multiset(m + d) + multiset(q) + multiset(lost + l)
  {}

  /** The numbers of the state before and after its drain phase. */
  lemma DrainPhaseNumbers<V>(vt: ValueText<V>, s: AgentState<V>, input: Input<V>) returns (d: seq<int>, l: seq<int>)
    ensures var t := DrainPhase(vt, s, input);
            && Seqs(s.queue) == d + (l + Seqs(t.queue))
            && MessageSeqs(t.messages) == MessageSeqs(s.messages) + d
            && LossSeqs(t.losses) == LossSeqs(s.losses) + l
            && t.batchSeq == s.batchSeq && t.delivered == s.delivered && t.capacity == s.capacity
  {
    hide Streamed, LossesOf;
    if s.connected && s.queue != [] {
      var r := Streamed(vt, s.queue, input.streamOpen, input.outcomes);
      DrainNumbers(vt, s.queue, input.streamOpen, input.outcomes);
      MessageSeqsSplit(s.messages, r.messages);
      LossSeqsSplit(s.losses, LossesOf(r));
      d, l := MessageSeqs(r.messages), LossSeqs(LossesOf(r));
    } else {
      d, l := [], [];
    }
  }

  lemma DrainPhaseKeeps<V>(vt: ValueText<V>, s: AgentState<V>, input: Input<V>)
    ensures var t := DrainPhase(vt, s, input);
            && Accounted(t) == Accounted(s)
            && (Ordered(s) ==> Ordered(t))
            && t.batchSeq == s.batchSeq && t.delivered == s.delivered
  {
    hide Increasing, Bounded, Seqs, MessageSeqs, LossSeqs;
    var t := DrainPhase(vt, s, input);
    var d, l := DrainPhaseNumbers(vt, s, input);
    hide DrainPhase;
    var m, q := MessageSeqs(s.messages), Seqs(t.queue);
    Redistribute(multiset(Acked(s)), m, d, l, q, LossSeqs(s.losses));
    if Ordered(s) {
      Sequences.Associative(m, d, l + q);
      OrderWithout(m + d, l, q, s.batchSeq);
    }
  }

  /** The numbers of the state before and after buffering a batch; `l` is lost at the head, `k` the batch itself. */
  lemma BufferNumbers<V>(vt: ValueText<V>, s: AgentState<V>, b: Batch<V>)
    returns (l: seq<int>, q: seq<int>, kept: bool)
    ensures var t := BufferBatch(vt, s, b);
            && Seqs(s.queue) == l + q
            && Seqs(t.queue) == (if kept then q + [b.batchSeq] else q)
            && LossSeqs(t.losses) == LossSeqs(s.losses) + l + (if kept then [] else [b.batchSeq])
            && t.batchSeq == s.batchSeq && t.delivered == s.delivered && t.messages == s.messages
  {
    hide Accepts, LossSeqs, Seqs;
    SeqsSnoc(s.queue, b);
    LossSeqsSnoc(s.losses, Loss(b.batchSeq, Refused));
    if Accepts(vt, s.capacity, s.queue, b) {
      l, q, kept := [], Seqs(s.queue), true;
    } else if s.queue == [] {
      l, q, kept := [], [], false;
      SeqsEmpty(s.queue);
    } else {
      var dropped := Loss(s.queue[0].batchSeq, DroppedOldest);
      l, q, kept := [s.queue[0].batchSeq], Seqs(s.queue[1..]), Accepts(vt, s.capacity, s.queue[1..], b);
      LossSeqsSnoc(s.losses, dropped);
      LossSeqsSnoc(s.losses + [dropped], Loss(b.batchSeq, Refused));
      SeqsSnoc(s.queue[1..], b);
      SeqsFirst(s.queue);
    }
  }

  lemma SeqsSnoc<V>(bs: seq<Batch<V>>, b: Batch<V>)
    ensures Seqs(bs + [b]) == Seqs(bs) + [b.batchSeq as int]
  {}

  lemma SeqsEmpty<V>(bs: seq<Batch<V>>)
    requires bs == []
    ensures Seqs(bs) == []
  {}

  lemma SeqsFirst<V>(bs: seq<Batch<V>>)
    requires bs != []
    ensures Seqs(bs) == [bs[0].batchSeq as int] + Seqs(bs[1..])
  {}

  lemma AckedSnoc<V>(s: AgentState<V>, live: ProtoBatch<V>)
    ensures MessageSeqs(s.delivered + [live]) == Acked(s) + [live.batchSeq as int]
  {}

  lemma LossSeqsSnoc(ls: seq<Loss>, l: Loss)
    ensures LossSeqs(ls + [l]) == LossSeqs(ls) + [l.batchSeq as int]
  {}

  lemma OrderExtended(ns: seq<int>, n: int)
    requires Increasing(ns) && Bounded(ns, n - 1)
    ensures Increasing(ns + [n]) && Bounded(ns + [n], n)
  {}

  /** Buffering the newest number accounts for it and keeps the order. */
  lemma BufferBatchKeeps<V>(vt: ValueText<V>, s: AgentState<V>, b: Batch<V>)
    requires b.batchSeq == s.batchSeq
    requires Increasing(MessageSeqs(s.messages) + Seqs(s.queue)) && Increasing(Acked(s))
    requires Bounded(MessageSeqs(s.messages) + Seqs(s.queue), s.batchSeq - 1) && Bounded(Acked(s), s.batchSeq - 1)
    ensures var t := BufferBatch(vt, s, b);
            && Accounted(t) == Accounted(s) + multiset{s.batchSeq as int}
            && Ordered(t) && t.batchSeq == s.batchSeq
  {
    hide Increasing, Seqs, MessageSeqs, LossSeqs, BufferBatch;
    var l, q, kept := BufferNumbers(vt, s, b);
    var m := MessageSeqs(s.messages);
    OrderWithout(m, l, q, s.batchSeq - 1);
    OrderExtended(m + q, s.batchSeq);
    Sequences.Associative(m, q, [s.batchSeq as int]);
    OnePlace(multiset(Acked(s)), m, l, q, LossSeqs(s.losses), s.batchSeq, kept);
  }

  /** The newest number goes to the end of the buffer or to the losses. */
  lemma OnePlace(acked: multiset<int>, m: seq<int>, l: seq<int>, q: seq<int>, lost: seq<int>, n: int, kept: bool)
    ensures acked + multiset(m) + multiset(if kept then q + [n] else q) +
            multiset(lost + l + (if kept then [] else [n])) ==
            acked + multiset(m) + multiset(l + q) + multiset(lost) + multiset{n}
  {
    assert multiset([n]) == multiset{n};
  }

  /** Numbering first or draining first makes no difference to the drain. */
  lemma StepPhases<V>(vt: ValueText<V>, cfg: AgentConfig, s: AgentState<V>, input: Input<V>)
    ensures var n := NextSeq(s.batchSeq);
            var live := LiveMessage(cfg, input.ts, |s.queue|, n, input.readings);
            Step(vt, cfg, s, input) == SendPhase(vt, DrainPhase(vt, s, input).(batchSeq := n), live, input.sendOk)
  {
    DrainPhaseIgnoresNumber(vt, s, input, NextSeq(s.batchSeq));
    hide DrainPhase, SendPhase, LivePoints;
  }

  lemma StepKeeps<V>(vt: ValueText<V>, cfg: AgentConfig, s: AgentState<V>, input: Input<V>)
    requires Conserved(s) && Ordered(s) && s.batchSeq < INT64_MAX
    ensures var t := Step(vt, cfg, s, input);
            Conserved(t) && Ordered(t) && t.batchSeq == s.batchSeq + 1
  {
    StepPhases(vt, cfg, s, input);
    var n := NextSeq(s.batchSeq);
    var live := LiveMessage(cfg, input.ts, |s.queue|, n, input.readings);
    hide Step, DrainPhase, SendPhase, LivePoints, Ordered, Accounted;
    DrainPhaseKeeps(vt, s, input);
    SendPhaseKeeps(vt, DrainPhase(vt, s, input), n, live, input.sendOk);
    UpToNext(s.batchSeq);
  }

  lemma SendPhaseKeeps<V>(vt: ValueText<V>, s: AgentState<V>, n: int64, live: ProtoBatch<V>, sendOk: bool)
    requires Ordered(s) && n == s.batchSeq + 1 && Joinable(live.metrics) && live.batchSeq == n
    ensures var t := SendPhase(vt, s.(batchSeq := n), live, sendOk);
            && Accounted(t) == Accounted(s) + multiset{n as int}
            && Ordered(t) && t.batchSeq == n
  {
    hide BufferBatch, Increasing, Seqs, MessageSeqs, LossSeqs;
    if sendOk {
      AckedSnoc(s, live);
      OrderExtended(Acked(s), n);
    } else {
      BufferBatchKeeps(vt, s.(batchSeq := n, connected := false), LocalEntry(live));
    }
  }

  lemma BufferKeepsOrRefuses<V>(vt: ValueText<V>, s: AgentState<V>, b: Batch<V>)
    ensures var t := BufferBatch(vt, s, b);
            && t.connected == s.connected && t.delivered == s.delivered && t.messages == s.messages
            && ((t.queue != [] && t.queue[|t.queue| - 1] == b) ||
                (t.losses != [] && t.losses[|t.losses| - 1] == Loss(b.batchSeq, Refused)))
            && (s.queue == [] || s.queue[1..] <= t.queue || s.queue <= t.queue)
  {
    hide Accepts;
    assert s.queue <= s.queue + [b];
    assert s.queue != [] ==> s.queue[1..] <= s.queue[1..] + [b];
  }

  /**
   * What one iteration shows outside: it is connected afterwards exactly when the
   * live send succeeded, which is also when its number is acknowledged; a failed
   * number is the newest one buffered or the last one lost; backlog is written
   * only in an iteration that began connected.
   */
  lemma StepOutcome<V>(vt: ValueText<V>, cfg: AgentConfig, s: AgentState<V>, input: Input<V>)
    ensures var t := Step(vt, cfg, s, input);
            var n := NextSeq(s.batchSeq);
            && t.batchSeq == n && (t.connected <==> input.sendOk)
            && t.delivered == s.delivered +
               (if input.sendOk then [LiveMessage(cfg, input.ts, |s.queue|, n, input.readings)] else [])
            && (!input.sendOk ==>
                  (t.queue != [] && t.queue[|t.queue| - 1].batchSeq == n) ||
                  (t.losses != [] && t.losses[|t.losses| - 1] == Loss(n, Refused)))
            && s.messages <= t.messages
            && (!s.connected || !input.streamOpen ==> t.messages == s.messages)
  {
    StepPhases(vt, cfg, s, input);
    DrainPhaseMessages(vt, s, input);
    var n := NextSeq(s.batchSeq);
    var live := LiveMessage(cfg, input.ts, |s.queue|, n, input.readings);
    hide Step, DrainPhase, BufferBatch, LivePoints, ToSamples, Joinable;
    var drained := DrainPhase(vt, s, input).(batchSeq := n);
    BufferKeepsOrRefuses(vt, drained.(connected := false), LocalEntry(live));
    BufferKeepsNumber(vt, drained.(connected := false), LocalEntry(live));
  }

  lemma BufferKeepsNumber<V>(vt: ValueText<V>, s: AgentState<V>, b: Batch<V>)
    ensures BufferBatch(vt, s, b).batchSeq == s.batchSeq
  {
    hide Accepts;
  }

  lemma DrainPhaseMessages<V>(vt: ValueText<V>, s: AgentState<V>, input: Input<V>)
    ensures var t := DrainPhase(vt, s, input);
            && t.delivered == s.delivered && t.batchSeq == s.batchSeq && s.messages <= t.messages
            && (!s.connected || !input.streamOpen ==> t.messages == s.messages)
  {
    hide DrainFrom, LossesOf;
  }

  /** Why a pop that was not written was not. */
  ghost predicate CauseOf<V>(vt: ValueText<V>, b: Batch<V>, k: nat, o: Outcomes, cause: Cause) {
    && (cause == Unreadable <==> !BatchReadable(vt, b))
    && (cause == StopRequested <==> BatchReadable(vt, b) && !o.running(k))
    && (cause == WriteFailed <==> BatchReadable(vt, b) && o.running(k) && !o.writeOk(k))
  }

  /**
   * A connected iteration with an open stream writes the buffer up to the first
   * batch that does not get through, loses that one, and leaves the rest; any
   * other iteration drains nothing.
   */
  lemma DrainWrites<V>(vt: ValueText<V>, s: AgentState<V>, input: Input<V>) returns (j: nat)
    ensures var t := DrainPhase(vt, s, input);
            && j <= |s.queue| && (forall k | 0 <= k < j :: Written(vt, s.queue[k], k, input.outcomes))
            && (!s.connected || !input.streamOpen ==> t == s)
            && (s.connected && input.streamOpen ==>
                  && MessageSeqs(t.messages) == MessageSeqs(s.messages) + Seqs(s.queue[..j])
                  && (j == |s.queue| ==> t.queue == [] && t.losses == s.losses)
                  && (j < |s.queue| ==>
                        && !Written(vt, s.queue[j], j, input.outcomes) && t.queue == s.queue[j + 1..]
                        && |t.losses| == |s.losses| + 1 && s.losses <= t.losses
                        && t.losses[|s.losses|].batchSeq == s.queue[j].batchSeq
                        && CauseOf(vt, s.queue[j], j, input.outcomes, t.losses[|s.losses|].cause)))
  {
    j := 0;
    if s.connected && input.streamOpen && s.queue != [] {
      j := DrainReaches(vt, s.queue, input.outcomes);
      var r := DrainFrom(vt, s.queue, [], 0, input.outcomes);
      MessageSeqsSplit(s.messages, r.messages);
    }
    hide DrainFrom, Written, Seqs, MessageSeqs, LossesOf, CauseOf;
  }

  lemma DrainReaches<V>(vt: ValueText<V>, queue: seq<Batch<V>>, o: Outcomes) returns (j: nat)
    ensures var r := DrainFrom(vt, queue, [], 0, o);
            && j <= |queue| && (forall k | 0 <= k < j :: Written(vt, queue[k], k, o))
            && MessageSeqs(r.messages) == Seqs(queue[..j])
            && (j == |queue| ==> r.left == [] && LossesOf(r) == [])
            && (j < |queue| ==>
                  && !Written(vt, queue[j], j, o) && r.left == queue[j + 1..]
                  && |LossesOf(r)| == 1 && LossesOf(r)[0].batchSeq == queue[j].batchSeq
                  && CauseOf(vt, queue[j], j, o, LossesOf(r)[0].cause))
  {
    var r := DrainFrom(vt, queue, [], 0, o);
    DrainSplits(vt, queue, [], 0, o);
    DrainCauses(vt, queue, [], 0, o);
    SentNumbers(vt, queue, o);
    j := |r.sent|;
    SplitAt(queue, r.sent, LostPart(r), r.left);
    if r.lost.Some? {
      CauseExact(vt, queue[j], j, o);
    }
    hide DrainFrom, Written, Seqs, MessageSeqs, CauseOf, EndCause;
  }

  lemma CauseExact<V>(vt: ValueText<V>, b: Batch<V>, k: nat, o: Outcomes)
    requires !Written(vt, b, k, o)
    ensures CauseOf(vt, b, k, o, EndCause(vt, b, k, o))
  {
    hide BatchReadable;
  }

  lemma SplitAt<T>(queue: seq<T>, sent: seq<T>, lost: seq<T>, left: seq<T>)
    requires queue == sent + lost + left && |lost| <= 1
    ensures queue[..|sent|] == sent && (lost == [] && left == [] ==> |queue| == |sent|)
    ensures lost != [] ==> |sent| < |queue| && queue[|sent|] == lost[0] && queue[|sent| + 1..] == left
    ensures forall k | 0 <= k < |sent| :: queue[k] == sent[k]
  {}

  lemma DrainPhaseIgnoresNumber<V>(vt: ValueText<V>, s: AgentState<V>, input: Input<V>, n: int64)
    ensures DrainPhase(vt, s.(batchSeq := n), input) == DrainPhase(vt, s, input).(batchSeq := n)
  {
    hide Streamed;
  }

  /**
   * What an iteration writes as backlog: when it began connected and the stream
   * opened, the buffer up to the first batch that does not get through, which is
   * lost; otherwise nothing.
   */
  lemma StepWrites<V>(vt: ValueText<V>, cfg: AgentConfig, s: AgentState<V>, input: Input<V>) returns (j: nat)
    ensures var t, drains := Step(vt, cfg, s, input), s.connected && input.streamOpen;
            && j <= |s.queue| && (forall k | 0 <= k < j :: Written(vt, s.queue[k], k, input.outcomes))
            && (drains && j < |s.queue| ==> !Written(vt, s.queue[j], j, input.outcomes))
            && MessageSeqs(t.messages) == MessageSeqs(s.messages) + (if drains then Seqs(s.queue[..j]) else [])
            && (input.sendOk ==>
                  && t.queue == (if !drains then s.queue else if j < |s.queue| then s.queue[j + 1..] else [])
                  && |t.losses| == |s.losses| + (if drains && j < |s.queue| then 1 else 0))
  {
    hide *;
    j := DrainWrites(vt, s, input);
    StepPhases(vt, cfg, s, input);
    var n := NextSeq(s.batchSeq);
    var live := LiveMessage(cfg, input.ts, |s.queue|, n, input.readings);
    SendWrites(vt, DrainPhase(vt, s, input).(batchSeq := n), live, input.sendOk);
    assert MessageSeqs(s.messages) + [] == MessageSeqs(s.messages);
  }

  lemma SendWrites<V>(vt: ValueText<V>, s: AgentState<V>, live: ProtoBatch<V>, sendOk: bool)
    requires Joinable(live.metrics)
    ensures var t := SendPhase(vt, s, live, sendOk);
            t.messages == s.messages && (sendOk ==> t.queue == s.queue && t.losses == s.losses)
  {
    hide Accepts;
  }

  /**
   * Over every run from an empty buffer each number given out is in exactly one
   * of acknowledged, written as backlog, buffered, lost; backlog numbers are
   * written in increasing order, before all buffered ones.
   */
  lemma {:induction false} RunKeeps<V>(vt: ValueText<V>, cfg: AgentConfig, s: AgentState<V>, inputs: seq<Input<V>>)
    requires Conserved(s) && Ordered(s) && s.batchSeq + |inputs| <= INT64_MAX
    ensures var t := Run(vt, cfg, s, inputs);
            Conserved(t) && Ordered(t) && t.batchSeq == s.batchSeq + |inputs|
    decreases |inputs|
  {
    hide Step, Conserved, Ordered;
    if inputs != [] {
      StepKeeps(vt, cfg, s, inputs[0]);
      RunKeeps(vt, cfg, Step(vt, cfg, s, inputs[0]), inputs[1..]);
    }
  }

  /** The next `k` numbers after `n`, with the wrap-around of the counter. */
  ghost function Given(n: int64, k: nat): multiset<int>
    decreases k
  {
    if k == 0 then multiset{} else multiset{NextSeq(n) as int} + Given(NextSeq(n), k - 1)
  }

  /** How many iterations after `n` the counter next shows `m`. */
  function Ahead(n: int64, m: int64): int {
    if m > n then m - n else m - n + TWO_64
  }

  /** The counter gives every number once before it repeats any. */
  lemma {:induction false} GivenOnce(n: int64, k: nat, m: int64)
    requires k <= TWO_64
    ensures Given(n, k)[m] == if Ahead(n, m) <= k then 1 else 0
    decreases k
  {
    if k > 0 {
      GivenOnce(NextSeq(n), k - 1, m);
    }
  }

  lemma BufferAccounts<V>(vt: ValueText<V>, s: AgentState<V>, b: Batch<V>)
    ensures Accounted(BufferBatch(vt, s, b)) == Accounted(s) + multiset{b.batchSeq as int}
  {
    hide Seqs, MessageSeqs, LossSeqs, BufferBatch;
    var l, q, kept := BufferNumbers(vt, s, b);
    OnePlace(multiset(Acked(s)), MessageSeqs(s.messages), l, q, LossSeqs(s.losses), b.batchSeq, kept);
  }

  lemma SendAccounts<V>(vt: ValueText<V>, s: AgentState<V>, live: ProtoBatch<V>, sendOk: bool)
    requires Joinable(live.metrics)
    ensures Accounted(SendPhase(vt, s, live, sendOk)) == Accounted(s) + multiset{live.batchSeq as int}
  {
    hide Seqs, MessageSeqs, LossSeqs, BufferBatch, LocalEntry;
    if sendOk {
      DeliveredAccounts(s, live);
    } else {
      SameAccount(s, s.(connected := false));
      LocalEntryNumber(live);
      BufferAccounts(vt, s.(connected := false), LocalEntry(live));
      hide Accounted;
    }
  }

  lemma LocalEntryNumber<V>(live: ProtoBatch<V>)
    requires Joinable(live.metrics)
    ensures LocalEntry(live).batchSeq == live.batchSeq
  {}

  lemma SameAccount<V>(s: AgentState<V>, t: AgentState<V>)
    requires t.delivered == s.delivered && t.messages == s.messages && t.queue == s.queue && t.losses == s.losses
    ensures Accounted(t) == Accounted(s)
  {}

  lemma DeliveredAccounts<V>(s: AgentState<V>, live: ProtoBatch<V>)
    ensures Accounted(s.(connected := true, delivered := s.delivered + [live])) ==
            Accounted(s) + multiset{live.batchSeq as int}
  {
    hide MessageSeqs, Seqs, LossSeqs;
    AckedSnoc(s, live);
    assert multiset([live.batchSeq as int]) == multiset{live.batchSeq as int};
  }

  lemma StepAccounts<V>(vt: ValueText<V>, cfg: AgentConfig, s: AgentState<V>, input: Input<V>)
    ensures var t := Step(vt, cfg, s, input);
            && Accounted(t) == Accounted(s) + multiset{NextSeq(s.batchSeq) as int}
            && t.batchSeq == NextSeq(s.batchSeq)
  {
    hide Step, DrainPhase, SendPhase, LivePoints, MessageSeqs, Seqs, LossSeqs, Ordered;
    StepPhases(vt, cfg, s, input);
    StepOutcome(vt, cfg, s, input);
    var n := NextSeq(s.batchSeq);
    var live := LiveMessage(cfg, input.ts, |s.queue|, n, input.readings);
    DrainPhaseKeeps(vt, s, input);
    SendAccounts(vt, DrainPhase(vt, s, input).(batchSeq := n), live, input.sendOk);
  }

  /**
   * Conservation from any state, such as a buffer left by an earlier process, and
   * for any number of iterations: what was accounted for and what is given out
   * stays in exactly one place per copy.
   */
  lemma {:induction false} RunAccounts<V>(vt: ValueText<V>, cfg: AgentConfig, s: AgentState<V>, inputs: seq<Input<V>>)
    ensures Accounted(Run(vt, cfg, s, inputs)) == Accounted(s) + Given(s.batchSeq, |inputs|)
    decreases |inputs|
  {
    hide Step, Accounted;
    if inputs != [] {
      StepAccounts(vt, cfg, s, inputs[0]);
      RunAccounts(vt, cfg, Step(vt, cfg, s, inputs[0]), inputs[1..]);
    }
  }

  lemma StartKeeps<V>(capacity: nat, connected: bool)
    ensures Conserved(Start<V>(capacity, connected)) && Ordered(Start<V>(capacity, connected))
  {
    var s: AgentState<V> := Start(capacity, connected);
    assert UpTo(0) == [] && Acked(s) == [] && MessageSeqs(s.messages) == [];
    assert Seqs(s.queue) == [] && LossSeqs(s.losses) == [];
  }

  lemma RunFromStart<V>(vt: ValueText<V>, cfg: AgentConfig, capacity: nat, connected: bool, inputs: seq<Input<V>>,
                        n: int)
    requires |inputs| <= INT64_MAX
    ensures var t := Run(vt, cfg, Start(capacity, connected), inputs);
            && Accounted(t)[n] == (if 1 <= n <= |inputs| then 1 else 0)
            && Increasing(MessageSeqs(t.messages) + Seqs(t.queue)) && Increasing(Acked(t))
  {
    hide Run;
    var s: AgentState<V> := Start(capacity, connected);
    StartKeeps<V>(capacity, connected);
    RunKeeps(vt, cfg, s, inputs);
    UpToOnce(|inputs|, n);
  }

  lemma {:induction false} UpToOnce(n: nat, k: int)
    ensures multiset(UpTo(n))[k] == if 1 <= k <= n then 1 else 0
  {
    if n > 0 {
      UpToNext(n - 1);
      UpToOnce(n - 1, k);
    }
  }

  // ------------------------------------------------------------- space, losses

  /** The buffered entries fit the region. */
  ghost predicate WithinCapacity<V>(vt: ValueText<V>, s: AgentState<V>) {
    |Frames(Printed(vt, s.queue))| <= s.capacity
  }

  lemma PrintedTail<V>(vt: ValueText<V>, queue: seq<Batch<V>>)
    requires queue != []
    ensures Printed(vt, queue[1..]) == Printed(vt, queue)[1..]
  {}

  lemma PrintedAppend<V>(vt: ValueText<V>, queue: seq<Batch<V>>, b: Batch<V>)
    ensures Printed(vt, queue + [b]) == Printed(vt, queue) + [Serialize(vt, b)]
  {
    hide Serialize;
  }

  lemma FramesTail(entries: seq<string>)
    requires entries != []
    ensures |Frames(entries)| == 4 + |entries[0]| + |Frames(entries[1..])|
  {}

  /** Bytes an entry takes in the buffer. */
  ghost function EntrySize<V>(vt: ValueText<V>, b: Batch<V>): nat {
    4 + |Serialize(vt, b)|
  }

  ghost function Free<V>(vt: ValueText<V>, s: AgentState<V>): nat
    requires WithinCapacity(vt, s)
  {
    s.capacity - |Frames(Printed(vt, s.queue))|
  }

  lemma AcceptsWithoutOldest<V>(vt: ValueText<V>, s: AgentState<V>, b: Batch<V>)
    requires WithinCapacity(vt, s) && s.queue != []
    ensures Accepts(vt, s.capacity, s.queue[1..], b) <==>
            EntrySize(vt, b) <= s.capacity / 4 &&
            EntrySize(vt, b) <= Free(vt, s) + EntrySize(vt, s.queue[0])
  {
    hide Serialize, Frames;
    PrintedTail(vt, s.queue);
    DropOldestMakesRoom(s.capacity, Printed(vt, s.queue), Serialize(vt, b));
  }

  /**
   * What a failed send costs. With room for the new batch nothing is lost. Else
   * the oldest batch goes, and the new one is kept exactly when it takes at most a
   * quarter of the region and no more than the free bytes and those of the oldest;
   * otherwise both are lost.
   */
  lemma BufferOutcome<V>(vt: ValueText<V>, s: AgentState<V>, b: Batch<V>)
    requires WithinCapacity(vt, s)
    ensures var t := BufferBatch(vt, s, b);
            var small := EntrySize(vt, b) <= s.capacity / 4;
            if small && EntrySize(vt, b) <= Free(vt, s) then
              t == s.(queue := s.queue + [b])
            else if s.queue == [] then
              !small && t == s.(losses := s.losses + [Loss(b.batchSeq, Refused)])
            else
              var oldest := Loss(s.queue[0].batchSeq, DroppedOldest);
              if small && EntrySize(vt, b) <= Free(vt, s) + EntrySize(vt, s.queue[0]) then
                t == s.(queue := s.queue[1..] + [b], losses := s.losses + [oldest])
              else
                t == s.(queue := s.queue[1..], losses := s.losses + [oldest] + [Loss(b.batchSeq, Refused)])
  {
    assert Accepts(vt, s.capacity, s.queue, b) <==>
        EntrySize(vt, b) <= s.capacity / 4 && EntrySize(vt, b) <= Free(vt, s);
    if s.queue == [] {
      assert Free(vt, s) == s.capacity;
    } else {
      AcceptsWithoutOldest(vt, s, b);
    }
    hide Accepts, EntrySize, Free, Serialize;
  }

  /**
   * With entries no larger than the oldest buffered one, and small enough for
   * the region, a failed iteration loses exactly one batch and never the new one.
   */
  lemma DropOldestKeepsNewest<V>(vt: ValueText<V>, s: AgentState<V>, b: Batch<V>)
    requires WithinCapacity(vt, s) && s.queue != [] && !Accepts(vt, s.capacity, s.queue, b)
    requires EntrySize(vt, b) <= s.capacity / 4 && EntrySize(vt, b) <= EntrySize(vt, s.queue[0])
    ensures BufferBatch(vt, s, b) ==
            s.(queue := s.queue[1..] + [b], losses := s.losses + [Loss(s.queue[0].batchSeq, DroppedOldest)])
  {
    AcceptsWithoutOldest(vt, s, b);
    hide Accepts, EntrySize, Free, Serialize;
  }

  /**
   * A state that loses both: a buffer of four times the size of the one batch it
   * holds, and a larger batch to save.
   */
  lemma LargerBatchCostsBoth<V>(vt: ValueText<V>, small: Batch<V>, large: Batch<V>)
    requires EntrySize(vt, small) < EntrySize(vt, large)
    ensures var s := BufferBatch(vt, Start(4 * EntrySize(vt, small), false), small);
            && s.queue == [small] && s.losses == []
            && BufferBatch(vt, s, large) ==
               s.(queue := [], losses := [Loss(small.batchSeq, DroppedOldest), Loss(large.batchSeq, Refused)])
  {
    hide Serialize;
    var s0: AgentState<V> := Start(4 * EntrySize(vt, small), false);
    NoneBuffered(vt, s0);
    BufferOutcome(vt, s0, small);
    var s := BufferBatch(vt, s0, small);
    assert s.queue == [small];
    PrintedAppend(vt, [], small);
    FramesAppend(Printed(vt, []), Serialize(vt, small));
    assert [] + [small] == [small];
    hide BufferBatch, Frames, Printed;
    assert WithinCapacity(vt, s);
    BufferOutcome(vt, s, large);
  }

  lemma NoneBuffered<V>(vt: ValueText<V>, s: AgentState<V>)
    requires s.queue == []
    ensures Frames(Printed(vt, s.queue)) == "" && WithinCapacity(vt, s)
  {}

  /** The batch this iteration would save. */
  function EntryOf<V>(cfg: AgentConfig, n: int64, input: Input<V>): Batch<V> {
    LocalEntry(LiveMessage(cfg, input.ts, 0, n, input.readings))
  }

  lemma EntryIgnoresDepth<V>(cfg: AgentConfig, depth: int, n: int64, input: Input<V>)
    ensures LocalEntry(LiveMessage(cfg, input.ts, depth, n, input.readings)) == EntryOf(cfg, n, input)
  {
    hide LivePoints, ToSamples;
  }

  /** Such batches exist: all else equal, the tenth batch of an agent is larger than the ninth. */
  lemma LaterNumberIsLarger<V>(vt: ValueText<V>, cfg: AgentConfig, input: Input<V>)
    ensures EntrySize(vt, EntryOf(cfg, 9, input)) < EntrySize(vt, EntryOf(cfg, 10, input))
  {
    var b := EntryOf(cfg, 9, input);
    assert EntryOf(cfg, 10, input) == b.(batchSeq := 10);
    assert Show(10) == Show(1) + "0";
    hide EntryOf, Escape, SamplesText;
    NumberedSize(vt, b, 9);
    NumberedSize(vt, b, 10);
  }

  lemma NumberedSize<V>(vt: ValueText<V>, b: Batch<V>, n: int64)
    ensures |Serialize(vt, b.(batchSeq := n))| == |Serialize(vt, b)| - |ShowInt(b.batchSeq)| + |ShowInt(n)|
  {
    hide Escape, Show, ShowInt, SamplesText;
  }
}
