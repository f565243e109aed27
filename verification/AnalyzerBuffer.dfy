/**
 * The analyzer's metric buffer under its two interleaved tasks: one appends
 * consumed metrics, the other analyses the lists and replaces them
 * (services/analyzer/app/__init__.py).
 */
module AnalyzerBuffer {
  import opened OrderedMaps
  import opened Sequences
  import opened Wrappers

  /** A list that was replaced: what the detector had seen of it, and what was appended after that. */
  datatype Chunk<+M> = Chunk(analysed: seq<M>, late: seq<M>)

  /** How the detector's turn on a list ends, up to the first await. */
  datatype Verdict = Raises | Normal | Anomaly

  /** The atomic sections of the two tasks, in the order the event loop runs them. */
  datatype Event<+M> =
    | Consume(service: string, metric: M)
    | StartRound
    | Turn(verdict: Verdict)
    | PublishDone(ok: bool)

  /**
   * `buffer` is the dict of lists; `todo` the services of the running round;
   * `publishing` the service whose anomaly is being published, with the list as
   * the detector saw it. The rest records the run: what was consumed, what the
   * detector was given, which lists were replaced.
   */
  datatype AnalyzerState<+M> = AnalyzerState(
    buffer: OrderedMap<seq<M>>, todo: seq<string>, publishing: Option<(string, seq<M>)>,
    consumed: map<string, seq<M>>, detected: map<string, seq<seq<M>>>, ended: map<string, seq<Chunk<M>>>)

  function Start<M>(): AnalyzerState<M> {
    AnalyzerState(OrderedMap([], map[]), [], None, map[], map[], map[])
  }

  /** The list of a service; a missing one counts as empty. */
  function Live<M>(s: AnalyzerState<M>, service: string): seq<M> {
    if s.buffer.Has(service) then s.buffer.vals[service] else []
  }

  function Consumed<M>(s: AnalyzerState<M>, service: string): seq<M> {
    if service in s.consumed then s.consumed[service] else []
  }

  function Ended<M>(s: AnalyzerState<M>, service: string): seq<Chunk<M>> {
    if service in s.ended then s.ended[service] else []
  }

  function Detected<M>(s: AnalyzerState<M>, service: string): seq<seq<M>> {
    if service in s.detected then s.detected[service] else []
  }

  /** Replaces the list of a service by a new one. */
  function Replace<M>(s: AnalyzerState<M>, service: string, c: Chunk<M>): AnalyzerState<M> {
    s.(buffer := s.buffer.Set(service, []), ended := s.ended[service := Ended(s, service) + [c]])
  }

  /** Records that the detector was given the list. */
  function Seen<M>(s: AnalyzerState<M>, service: string, metrics: seq<M>): AnalyzerState<M> {
    s.(detected := s.detected[service := Detected(s, service) + [metrics]])
  }

  function StepConsume<M>(s: AnalyzerState<M>, service: string, m: M): AnalyzerState<M> {
    s.(buffer := s.buffer.Set(service, Live(s, service) + [m]),
       consumed := s.consumed[service := Consumed(s, service) + [m]])
  }

  function StepTurn<M>(s: AnalyzerState<M>, verdict: Verdict): AnalyzerState<M>
    requires s.todo != []
  {
    var service, rest := s.todo[0], s.(todo := s.todo[1..]);
    var metrics := Live(s, service);
    if |metrics| < 2 || verdict == Raises then rest
    else
      var seen := Seen(rest, service, metrics);
      if verdict == Normal then Replace(seen, service, Chunk(metrics, []))
      else seen.(publishing := Some((service, metrics)))
  }

  function StepPublished<M>(s: AnalyzerState<M>, ok: bool): AnalyzerState<M>
    requires s.publishing.Some?
  {
    var (service, seen) := s.publishing.value;
    var live := Live(s, service);
    var rest := s.(publishing := None);
    if ok then
      var k := if |seen| <= |live| then |seen| else |live|;
      Replace(rest, service, Chunk(live[..k], live[k..]))
    else rest
  }

  /** One atomic section; a section of the detection task that is not due leaves the state alone. */
  function Step<M>(s: AnalyzerState<M>, e: Event<M>): AnalyzerState<M> {
    match e
    case Consume(service, m) => StepConsume(s, service, m)
    case StartRound => if s.todo == [] && s.publishing == None then s.(todo := s.buffer.keys) else s
    case Turn(verdict) => if s.todo != [] && s.publishing == None then StepTurn(s, verdict) else s
    case PublishDone(ok) => if s.publishing.Some? then StepPublished(s, ok) else s
  }

  ghost function Run<M>(s: AnalyzerState<M>, es: seq<Event<M>>): AnalyzerState<M>
    decreases |es|
  {
    if es == [] then s else Run(Step(s, es[0]), es[1..])
  }

  // ------------------------------------------------------------- conservation

  function Flat<M>(cs: seq<Chunk<M>>): seq<M> {
    if cs == [] then [] else Flat(cs[..|cs| - 1]) + (cs[|cs| - 1].analysed + cs[|cs| - 1].late)
  }

  /** All a service consumed, in order, is what was replaced followed by what is still buffered. */
  ghost predicate ConservedFor<M>(s: AnalyzerState<M>, service: string) {
    Consumed(s, service) == Flat(Ended(s, service)) + Live(s, service)
  }

  ghost predicate Conserved<M>(s: AnalyzerState<M>) {
    forall service :: ConservedFor(s, service)
  }

  /** While an anomaly is being published the list only grows, and belongs to no later turn of the round. */
  ghost predicate Orderly<M>(s: AnalyzerState<M>) {
    && s.buffer.Valid() && Distinct(s.todo)
    && (forall i | 0 <= i < |s.todo| :: s.buffer.Has(s.todo[i]))
    && (s.publishing.Some? ==>
          var (service, seen) := s.publishing.value;
          && s.buffer.Has(service) && service !in s.todo
          && |seen| <= |Live(s, service)| && seen == Live(s, service)[..|seen|])
  }

  /** The detector was given exactly the analysed part of every replaced list, and what is being published. */
  ghost predicate Analysed<M>(s: AnalyzerState<M>) {
    && (forall service, c | service in s.ended && c in s.ended[service] :: c.analysed in Detected(s, service))
    && (s.publishing.Some? ==> s.publishing.value.1 in Detected(s, s.publishing.value.0))
  }

  ghost predicate Safe<M>(s: AnalyzerState<M>) {
    Conserved(s) && Orderly(s) && Analysed(s)
  }

  lemma FlatSnoc<M>(cs: seq<Chunk<M>>, c: Chunk<M>)
    ensures Flat(cs + [c]) == Flat(cs) + (c.analysed + c.late)
  {
    assert (cs + [c])[..|cs + [c]| - 1] == cs;
  }

  /** Replacing the list of one service. */
  lemma ReplaceChanges<M>(s: AnalyzerState<M>, service: string, c: Chunk<M>, x: string)
    ensures var t := Replace(s, service, c);
            && Consumed(t, x) == Consumed(s, x)
            && Ended(t, x) == (if x == service then Ended(s, x) + [c] else Ended(s, x))
            && Live(t, x) == if x == service then [] else Live(s, x)
  {}

  lemma ReplaceConserves<M>(s: AnalyzerState<M>, service: string, c: Chunk<M>)
    requires Conserved(s) && Live(s, service) == c.analysed + c.late
    ensures Conserved(Replace(s, service, c))
  {
    forall x
      ensures ConservedFor(Replace(s, service, c), x)
    {
      assert ConservedFor(s, x);
      ReplaceChanges(s, service, c, x);
      FlatSnoc(Ended(s, x), c);
      hide Replace, Live, Ended, Consumed, Flat;
      assert Flat(Ended(s, x)) + Live(s, x) + [] == Flat(Ended(s, x)) + Live(s, x);
    }
  }

  lemma ConsumeConserves<M>(s: AnalyzerState<M>, service: string, m: M)
    requires Conserved(s)
    ensures Conserved(StepConsume(s, service, m))
  {
    var t := StepConsume(s, service, m);
    forall x
      ensures ConservedFor(t, x)
    {
      assert ConservedFor(s, x);
      if x == service {
        Associative(Flat(Ended(s, x)), Live(s, x), [m]);
      }
    }
  }

  lemma SameRecordConserves<M>(s: AnalyzerState<M>, t: AnalyzerState<M>)
    requires Conserved(s) && t.buffer == s.buffer && t.consumed == s.consumed && t.ended == s.ended
    ensures Conserved(t)
  {
    forall x
      ensures ConservedFor(t, x)
    {
      assert ConservedFor(s, x);
    }
  }

  lemma RoundSafe<M>(s: AnalyzerState<M>)
    requires Safe(s) && s.todo == [] && s.publishing == None
    ensures Safe(s.(todo := s.buffer.keys))
  {
    SameRecordConserves(s, s.(todo := s.buffer.keys));
    hide Conserved;
  }

  lemma StepSafe<M>(s: AnalyzerState<M>, e: Event<M>)
    requires Safe(s)
    ensures Safe(Step(s, e))
  {
    hide Safe, StepConsume, StepTurn, StepPublished;
    match e {
      case Consume(service, m) =>
        ConsumeSafe(s, service, m);
      case StartRound =>
        if s.todo == [] && s.publishing == None {
          RoundSafe(s);
        }
      case Turn(verdict) =>
        if s.todo != [] && s.publishing == None {
          TurnSafe(s, verdict);
        }
      case PublishDone(ok) =>
        if s.publishing.Some? {
          PublishedSafe(s, ok);
        }
    }
  }

  lemma ConsumeSafe<M>(s: AnalyzerState<M>, service: string, m: M)
    requires Safe(s)
    ensures Safe(StepConsume(s, service, m))
  {
    hide Conserved, Orderly, Analysed, StepConsume;
    ConsumeConserves(s, service, m);
    ConsumeOrderly(s, service, m);
    ConsumeAnalysed(s, service, m);
  }

  lemma ConsumeAnalysed<M>(s: AnalyzerState<M>, service: string, m: M)
    requires Analysed(s)
    ensures Analysed(StepConsume(s, service, m))
  {
    var t := StepConsume(s, service, m);
    assert t.ended == s.ended && t.detected == s.detected && t.publishing == s.publishing;
    hide StepConsume;
  }

  lemma ConsumeOrderly<M>(s: AnalyzerState<M>, service: string, m: M)
    requires Orderly(s)
    ensures Orderly(StepConsume(s, service, m))
  {
    SetKeepsValid(s.buffer, service, Live(s, service) + [m]);
  }

  lemma ReplaceSafe<M>(s: AnalyzerState<M>, service: string, c: Chunk<M>)
    requires Safe(s) && s.publishing == None && s.buffer.Has(service)
    requires Live(s, service) == c.analysed + c.late && c.analysed in Detected(s, service)
    ensures Safe(Replace(s, service, c))
  {
    ReplaceConserves(s, service, c);
    hide Conserved;
    SetKeepsValid(s.buffer, service, []);
  }

  /** Recording what the detector was given. */
  lemma DetectSafe<M>(s: AnalyzerState<M>, service: string, metrics: seq<M>)
    requires Safe(s)
    ensures Safe(Seen(s, service, metrics)) && metrics in Detected(Seen(s, service, metrics), service)
  {
    var t := Seen(s, service, metrics);
    SameRecordConserves(s, t);
    hide Conserved;
    assert metrics in Detected(t, service);
    assert forall x, m | m in Detected(s, x) :: m in Detected(t, x);
  }

  lemma NextSafe<M>(s: AnalyzerState<M>)
    requires Safe(s) && s.todo != [] && s.publishing == None
    ensures Safe(s.(todo := s.todo[1..])) && s.buffer.Has(s.todo[0]) && s.todo[0] !in s.todo[1..]
  {
    SameRecordConserves(s, s.(todo := s.todo[1..]));
    hide Conserved;
  }

  lemma PublishingSafe<M>(s: AnalyzerState<M>, service: string, metrics: seq<M>)
    requires Safe(s) && s.buffer.Has(service) && service !in s.todo && metrics == Live(s, service)
    requires metrics in Detected(s, service)
    ensures Safe(s.(publishing := Some((service, metrics))))
  {
    SameRecordConserves(s, s.(publishing := Some((service, metrics))));
    hide Conserved;
    assert metrics[..|metrics|] == metrics;
  }

  lemma TurnSafe<M>(s: AnalyzerState<M>, verdict: Verdict)
    requires Safe(s) && s.todo != [] && s.publishing == None
    ensures Safe(StepTurn(s, verdict))
  {
    var service, rest, metrics := s.todo[0], s.(todo := s.todo[1..]), Live(s, s.todo[0]);
    NextSafe(s);
    if |metrics| >= 2 && verdict != Raises {
      var seen := Seen(rest, service, metrics);
      DetectSafe(rest, service, metrics);
      hide Safe, Replace;
      if verdict == Normal {
        assert metrics + [] == metrics;
        ReplaceSafe(seen, service, Chunk(metrics, []));
      } else {
        PublishingSafe(seen, service, metrics);
      }
    }
  }

  lemma PublishedSafe<M>(s: AnalyzerState<M>, ok: bool)
    requires Safe(s) && s.publishing.Some?
    ensures Safe(StepPublished(s, ok))
  {
    var (service, seen) := s.publishing.value;
    var rest, live := s.(publishing := None), Live(s, service);
    SameRecordConserves(s, rest);
    hide Conserved;
    assert Safe(rest);
    if ok {
      assert live == live[..|seen|] + live[|seen|..];
      ReplaceSafe(rest, service, Chunk(live[..|seen|], live[|seen|..]));
    }
  }

  lemma {:induction false} RunKeepsSafe<M>(s: AnalyzerState<M>, es: seq<Event<M>>)
    requires Safe(s)
    ensures Safe(Run(s, es))
    decreases |es|
  {
    hide Safe, Step;
    if es != [] {
      StepSafe(s, es[0]);
      RunKeepsSafe(Step(s, es[0]), es[1..]);
    }
  }

  /**
   * Under every interleaving the metrics of a service, those consumed before and
   * those the events bring, are in order those of its replaced lists and then
   * those still buffered; and the detector saw the beginning of every replaced list.
   */
  lemma RunSafe<M>(s: AnalyzerState<M>, es: seq<Event<M>>)
    requires Safe(s)
    ensures var t := Run(s, es);
            && Safe(t)
            && forall service ::
                 Consumed(s, service) + ConsumedOf(es, service) == Flat(Ended(t, service)) + Live(t, service)
  {
    RunKeepsSafe(s, es);
    var t := Run(s, es);
    forall service
      ensures Consumed(s, service) + ConsumedOf(es, service) == Flat(Ended(t, service)) + Live(t, service)
    {
      assert ConservedFor(t, service);
      hide Run, ConsumedOf, Flat, Ended, Live, Consumed;
      RunConsumes(s, es, service);
    }
  }

  lemma StartSafe<M>()
    ensures Safe(Start<M>())
  {}

  /** A turn that raises or finds nothing anomalous discards nothing the detector has not seen. */
  lemma TurnDiscardsOnlySeen<M>(s: AnalyzerState<M>, verdict: Verdict)
    requires s.todo != [] && s.publishing == None
    ensures var t := StepTurn(s, verdict);
            var service := s.todo[0];
            && t.todo == s.todo[1..] && t.consumed == s.consumed
            && (verdict != Normal || |Live(s, service)| < 2 ==> t.buffer == s.buffer && t.ended == s.ended)
            && (verdict == Raises || |Live(s, service)| < 2 ==> t == s.(todo := s.todo[1..]))
            && (verdict == Normal && |Live(s, service)| >= 2 ==>
                  && Ended(t, service) == Ended(s, service) + [Chunk(Live(s, service), [])]
                  && Live(s, service) in Detected(t, service)
                  && forall x | x != service :: Live(t, x) == Live(s, x) && Ended(t, x) == Ended(s, x))
  {}

  // ------------------------------------------------------------ the lost tail

  /** The metrics of one service consumed during a stretch of events. */
  function ConsumedOf<M>(es: seq<Event<M>>, service: string): seq<M> {
    if es == [] then []
    else if es[0].Consume? && es[0].service == service then [es[0].metric] + ConsumedOf(es[1..], service)
    else ConsumedOf(es[1..], service)
  }

  /** Only the other task runs while an anomaly is being published: its sections append. */
  lemma {:induction false} WhilePublishing<M>(s: AnalyzerState<M>, es: seq<Event<M>>, service: string)
    requires s.publishing.Some? && forall i | 0 <= i < |es| :: !es[i].PublishDone?
    ensures var t := Run(s, es);
            && t.publishing == s.publishing && t.todo == s.todo && t.ended == s.ended
            && Live(t, service) == Live(s, service) + ConsumedOf(es, service)
    decreases |es|
  {
    if es == [] {
      assert Live(s, service) + [] == Live(s, service);
    } else {
      WhilePublishing(Step(s, es[0]), es[1..], service);
      if es[0].Consume? && es[0].service == service {
        Associative(Live(s, service), [es[0].metric], ConsumedOf(es[1..], service));
      }
    }
  }

  /** An anomalous turn leaves the list and starts a publish. */
  lemma AnomalyStarts<M>(s: AnalyzerState<M>)
    requires s.publishing == None && s.todo != [] && |Live(s, s.todo[0])| >= 2
    ensures var service, t := s.todo[0], Step(s, Turn(Anomaly));
            && t.publishing == Some((service, Live(s, service))) && t.ended == s.ended && t.todo == s.todo[1..]
            && t.buffer == s.buffer && Detected(t, service) == Detected(s, service) + [Live(s, service)]
            && Live(t, service) == Live(s, service)
  {}

  /** A publish that succeeds replaces the list, split where the detector stopped reading. */
  lemma PublishReplaces<M>(s: AnalyzerState<M>, service: string, seen: seq<M>, late: seq<M>)
    requires s.publishing == Some((service, seen)) && Live(s, service) == seen + late
    ensures var t := Step(s, PublishDone(true));
            Ended(t, service) == Ended(s, service) + [Chunk(seen, late)] && Live(t, service) == []
  {
    assert (seen + late)[..|seen|] == seen && (seen + late)[|seen|..] == late;
    ReplaceChanges(s.(publishing := None), service, Chunk(seen, late), service);
    hide Replace, Live, Ended;
  }

  /**
   * What a successful publish throws away unanalysed: exactly the metrics of
   * that service consumed while it was awaited. Nothing is lost if and only if
   * there were none.
   */
  lemma PublishLosesExactlyLate<M>(s: AnalyzerState<M>, es: seq<Event<M>>)
    requires s.publishing == None && s.todo != [] && |Live(s, s.todo[0])| >= 2
    requires forall i | 0 <= i < |es| :: !es[i].PublishDone?
    ensures var service := s.todo[0];
            var t := Step(Run(Step(s, Turn(Anomaly)), es), PublishDone(true));
            && Ended(t, service) == Ended(s, service) + [Chunk(Live(s, service), ConsumedOf(es, service))]
            && Live(t, service) == []
  {
    var service := s.todo[0];
    var s1 := Step(s, Turn(Anomaly));
    AnomalyStarts(s);
    WhilePublishing(s1, es, service);
    hide Run, Step, Live;
    PublishReplaces(Run(s1, es), service, Live(s, service), ConsumedOf(es, service));
  }

  /** The unanalysed parts of replaced lists, one after the other. */
  function Lates<M>(cs: seq<Chunk<M>>): seq<M> {
    if cs == [] then [] else Lates(cs[..|cs| - 1]) + cs[|cs| - 1].late
  }

  /** Their analysed parts. */
  function Fronts<M>(cs: seq<Chunk<M>>): seq<M> {
    if cs == [] then [] else Fronts(cs[..|cs| - 1]) + cs[|cs| - 1].analysed
  }

  predicate PublishesFor<M>(s: AnalyzerState<M>, service: string) {
    s.publishing.Some? && s.publishing.value.0 == service
  }

  /** What the service consumed so far during its publish under way, after one more section. */
  function WaitingAfter<M>(s: AnalyzerState<M>, e: Event<M>, service: string, waiting: seq<M>): seq<M> {
    if !PublishesFor(s, service) || e.PublishDone? then []
    else if e.Consume? && e.service == service then waiting + [e.metric]
    else waiting
  }

  /** The metrics a service consumes during those of its publishes that succeed. */
  ghost function DuringPublishes<M>(s: AnalyzerState<M>, es: seq<Event<M>>, service: string, waiting: seq<M>): seq<M>
    decreases |es|
  {
    if es == [] then []
    else
      (if PublishesFor(s, service) && es[0] == PublishDone(true) then waiting else []) +
      DuringPublishes(Step(s, es[0]), es[1..], service, WaitingAfter(s, es[0], service, waiting))
  }

  /** The list of a service being published is what the detector saw, then what was consumed since. */
  ghost predicate Awaits<M>(s: AnalyzerState<M>, service: string, waiting: seq<M>) {
    if PublishesFor(s, service) then Live(s, service) == s.publishing.value.1 + waiting else waiting == []
  }

  lemma LatesSnoc<M>(cs: seq<Chunk<M>>, c: Chunk<M>)
    ensures Lates(cs + [c]) == Lates(cs) + c.late && Fronts(cs + [c]) == Fronts(cs) + c.analysed
  {
    assert (cs + [c])[..|cs + [c]| - 1] == cs;
  }

  lemma StepLates<M>(s: AnalyzerState<M>, e: Event<M>, service: string, waiting: seq<M>)
    requires Awaits(s, service, waiting)
    ensures var t := Step(s, e);
            && Awaits(t, service, WaitingAfter(s, e, service, waiting))
            && Lates(Ended(t, service)) == Lates(Ended(s, service)) +
               if PublishesFor(s, service) && e == PublishDone(true) then waiting else []
  {
    hide Lates;
    assert Lates(Ended(s, service)) + [] == Lates(Ended(s, service));
    match e {
      case Consume(x, m) =>
        if PublishesFor(s, service) && x == service {
          Associative(s.publishing.value.1, waiting, [m]);
        }
      case StartRound =>
      case Turn(verdict) =>
        if s.todo != [] && s.publishing == None {
          TurnLates(s, verdict, service);
        }
      case PublishDone(ok) =>
        if s.publishing.Some? {
          PublishedLates(s, ok, service, waiting);
        }
    }
  }

  lemma TurnLates<M>(s: AnalyzerState<M>, verdict: Verdict, service: string)
    requires s.todo != [] && s.publishing == None
    ensures var t := StepTurn(s, verdict);
            Awaits(t, service, []) && Lates(Ended(t, service)) == Lates(Ended(s, service))
  {
    var metrics := Live(s, s.todo[0]);
    TurnEffect(s, verdict, service);
    LatesSnoc(Ended(s, service), Chunk(metrics, []));
    hide Lates, Fronts, Ended, Live, StepTurn;
    assert Lates(Ended(s, service)) + [] == Lates(Ended(s, service));
    assert metrics + [] == metrics;
  }

  /** A turn starts a publish of the list as it stands, or replaces it whole, or does neither. */
  lemma TurnEffect<M>(s: AnalyzerState<M>, verdict: Verdict, service: string)
    requires s.todo != [] && s.publishing == None
    ensures var t, metrics := StepTurn(s, verdict), Live(s, s.todo[0]);
            && (Ended(t, service) == Ended(s, service) ||
                Ended(t, service) == Ended(s, service) + [Chunk(metrics, [])])
            && (t.publishing.Some? ==> t.publishing == Some((s.todo[0], metrics)) && Live(t, s.todo[0]) == metrics)
  {}

  lemma PublishedLates<M>(s: AnalyzerState<M>, ok: bool, service: string, waiting: seq<M>)
    requires s.publishing.Some? && Awaits(s, service, waiting)
    ensures var t := StepPublished(s, ok);
            && t.publishing == None
            && Lates(Ended(t, service)) == Lates(Ended(s, service)) +
               if PublishesFor(s, service) && ok then waiting else []
  {
    hide Lates;
    assert Lates(Ended(s, service)) + [] == Lates(Ended(s, service));
    if ok && PublishesFor(s, service) {
      var seen := s.publishing.value.1;
      LatesSnoc(Ended(s, service), Chunk(seen, waiting));
      PublishReplaces(s, service, seen, waiting);
    } else if ok {
      OtherPublished(s, service);
    }
  }

  lemma OtherPublished<M>(s: AnalyzerState<M>, service: string)
    requires s.publishing.Some? && !PublishesFor(s, service)
    ensures Ended(StepPublished(s, true), service) == Ended(s, service)
  {}

  lemma {:induction false} RunLates<M>(s: AnalyzerState<M>, es: seq<Event<M>>, service: string, waiting: seq<M>)
    requires Awaits(s, service, waiting)
    ensures Lates(Ended(Run(s, es), service)) ==
            Lates(Ended(s, service)) + DuringPublishes(s, es, service, waiting)
    decreases |es|
  {
    hide Lates, Ended, Step, Awaits, WaitingAfter, PublishesFor;
    if es == [] {
      assert Lates(Ended(s, service)) + [] == Lates(Ended(s, service));
    } else {
      var e := es[0];
      StepLates(s, e, service, waiting);
      RunLates(Step(s, e), es[1..], service, WaitingAfter(s, e, service, waiting));
      Associative(Lates(Ended(s, service)),
                  if PublishesFor(s, service) && e == PublishDone(true) then waiting else [],
                  DuringPublishes(Step(s, e), es[1..], service, WaitingAfter(s, e, service, waiting)));
    }
  }

  lemma {:induction false} FlatParts<M>(cs: seq<Chunk<M>>)
    ensures |Flat(cs)| == |Fronts(cs)| + |Lates(cs)|
    ensures Lates(cs) == [] ==> Flat(cs) == Fronts(cs)
  {
    if cs != [] {
      FlatParts(cs[..|cs| - 1]);
    }
  }

  /** What a run records as consumed is what its events bring, in their order. */
  lemma {:induction false} RunConsumes<M>(s: AnalyzerState<M>, es: seq<Event<M>>, service: string)
    ensures Consumed(Run(s, es), service) == Consumed(s, service) + ConsumedOf(es, service)
    decreases |es|
  {
    hide Step, Consumed;
    if es == [] {
      assert Consumed(s, service) + [] == Consumed(s, service);
    } else {
      StepConsumes(s, es[0], service);
      RunConsumes(Step(s, es[0]), es[1..], service);
      Associative(Consumed(s, service), ConsumedOf([es[0]], service), ConsumedOf(es[1..], service));
    }
  }

  lemma StepConsumes<M>(s: AnalyzerState<M>, e: Event<M>, service: string)
    ensures Consumed(Step(s, e), service) == Consumed(s, service) + ConsumedOf([e], service)
    ensures ConsumedOf([e], service) == if e.Consume? && e.service == service then [e.metric] else []
  {
    assert [e][1..] == [];
  }

  /**
   * From the start, under every interleaving, the metrics that reached a service
   * are, in order, those of its replaced lists followed by those still buffered.
   */
  lemma RunKeepsAll<M>(es: seq<Event<M>>, service: string)
    ensures var t := Run(Start<M>(), es);
            ConsumedOf(es, service) == Flat(Ended(t, service)) + Live(t, service)
  {
    hide Run, ConsumedOf, Flat, Ended, Live, Consumed;
    ConservedFromStart(es, service);
    ConsumedFromStart(es, service);
  }

  lemma ConsumedFromStart<M>(es: seq<Event<M>>, service: string)
    ensures Consumed(Run(Start<M>(), es), service) == ConsumedOf(es, service)
  {
    RunConsumes(Start<M>(), es, service);
    hide Run;
    var all := ConsumedOf(es, service);
    assert Consumed(Start<M>(), service) == [] && [] + all == all;
  }

  /**
   * Over every run from the start, what is thrown away unanalysed is exactly what
   * reaches a service during its own successful publishes: all that reached it is
   * in analysed or live lists if and only if that is nothing.
   */
  lemma RunLosesExactly<M>(es: seq<Event<M>>, service: string)
    ensures var t, lost := Run(Start<M>(), es), DuringPublishes(Start<M>(), es, service, []);
            && Lates(Ended(t, service)) == lost
            && (ConsumedOf(es, service) == Fronts(Ended(t, service)) + Live(t, service) <==> lost == [])
            && |ConsumedOf(es, service)| == |Fronts(Ended(t, service))| + |lost| + |Live(t, service)|
  {
    hide *;
    ConsumedFromStart(es, service);
    LatesFromStart(es, service);
    ConservedFromStart(es, service);
    PartsOf(Run(Start<M>(), es), service);
  }

  lemma LatesFromStart<M>(es: seq<Event<M>>, service: string)
    ensures Lates(Ended(Run(Start<M>(), es), service)) == DuringPublishes(Start<M>(), es, service, [])
  {
    hide *;
    NothingAtStart<M>(service);
    RunLates(Start<M>(), es, service, []);
    var lost := DuringPublishes(Start<M>(), es, service, []);
    assert [] + lost == lost;
  }

  lemma NothingAtStart<M>(service: string)
    ensures Awaits(Start<M>(), service, []) && Lates(Ended(Start<M>(), service)) == []
  {}

  lemma ConservedFromStart<M>(es: seq<Event<M>>, service: string)
    ensures ConservedFor(Run(Start<M>(), es), service)
  {
    StartSafe<M>();
    hide Run, ConservedFor, Orderly, Analysed;
    RunKeepsSafe(Start<M>(), es);
    assert Conserved(Run(Start<M>(), es));
  }

  lemma PartsOf<M>(s: AnalyzerState<M>, service: string)
    requires ConservedFor(s, service)
    ensures var fronts, lates, live := Fronts(Ended(s, service)), Lates(Ended(s, service)), Live(s, service);
            && (Consumed(s, service) == fronts + live <==> lates == [])
            && |Consumed(s, service)| == |fronts| + |lates| + |live|
  {
    FlatParts(Ended(s, service));
    hide Fronts, Lates, Flat, Ended, Live, Consumed;
  }

  // ------------------------------------------------------------------- rounds

  /** A round that is due takes every service with a list, each once, in the order of the dict. */
  lemma RoundTakesAll<M>(s: AnalyzerState<M>)
    requires Orderly(s) && s.todo == [] && s.publishing == None
    ensures var t := Step(s, StartRound);
            && Distinct(t.todo) && t.todo == s.buffer.keys
            && (forall service :: service in t.todo <==> service in s.buffer.vals)
            && t == s.(todo := t.todo)
  {}

  /** A failed publish keeps the list. */
  lemma FailedPublishKeeps<M>(s: AnalyzerState<M>)
    ensures Step(s, PublishDone(false)) == s.(publishing := None)
  {}

  /** What one turn does to the first service of the round and to every other. */
  lemma NormalTurn<M>(s: AnalyzerState<M>, x: string)
    requires Orderly(s) && s.todo != [] && s.publishing == None
    ensures var t := Step(s, Turn(Normal));
            && t.todo == s.todo[1..] && t.publishing == None
            && (if x == s.todo[0] && |Live(s, x)| >= 2
                then Ended(t, x) == Ended(s, x) + [Chunk(Live(s, x), [])] && Live(t, x) == [] &&
                     Detected(t, x) == Detected(s, x) + [Live(s, x)]
                else Ended(t, x) == Ended(s, x) && Live(t, x) == Live(s, x) && Detected(t, x) == Detected(s, x))
  {
    hide Distinct;
  }

  lemma NormalTurnOrderly<M>(s: AnalyzerState<M>)
    requires Orderly(s) && s.todo != [] && s.publishing == None
    ensures Orderly(Step(s, Turn(Normal)))
  {
    SetKeepsValid(s.buffer, s.todo[0], []);
    hide Live, Ended, Detected;
  }

  function Turns<M>(n: nat): (es: seq<Event<M>>)
    ensures |es| == n && forall i | 0 <= i < n :: es[i] == Turn(Normal)
  {
    seq(n, i => Turn(Normal))
  }

  /**
   * The turns of a round without anomalies: each of its services with at least two
   * metrics has its whole list given to the detector once and emptied, every
   * other list stays.
   */
  lemma {:induction false} RoundAnalyses<M>(s: AnalyzerState<M>, x: string)
    requires Orderly(s) && s.publishing == None
    ensures var t := Run(s, Turns<M>(|s.todo|));
            && t.todo == [] && t.publishing == None
            && (if x in s.todo && |Live(s, x)| >= 2
                then Ended(t, x) == Ended(s, x) + [Chunk(Live(s, x), [])] && Live(t, x) == [] &&
                     Detected(t, x) == Detected(s, x) + [Live(s, x)]
                else Ended(t, x) == Ended(s, x) && Live(t, x) == Live(s, x) && Detected(t, x) == Detected(s, x))
    decreases |s.todo|
  {
    if s.todo != [] {
      NormalTurn(s, x);
      NormalTurnOrderly(s);
      var es := Turns<M>(|s.todo|);
      assert es[1..] == Turns<M>(|s.todo| - 1);
      assert Distinct(s.todo) && s.todo == [s.todo[0]] + s.todo[1..];
      hide Step, Orderly, Live, Ended, Detected;
      RoundAnalyses(Step(s, Turn(Normal)), x);
    }
  }
}
