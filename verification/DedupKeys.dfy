/**
 * From Kafka records to cache keys (services/realtime/src/kafka/consumer.js and
 * services/realtime/src/index.js).
 */
module DedupKeys {
  import opened Decimal
  import opened EventCache
  import opened Wrappers

  datatype KafkaRecord<+E> = KafkaRecord(
    topic: string, partition: nat, offset: nat, key: string, timestamp: int, value: E)

  /** The topics the consumer subscribes to. */
  predicate Subscribed(topic: string) {
    "anomaly-detected" <= topic || "incident-" <= topic || "healing-" <= topic || "raw-logs" <= topic
  }

  /** The topics `mapTopicToEvent` lists by name. */
  function Listed(topic: string): Option<string> {
    if topic == "anomaly-detected" then Some("anomaly.detected")
    else if topic == "incident-created" then Some("incident.created")
    else if topic == "incident-updated" then Some("incident.updated")
    else if topic == "healing-triggered" then Some("healing.started")
    else if topic == "healing-completed" then Some("healing.completed")
    else if topic == "raw-logs" then Some("log.stream")
    else None
  }

  /** `mapTopicToEvent`. */
  function MapTopicToEvent(topic: string): string {
    if Listed(topic).Some? then Listed(topic).value
    else if "incident-" <= topic then "incident." + topic[9..]
    else if "healing-" <= topic then "healing." + topic[8..]
    else topic
  }

  /** The key the handler builds for a log line; an absent partition prints as `undefined`. */
  function LogKey(topic: string, partition: Option<nat>, offset: nat): string {
    topic + "-" + (if partition.Some? then Show(partition.value) else "undefined") + "-" + Show(offset)
  }

  /** The handler's dedup key for a payload carrying the given partition field. */
  function DedupKey<E>(r: KafkaRecord<E>, partition: Option<nat>): string {
    if MapTopicToEvent(r.topic) == "log.stream" then LogKey(r.topic, partition, r.offset)
    else if r.key != "" then r.key
    else r.topic + "-" + Show(r.offset) + "-" + ShowInt(r.timestamp)
  }

  /** The partition field of the consumer's `*` event, which the handler listens to: it is not set. */
  function EmittedPartition<E>(r: KafkaRecord<E>): Option<nat> {
    None
  }

  /** What reaches the cache for a record. */
  function ToArrival<E>(r: KafkaRecord<E>, checkedAt: int, cachedAt: int): Arrival<E> {
    Arrival(MapTopicToEvent(r.topic), DedupKey(r, EmittedPartition(r)), r.value, checkedAt, cachedAt)
  }

  /** A number at the end of a text is determined by the last dash. */
  lemma LastDash(x: string, d: string, y: string, e: string)
    requires AllDigits(d) && AllDigits(e) && x + "-" + d == y + "-" + e
    ensures x == y && d == e
  {
    var s, t := x + "-" + d, y + "-" + e;
    assert s[|x|] == '-' && t[|y|] == '-';
    forall i | |x| < i < |s|
      ensures s[i] != '-'
    {
      assert s[i] == d[i - |x| - 1] && IsDigit(d[i - |x| - 1]);
    }
    forall i | |y| < i < |t|
      ensures t[i] != '-'
    {
      assert t[i] == e[i - |y| - 1] && IsDigit(e[i - |y| - 1]);
    }
    assert x == s[..|x|] && y == t[..|y|];
    assert d == s[|x| + 1..] && e == t[|y| + 1..];
  }

  /** With the partition in it, the log key names one record: topics may contain dashes. */
  lemma LogKeyInjective(t: string, p: nat, o: nat, t': string, p': nat, o': nat)
    ensures LogKey(t, Some(p), o) == LogKey(t', Some(p'), o') <==> t == t' && p == p' && o == o'
  {
    if LogKey(t, Some(p), o) == LogKey(t', Some(p'), o') {
      LastDash(t + "-" + Show(p), Show(o), t' + "-" + Show(p'), Show(o'));
      LastDash(t, Show(p), t', Show(p'));
      ShowInjective(o, o');
      ShowInjective(p, p');
    }
  }

  /** As emitted, the key tells topics and offsets apart, but not partitions. */
  lemma EmittedLogKeyIgnoresPartition<E>(r: KafkaRecord<E>, q: KafkaRecord<E>)
    requires MapTopicToEvent(r.topic) == MapTopicToEvent(q.topic) == "log.stream"
    ensures DedupKey(r, EmittedPartition(r)) == DedupKey(q, EmittedPartition(q)) <==>
            r.topic == q.topic && r.offset == q.offset
  {
    if DedupKey(r, EmittedPartition(r)) == DedupKey(q, EmittedPartition(q)) {
      LastDash(r.topic + "-" + "undefined", Show(r.offset), q.topic + "-" + "undefined", Show(q.offset));
      ShowInjective(r.offset, q.offset);
      var s, t := r.topic + "-" + "undefined", q.topic + "-" + "undefined";
      assert s[..|s| - 10] == r.topic && t[..|t| - 10] == q.topic;
    }
  }

  /**
   * The event type of every subscribed topic: a dot for the dash after `incident`
   * and `healing`, but for the one topic whose type is `healing.started`; the two
   * other named topics have a type of their own.
   */
  lemma TopicTypes(topic: string)
    requires Subscribed(topic)
    ensures "incident-" <= topic ==> MapTopicToEvent(topic) == "incident." + topic[9..]
    ensures "healing-" <= topic ==> MapTopicToEvent(topic) == "healing." + HealingType(topic[8..])
    ensures "anomaly-detected" <= topic ==>
              MapTopicToEvent(topic) == if topic == "anomaly-detected" then "anomaly.detected" else topic
    ensures "raw-logs" <= topic ==> MapTopicToEvent(topic) == if topic == "raw-logs" then "log.stream" else topic
  {
    if "incident-" <= topic {
      ListedIncident(topic);
    } else if "healing-" <= topic {
      ListedHealing(topic);
    } else {
      ListedOther(topic);
    }
    hide Listed;
    assert "incident-" <= topic ==> topic[0] == 'i';
    assert "healing-" <= topic ==> topic[0] == 'h';
    assert "anomaly-detected" <= topic ==> topic[0] == 'a';
    assert "raw-logs" <= topic ==> topic[0] == 'r';
  }

  lemma ListedIncident(topic: string)
    requires "incident-" <= topic
    ensures Listed(topic).Some? ==> Listed(topic).value == "incident." + topic[9..]
  {
    assert topic[0] == 'i';
    assert "incident-created"[9..] == "created" && "incident-updated"[9..] == "updated";
  }

  lemma ListedHealing(topic: string)
    requires "healing-" <= topic
    ensures Listed(topic).Some? ==> Listed(topic).value == "healing." + HealingType(topic[8..])
    ensures topic[8..] == "triggered" ==> Listed(topic).Some?
  {
    HealingNames(topic);
    assert topic[0] == 'h';
    assert "healing." + "started" == "healing.started" && "healing." + "completed" == "healing.completed";
  }

  lemma HealingNames(topic: string)
    requires "healing-" <= topic
    ensures topic == "healing-triggered" <==> topic[8..] == "triggered"
    ensures topic == "healing-completed" <==> topic[8..] == "completed"
  {
    assert topic == "healing-" + topic[8..];
    assert "healing-triggered"[8..] == "triggered" && "healing-completed"[8..] == "completed";
    assert "healing-" + "triggered" == "healing-triggered" && "healing-" + "completed" == "healing-completed";
  }

  lemma ListedOther(topic: string)
    requires !("incident-" <= topic) && !("healing-" <= topic)
    ensures Listed(topic) == if topic == "anomaly-detected" then Some("anomaly.detected")
                             else if topic == "raw-logs" then Some("log.stream") else None
  {
    assert "incident-" <= "incident-created" && "incident-" <= "incident-updated";
    assert "healing-" <= "healing-triggered" && "healing-" <= "healing-completed";
  }

  function HealingType(name: string): string {
    if name == "triggered" then "started" else name
  }

  /** Of all subscribed topics exactly `raw-logs` brings log lines. */
  lemma LogTopic(topic: string)
    requires Subscribed(topic)
    ensures MapTopicToEvent(topic) == "log.stream" <==> topic == "raw-logs"
  {
    TopicTypes(topic);
    hide MapTopicToEvent, HealingType;
    var eventType := MapTopicToEvent(topic);
    if "incident-" <= topic {
      assert eventType[0] == 'i';
    } else if "healing-" <= topic {
      assert eventType[0] == 'h';
    } else if "anomaly-detected" <= topic {
      assert eventType[0] == 'a';
    } else if topic != "raw-logs" {
      assert eventType[0] == 'r';
    }
  }

  /** Without a Kafka key, records have the same dedup key exactly for the same topic, offset and timestamp. */
  lemma KeylessKeyInjective<E>(r: KafkaRecord<E>, q: KafkaRecord<E>)
    requires MapTopicToEvent(r.topic) != "log.stream" && MapTopicToEvent(q.topic) != "log.stream"
    requires r.key == "" && q.key == ""
    ensures DedupKey(r, EmittedPartition(r)) == DedupKey(q, EmittedPartition(q)) <==>
            r.topic == q.topic && r.offset == q.offset && r.timestamp == q.timestamp
  {
    var x, y := r.topic + "-" + Show(r.offset), q.topic + "-" + Show(q.offset);
    if x + "-" + ShowInt(r.timestamp) == y + "-" + ShowInt(q.timestamp) {
      StampedKey(x, r.timestamp, y, q.timestamp);
      LastDash(r.topic, Show(r.offset), q.topic, Show(q.offset));
      ShowInjective(r.offset, q.offset);
    }
    hide MapTopicToEvent, Show, ShowInt;
  }

  lemma StampedKey(x: string, i: int, y: string, j: int)
    requires x != "" && y != "" && IsDigit(x[|x| - 1]) && IsDigit(y[|y| - 1])
    requires x + "-" + ShowInt(i) == y + "-" + ShowInt(j)
    ensures x == y && i == j
  {
    var a, b := BeforeSign(x, i), BeforeSign(y, j);
    SignApart(x, i);
    SignApart(y, j);
    LastDash(a, Show(Magnitude(i)), b, Show(Magnitude(j)));
    ShowInjective(Magnitude(i), Magnitude(j));
    hide Show;
    assert a[|a| - 1] == (if i < 0 then '-' else x[|x| - 1]) && b[|b| - 1] == (if j < 0 then '-' else y[|y| - 1]);
    if i < 0 {
      assert a[..|a| - 1] == x && b[..|b| - 1] == y;
    }
  }

  function Magnitude(i: int): nat {
    if i < 0 then -i else i
  }

  function BeforeSign(x: string, i: int): string {
    if i < 0 then x + "-" else x
  }

  lemma SignApart(x: string, i: int)
    ensures x + "-" + ShowInt(i) == BeforeSign(x, i) + "-" + Show(Magnitude(i))
  {
    hide Show;
  }

  lemma SubscribedTypeNotEmpty(topic: string)
    requires Subscribed(topic)
    ensures MapTopicToEvent(topic) != ""
  {
    TopicTypes(topic);
    hide MapTopicToEvent, HealingType;
  }

  /** Two event types without colons never share a cache key. */
  lemma CacheKeyInjective(t: string, k: string, t': string, k': string)
    requires ':' !in t && ':' !in t'
    ensures t + ":" + k == t' + ":" + k' <==> t == t' && k == k'
  {
    var s, s' := t + ":" + k, t' + ":" + k';
    if s == s' {
      assert s[|t|] == ':' && s'[|t'|] == ':';
      assert forall i | 0 <= i < |t| :: s[i] == t[i];
      assert forall i | 0 <= i < |t'| :: s'[i] == t'[i];
      assert t == s[..|t|] && t' == s'[..|t'|] && k == s[|t| + 1..] && k' == s'[|t'| + 1..];
    }
  }

  lemma EventTypeWithoutColon(topic: string)
    requires ':' !in topic
    ensures ':' !in MapTopicToEvent(topic)
  {
    ListedWithoutColon(topic);
    hide Listed;
    if "incident-" <= topic {
      RestWithoutColon("incident.", topic, 9);
    }
    if "healing-" <= topic {
      RestWithoutColon("healing.", topic, 8);
    }
  }

  lemma ListedWithoutColon(topic: string)
    ensures Listed(topic).Some? ==> ':' !in Listed(topic).value
  {}

  lemma RestWithoutColon(first: string, topic: string, n: nat)
    requires n <= |topic| && ':' !in first && ':' !in topic
    ensures ':' !in first + topic[n..]
  {
    assert forall c | c in topic[n..] :: c in topic;
  }

  /**
   * Two records in a row: accepting the first makes the handler suppress the
   * second, which it would otherwise take, exactly when event type and dedup key
   * agree, the key is not the text `undefined`, and the window has not passed.
   */
  lemma SuppressedExactly<E>(cfg: CacheConfig, s: State<E>, r: KafkaRecord<E>, q: KafkaRecord<E>,
                             t1: int, t2: int, t3: int, t4: int)
    requires Aligned(s) && WithinSize(cfg, s) && cfg.maxSize >= 1
    requires ':' !in MapTopicToEvent(r.topic) && ':' !in MapTopicToEvent(q.topic)
    requires !Suppresses(cfg, s, ToArrival(r, t1, t2)) && !Suppresses(cfg, s, ToArrival(q, t3, t4))
    ensures Suppresses(cfg, Handle(cfg, s, ToArrival(r, t1, t2)), ToArrival(q, t3, t4)) <==>
            && MapTopicToEvent(r.topic) == MapTopicToEvent(q.topic)
            && DedupKey(r, EmittedPartition(r)) == DedupKey(q, EmittedPartition(q)) != "undefined"
            && t3 - t2 < cfg.dedupWindowMs
  {
    var a, b := ToArrival(r, t1, t2), ToArrival(q, t3, t4);
    CacheKeyInjective(a.eventType, a.key, b.eventType, b.key);
    DedupKeyNotEmpty(q);
    hide MapTopicToEvent, DedupKey, Handle, Aligned, WithinSize;
    if !b.Dedupable() {
      assert !Suppresses(cfg, Handle(cfg, s, a), b);
    } else if a.CacheKey() == b.CacheKey() {
      hide Suppresses;
      AcceptedThenRepeated(cfg, s, a, b);
    } else {
      hide Suppresses;
      OthersUndisturbed(cfg, s, a, b);
    }
  }

  lemma DedupKeyNotEmpty<E>(r: KafkaRecord<E>)
    ensures DedupKey(r, EmittedPartition(r)) != ""
  {
    hide MapTopicToEvent;
    if MapTopicToEvent(r.topic) == "log.stream" {
      LogKeyNotSpecial(r.topic, r.offset);
    }
  }

  /**
   * For log records that is when topic and offset agree. Partitions play no part,
   * so records of different partitions do suppress each other.
   */
  lemma SuppressedByLogExactly<E>(cfg: CacheConfig, s: State<E>, r: KafkaRecord<E>, q: KafkaRecord<E>,
                                  t1: int, t2: int, t3: int, t4: int)
    requires Aligned(s) && WithinSize(cfg, s) && cfg.maxSize >= 1
    requires MapTopicToEvent(r.topic) == MapTopicToEvent(q.topic) == "log.stream"
    requires !Suppresses(cfg, s, ToArrival(r, t1, t2)) && !Suppresses(cfg, s, ToArrival(q, t3, t4))
    ensures Suppresses(cfg, Handle(cfg, s, ToArrival(r, t1, t2)), ToArrival(q, t3, t4)) <==>
            r.topic == q.topic && r.offset == q.offset && t3 - t2 < cfg.dedupWindowMs
  {
    hide *;
    assert ':' !in "log.stream";
    EmittedLogKeyIgnoresPartition(r, q);
    LogDedupKey(q);
    SuppressedExactly(cfg, s, r, q, t1, t2, t3, t4);
  }

  lemma LogDedupKey<E>(r: KafkaRecord<E>)
    requires MapTopicToEvent(r.topic) == "log.stream"
    ensures DedupKey(r, EmittedPartition(r)) != "undefined"
  {
    hide MapTopicToEvent;
    LogKeyNotSpecial(r.topic, r.offset);
  }

  /** For other records with a Kafka key it is when type and key agree, whatever they say and wherever they are. */
  lemma SuppressedByKeyExactly<E>(cfg: CacheConfig, s: State<E>, r: KafkaRecord<E>, q: KafkaRecord<E>,
                                  t1: int, t2: int, t3: int, t4: int)
    requires Aligned(s) && WithinSize(cfg, s) && cfg.maxSize >= 1
    requires ':' !in r.topic && ':' !in q.topic
    requires MapTopicToEvent(r.topic) != "log.stream" && r.key != "" && q.key != "" && q.key != "undefined"
    requires MapTopicToEvent(q.topic) != "log.stream"
    requires !Suppresses(cfg, s, ToArrival(r, t1, t2)) && !Suppresses(cfg, s, ToArrival(q, t3, t4))
    ensures Suppresses(cfg, Handle(cfg, s, ToArrival(r, t1, t2)), ToArrival(q, t3, t4)) <==>
            MapTopicToEvent(r.topic) == MapTopicToEvent(q.topic) && r.key == q.key && t3 - t2 < cfg.dedupWindowMs
  {
    EventTypeWithoutColon(r.topic);
    EventTypeWithoutColon(q.topic);
    hide ToArrival, MapTopicToEvent, Suppresses, Handle, Aligned, WithinSize;
    SuppressedExactly(cfg, s, r, q, t1, t2, t3, t4);
  }

  /** Accepting an event never makes a repetition of another key. */
  lemma OthersUndisturbed<E>(cfg: CacheConfig, s: State<E>, a: Arrival<E>, b: Arrival<E>)
    requires Aligned(s) && WithinSize(cfg, s) && !Suppresses(cfg, s, a) && a.CacheKey() != b.CacheKey()
    ensures Suppresses(cfg, Handle(cfg, s, a), b) ==> Suppresses(cfg, s, b)
  {
    var t, k := Handle(cfg, s, a), b.CacheKey();
    CapRemovesOldest(cfg, s, a);
    AlignedHas(t, k);
    if k in t.cache.vals {
      KeptEntry(cfg, s, a, k);
      OtherEntry(cfg, s, a, k);
      AlignedHas(s, k);
    }
    hide Placed, Checked, CacheEvent, Handle, Aligned;
  }

  lemma LogKeyNotSpecial(topic: string, offset: nat)
    ensures LogKey(topic, None, offset) != "" && LogKey(topic, None, offset) != "undefined"
  {
    var k := LogKey(topic, None, offset);
    assert k[|topic|] == '-';
  }

  /** An accepted event is what the next check of its key is measured against. */
  lemma AcceptedThenRepeated<E>(cfg: CacheConfig, s: State<E>, a: Arrival<E>, b: Arrival<E>)
    requires Aligned(s) && WithinSize(cfg, s) && cfg.maxSize >= 1 && !Suppresses(cfg, s, a)
    requires a.CacheKey() == b.CacheKey() && b.Dedupable()
    ensures Suppresses(cfg, Handle(cfg, s, a), b) <==> b.checkedAt - a.cachedAt < cfg.dedupWindowMs
  {
    PlacedAligned(cfg, s, a);
    CapRemovesOldest(cfg, s, a);
    var t := Handle(cfg, s, a);
    AlignedHas(t, a.CacheKey());
    KeptEntry(cfg, s, a, a.CacheKey());
    hide Placed, Checked, CacheEvent, Handle;
  }
}
