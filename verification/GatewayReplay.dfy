/** Replay joined to the cache's history: what a socket is sent after a whole run of the gateway. */
module GatewayReplay {
  import opened DedupKeys
  import opened EventCache
  import opened Gateway
  import opened OrderedMaps
  import opened Rooms
  import opened Wrappers

  /** What the Kafka requests of a run bring to the cache. */
  ghost function Arrivals(rs: seq<Request>): seq<Arrival<EventValue>> {
    if rs == [] then []
    else if rs[0].Kafka? then [ToArrival(rs[0].record, rs[0].checkedAt, rs[0].cachedAt)] + Arrivals(rs[1..])
    else Arrivals(rs[1..])
  }

  lemma StepCache(cfg: CacheConfig, g: GatewayState, r: Request)
    ensures Step(cfg, g, r).cache ==
            if r.Kafka? then Handle(cfg, g.cache, ToArrival(r.record, r.checkedAt, r.cachedAt)) else g.cache
  {
    hide Suppresses, CacheEvent, Checked, ToArrival, Broadcast, ReplayKeys;
  }

  /** The cache of a gateway is that of its records, whatever the sockets do. */
  lemma {:induction false} RunCacheOf(cfg: CacheConfig, g: GatewayState, rs: seq<Request>)
    ensures Run(cfg, g, rs).cache == RunCache(cfg, g.cache, Arrivals(rs))
    decreases |rs|
  {
    if rs != [] {
      hide Step, Handle, ToArrival;
      var r := rs[0];
      StepCache(cfg, g, r);
      RunCacheOf(cfg, Step(cfg, g, r), rs[1..]);
      if r.Kafka? {
        var a := ToArrival(r.record, r.checkedAt, r.cachedAt);
        assert ([a] + Arrivals(rs[1..]))[1..] == Arrivals(rs[1..]);
      }
    }
  }

  /** Whether replay owes a socket the last event of a key, by the history alone. */
  ghost predicate Due(cfg: CacheConfig, h: History<EventValue>, k: string, tenant: string,
                      eventTypes: Option<seq<string>>, since: int)
  {
    && k in h.last && k in h.values && k !in h.capped && !Outlived(cfg, h.last[k], h.now)
    && h.last[k] >= since && OrDefault(h.values[k].tenantId) == tenant
    && (eventTypes.Some? ==> EventTypeOf(k) in eventTypes.value)
  }

  lemma ReplayableByHistory(cfg: CacheConfig, cache: State<EventValue>, h: History<EventValue>, k: string,
                            tenant: string, eventTypes: Option<seq<string>>, since: int)
    requires Tracks(cfg, cache, h)
    ensures Replayable(cache, k, tenant, eventTypes, since) <==> Due(cfg, h, k, tenant, eventTypes, since)
    ensures Due(cfg, h, k, tenant, eventTypes, since) ==>
              cache.cache.Has(k) && cache.cache.vals[k] == Cached(h.values[k])
  {
    AlignedHas(cache, k);
    hide EventTypeOf;
    if k in cache.cache.vals {
      assert EntryCurrent(cfg, cache, h, k);
    }
  }

  /** One emission per key: the last accepted event of each. */
  ghost predicate SendsLast(h: History<EventValue>, keys: seq<string>, id: string, tenant: string, es: seq<Emission>) {
    && |es| == |keys|
    && forall j | 0 <= j < |keys| ::
         keys[j] in h.values && es[j] == Emission(map[id := tenant], EventTypeOf(keys[j]), Cached(h.values[keys[j]]))
  }

  /**
   * After any run on a clock that does not run backwards a connected socket's
   * replay sends, once each, the last accepted event of exactly those keys that
   * were neither capped nor outlived and pass the time, tenant and type tests;
   * never an older event and never a placeholder.
   */
  lemma ReplayAfterRun(cfg: CacheConfig, g: GatewayState, h: History<EventValue>, rs: seq<Request>, id: string,
                       socket: Socket, eventTypes: Option<seq<string>>, since: int, room: string)
    returns (keys: seq<string>)
    requires Tracks(cfg, g.cache, h) && Monotone(h.now, Arrivals(rs))
    requires DashboardRoom(socket.tenant) in socket.rooms
    ensures var cache, h' := Run(cfg, g, rs).cache, RunHistory(cfg, g.cache, h, Arrivals(rs));
            && Distinct(keys) && (forall k :: k in keys <==> Due(cfg, h', k, socket.tenant, eventTypes, since))
            && SendsLast(h', keys, id, socket.tenant,
                         ReplayKeys(cache, cache.cache.keys, id, socket, eventTypes, since, room))
  {
    RunCacheOf(cfg, g, rs);
    RunTracks(cfg, g.cache, h, Arrivals(rs));
    hide Run, RunCache, RunHistory, Arrivals, Monotone, Tracks, ReplayKeys, DashboardRoom;
    keys := ReplayOfHistory(cfg, Run(cfg, g, rs).cache, RunHistory(cfg, g.cache, h, Arrivals(rs)), id, socket,
                            eventTypes, since, room);
  }

  lemma {:induction false} RunSound(tenants: set<string>, cfg: CacheConfig, g: GatewayState, rs: seq<Request>)
    requires SocketsSound(tenants, g) && AllSpeak(tenants, rs)
    ensures SocketsSound(tenants, Run(cfg, g, rs))
    decreases |rs|
  {
    hide Step, SocketsSound, Speaks;
    if rs != [] {
      StepSound(tenants, cfg, g, rs[0]);
      RunSound(tenants, cfg, Step(cfg, g, rs[0]), rs[1..]);
    }
  }

  /** The same for a replay request after any run of a fresh gateway. */
  lemma ReplayFromStart(tenants: set<string>, cfg: CacheConfig, now: int, rs: seq<Request>, id: string,
                        eventTypes: Option<seq<string>>, since: int, room: string)
    returns (keys: seq<string>, es: seq<Emission>)
    requires AllSpeak(tenants, rs) && Monotone(now, Arrivals(rs)) && id in Run(cfg, Fresh(), rs).sockets
    ensures var g := Run(cfg, Fresh(), rs);
            var h := RunHistory(cfg, EmptyState(), History(map[], map[], {}, now), Arrivals(rs));
            var tenant := g.sockets[id].tenant;
            && Step(cfg, g, Replay(id, eventTypes, since, room)).emitted == g.emitted + es
            && Distinct(keys) && (forall k :: k in keys <==> Due(cfg, h, k, tenant, eventTypes, since))
            && SendsLast(h, keys, id, tenant, es)
  {
    var g, h := Run(cfg, Fresh(), rs), History(map[], map[], {}, now);
    EmptyTracks<EventValue>(cfg, now);
    RunSound(tenants, cfg, Fresh(), rs);
    assert SocketSound(tenants, g.sockets[id]);
    es := ReplayKeys(g.cache, g.cache.cache.keys, id, g.sockets[id], eventTypes, since, room);
    hide Run, RunHistory, Arrivals, Monotone, Tracks, ReplayKeys, DashboardRoom, Due, SendsLast;
    keys := ReplayAfterRun(cfg, Fresh(), h, rs, id, g.sockets[id], eventTypes, since, room);
  }

  lemma {:induction false} ArrivalType(tenants: set<string>, rs: seq<Request>, i: nat)
    requires AllSpeak(tenants, rs) && (forall n | 0 <= n < |rs| :: rs[n].Kafka? ==> ':' !in rs[n].record.topic)
    requires i < |Arrivals(rs)|
    ensures EventTypeOf(Arrivals(rs)[i].CacheKey()) == Arrivals(rs)[i].eventType
  {
    hide EventTypeOf, MapTopicToEvent, DedupKey;
    var rest := rs[1..];
    if rs[0].Kafka? && i == 0 {
      var a := Arrivals(rs)[0];
      assert Speaks(tenants, rs[0]);
      SubscribedTypeNotEmpty(rs[0].record.topic);
      EventTypeWithoutColon(rs[0].record.topic);
      EventTypeRecovered(a.eventType, a.key);
    } else {
      assert forall n | 0 <= n < |rest| :: rest[n] == rs[n + 1];
      hide Speaks;
      ArrivalType(tenants, rest, if rs[0].Kafka? then i - 1 else i);
    }
  }

  /** The emission is the last event of its key that was not suppressed, under that event's own type. */
  ghost predicate SendsEvent(events: seq<Arrival<EventValue>>, decisions: seq<bool>, k: string, id: string,
                             tenant: string, e: Emission)
    requires |decisions| == |events|
  {
    exists i: nat :: LastAccepted(events, decisions, k, i) &&
                e == Emission(map[id := tenant], events[i].eventType, Cached(events[i].value))
  }

  /** A replay sends records as they came: type and value of the last one of each key that was not suppressed. */
  lemma ReplaySendsRecords(tenants: set<string>, cfg: CacheConfig, now: int, rs: seq<Request>, id: string,
                           eventTypes: Option<seq<string>>, since: int, room: string)
    returns (keys: seq<string>, es: seq<Emission>)
    requires AllSpeak(tenants, rs) && Monotone(now, Arrivals(rs)) && id in Run(cfg, Fresh(), rs).sockets
    requires forall n | 0 <= n < |rs| :: rs[n].Kafka? ==> ':' !in rs[n].record.topic
    ensures var g := Run(cfg, Fresh(), rs);
            var ds := Decisions(cfg, EmptyState(), Arrivals(rs));
            && Step(cfg, g, Replay(id, eventTypes, since, room)).emitted == g.emitted + es
            && Distinct(keys) && |es| == |keys|
            && forall j | 0 <= j < |keys| :: SendsEvent(Arrivals(rs), ds, keys[j], id, g.sockets[id].tenant, es[j])
  {
    keys, es := ReplayFromStart(tenants, cfg, now, rs, id, eventTypes, since, room);
    var h: History<EventValue> := History(map[], map[], {}, now);
    var arrivals, ds := Arrivals(rs), Decisions(cfg, EmptyState(), Arrivals(rs));
    var tenant := Run(cfg, Fresh(), rs).sockets[id].tenant;
    hide Run, Step, Arrivals, Decisions, RunHistory, Due, LastAccepted, NoneAccepted, EventTypeOf, AllSpeak, Monotone;
    forall j | 0 <= j < |keys|
      ensures SendsEvent(arrivals, ds, keys[j], id, tenant, es[j])
    {
      var last := HistoryExact(cfg, EmptyState(), h, arrivals, keys[j]);
      assert last.Some?;
      LastInRange(arrivals, ds, keys[j], last.value);
      ArrivalType(tenants, rs, last.value);
    }
  }

  lemma LastInRange(events: seq<Arrival<EventValue>>, decisions: seq<bool>, k: string, i: nat)
    requires |decisions| == |events| && LastAccepted(events, decisions, k, i)
    ensures i < |events| && events[i].CacheKey() == k
  {}

  lemma ReplayOfHistory(cfg: CacheConfig, cache: State<EventValue>, h: History<EventValue>, id: string,
                        socket: Socket, eventTypes: Option<seq<string>>, since: int, room: string)
    returns (keys: seq<string>)
    requires Tracks(cfg, cache, h) && DashboardRoom(socket.tenant) in socket.rooms
    ensures Distinct(keys) && forall k :: k in keys <==> Due(cfg, h, k, socket.tenant, eventTypes, since)
    ensures SendsLast(h, keys, id, socket.tenant,
                      ReplayKeys(cache, cache.cache.keys, id, socket, eventTypes, since, room))
  {
    hide DashboardRoom, Due, Replayable, EventTypeOf, ReplayKeys;
    var all := cache.cache.keys;
    var es := ReplayKeys(cache, all, id, socket, eventTypes, since, room);
    var positions := ReplayExact(cache, all, id, socket, eventTypes, since, room);
    keys := PickedKeys(all, positions);
    forall k
      ensures k in keys <==> Due(cfg, h, k, socket.tenant, eventTypes, since)
    {
      PickedDue(cfg, cache, h, k, socket.tenant, eventTypes, since, positions, keys);
    }
    forall j | 0 <= j < |keys|
      ensures keys[j] in h.values &&
              es[j] == Emission(map[id := socket.tenant], EventTypeOf(keys[j]), Cached(h.values[keys[j]]))
    {
      assert keys[j] in keys && SentFor(cache, all[positions[j]], id, socket, es[j]);
      ReplayableByHistory(cfg, cache, h, keys[j], socket.tenant, eventTypes, since);
    }
  }

  ghost predicate Picks(all: seq<string>, positions: seq<nat>, keys: seq<string>) {
    |keys| == |positions| && forall j | 0 <= j < |keys| :: positions[j] < |all| && keys[j] == all[positions[j]]
  }

  lemma PickedKeys(all: seq<string>, positions: seq<nat>) returns (keys: seq<string>)
    requires Distinct(all) && Ascending(positions) && forall j | 0 <= j < |positions| :: positions[j] < |all|
    ensures Picks(all, positions, keys) && Distinct(keys)
  {
    keys := seq(|positions|, j requires 0 <= j < |positions| => all[positions[j]]);
  }

  lemma PickedDue(cfg: CacheConfig, cache: State<EventValue>, h: History<EventValue>, k: string, tenant: string,
                  eventTypes: Option<seq<string>>, since: int, positions: seq<nat>, keys: seq<string>)
    requires Tracks(cfg, cache, h) && Picks(cache.cache.keys, positions, keys)
    requires Chosen(cache, cache.cache.keys, tenant, eventTypes, since, positions)
    ensures k in keys <==> Due(cfg, h, k, tenant, eventTypes, since)
  {
    ReplayableByHistory(cfg, cache, h, k, tenant, eventTypes, since);
    AlignedHas(cache, k);
    hide Tracks, Due, EventTypeOf;
    var all := cache.cache.keys;
    if k in keys {
      var j :| 0 <= j < |keys| && keys[j] == k;
      assert positions[j] in positions && all[positions[j]] == k;
    }
    if Replayable(cache, k, tenant, eventTypes, since) {
      var i :| 0 <= i < |all| && all[i] == k;
      assert i in positions;
      var j :| 0 <= j < |positions| && positions[j] == i;
      assert keys[j] == k;
    }
  }
}
