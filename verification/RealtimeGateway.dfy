/** The gateway object of services/realtime/src/index.js, proved against the functions of EventCache and Gateway. */
module RealtimeGateways {
  import opened DedupKeys
  import opened EventCache
  import opened Gateway
  import opened OrderedMaps
  import opened Rooms
  import Sequences
  import opened Wrappers

  class RealtimeGateway {
    const cfg: CacheConfig
    var eventCache: OrderedMap<Cached<EventValue>>
    var eventCacheTimestamps: OrderedMap<int>
    // Kept by the socket library: who is connected, and what was sent.
    var sockets: map<string, Socket>
    var emitted: seq<Emission>

    function Cache(): State<EventValue>
      reads this
    {
      State(eventCache, eventCacheTimestamps)
    }

    function Abstract(): GatewayState
      reads this
    {
      GatewayState(Cache(), sockets, emitted)
    }

    constructor (cfg: CacheConfig)
      ensures this.cfg == cfg && Abstract() == GatewayState(EmptyState(), map[], [])
    {
      this.cfg := cfg;
      eventCache, eventCacheTimestamps := OrderedMap([], map[]), OrderedMap([], map[]);
      sockets, emitted := map[], [];
    }

    method IsDuplicate(a: Arrival<EventValue>) returns (duplicate: bool)
      modifies `eventCache, `eventCacheTimestamps
      ensures duplicate == Suppresses(cfg, old(Cache()), a)
      ensures Cache() == Checked(cfg, old(Cache()), a)
    {
      if a.key == "" || a.key == "undefined" {
        return false;
      }
      var cacheKey := a.eventType + ":" + a.key;
      if eventCache.Has(cacheKey) {
        var lastSeen := if eventCacheTimestamps.Has(cacheKey) then eventCacheTimestamps.vals[cacheKey] else 0;
        if a.checkedAt - lastSeen < cfg.dedupWindowMs {
          return true;
        }
      }
      eventCache := eventCache.Set(cacheKey, Placeholder);
      eventCacheTimestamps := eventCacheTimestamps.Set(cacheKey, a.checkedAt);
      duplicate := false;
    }

    /** Walks the timestamps in insertion order and deletes outlived keys from both Maps as it goes. */
    method EvictExpiredEvents(now: int)
      requires Aligned(Cache())
      modifies `eventCache, `eventCacheTimestamps
      ensures Cache() == Evicted(cfg, old(Cache()), now)
    {
      if cfg.ttlMs <= 0 {
        NothingRemoved(Cache());
        return;
      }
      ghost var before := Cache();
      ghost var gone := ExpiredAmong(cfg, before, now, []);
      NothingRemoved(before);
      hide Remaining, Expired, ExpiredAmong;
      var entries := eventCacheTimestamps.keys;
      for i := 0 to |entries|
        invariant Cache() == before.RemoveBoth(gone)
        invariant gone == ExpiredAmong(cfg, before, now, entries[..i])
      {
        var cacheKey := entries[i];
        EntryStillThere(before, gone, entries, i);
        VisitOne(cfg, before, now, entries, i);
        var ts := eventCacheTimestamps.vals[cacheKey];
        if now - ts > cfg.ttlMs {
          DeletedToo(before, gone, cacheKey);
          eventCache := eventCache.Delete(cacheKey);
          eventCacheTimestamps := eventCacheTimestamps.Delete(cacheKey);
          gone := gone + {cacheKey};
        }
      }
      AllVisited(cfg, before, now);
    }

    method CacheEventOf(a: Arrival<EventValue>)
      requires Aligned(Cache())
      modifies `eventCache, `eventCacheTimestamps
      ensures Cache() == CacheEvent(cfg, old(Cache()), a)
    {
      var cacheKey := a.eventType + ":" + a.key;
      EvictExpiredEvents(a.cachedAt);
      eventCache := eventCache.Set(cacheKey, Cached(a.value));
      eventCacheTimestamps := eventCacheTimestamps.Set(cacheKey, a.cachedAt);
      ghost var placed := Cache();
      NothingRemoved(placed);
      if |eventCache.keys| > cfg.maxSize {
        if eventCache.keys != [] {
          var oldest := eventCache.keys[0];
          eventCache := eventCache.Delete(oldest);
          eventCacheTimestamps := eventCacheTimestamps.Delete(oldest);
        }
      }
    }

    method Emit(room: string, eventType: string, value: EventValue)
      modifies `emitted
      ensures emitted == old(emitted) + [To(sockets, room, eventType, value)]
    {
      emitted := emitted + [To(sockets, room, eventType, value)];
    }

    /** The Kafka handler. */
    method OnRecord(record: KafkaRecord<EventValue>, checkedAt: int, cachedAt: int)
      requires Aligned(Cache())
      modifies this
      ensures Abstract() == Gateway.Step(cfg, old(Abstract()), Kafka(record, checkedAt, cachedAt))
      ensures Aligned(Cache())
    {
      hide Suppresses, Checked, CacheEvent, ToArrival, To, OrDefault, ServiceRoom, LogsRoom, DashboardRoom, IncidentRoom;
      var a := ToArrival(record, checkedAt, cachedAt);
      CheckedAligned(cfg, Cache(), a);
      HandledAligned(cfg, Cache(), a);
      var duplicate := IsDuplicate(a);
      if duplicate {
        SuppressedUnchanged(cfg, old(Cache()), a);
        return;
      }
      CacheEventOf(a);
      var tenantId := OrDefault(a.value.tenantId);
      if a.eventType == "log.stream" {
        Emit(LogsRoom(tenantId), a.eventType, a.value);
        if a.value.serviceId != "" {
          Emit(ServiceRoom(tenantId, a.value.serviceId), a.eventType, a.value);
        }
      } else {
        Emit(DashboardRoom(tenantId), a.eventType, a.value);
        if a.value.serviceId != "" {
          Emit(ServiceRoom(tenantId, a.value.serviceId), a.eventType, a.value);
        }
        if a.value.incidentId != "" {
          Emit(IncidentRoom(tenantId, a.value.incidentId), a.eventType, a.value);
        }
      }
    }

    /** The replay handler of a connected socket; counts what it sends. */
    method OnReplayRequest(id: string, eventTypes: Option<seq<string>>, since: int, room: string)
      returns (replayed: nat)
      requires id in sockets
      modifies `emitted
      ensures Abstract() == Gateway.Step(cfg, old(Abstract()), Replay(id, eventTypes, since, room))
      ensures replayed == |emitted| - |old(emitted)|
    {
      var socket := sockets[id];
      var keys := eventCache.keys;
      ghost var cache := Cache();
      replayed := 0;
      assert keys[0..] == keys;
      for i := 0 to |keys|
        invariant cache == Cache() && replayed == |emitted| - |old(emitted)|
        invariant emitted + ReplayKeys(cache, keys[i..], id, socket, eventTypes, since, room) ==
                  old(emitted) + ReplayKeys(cache, keys, id, socket, eventTypes, since, room)
      {
        hide TenantOf, EventTypeOf, ReplayTarget;
        var cacheKey := keys[i];
        assert keys[i..][0] == cacheKey && keys[i..][1..] == keys[i + 1..];
        if Replayable(Cache(), cacheKey, socket.tenant, eventTypes, since) && MayReplay(socket, room) {
          var e := Emission(map[id := socket.tenant], EventTypeOf(cacheKey), eventCache.vals[cacheKey]);
          Sequences.Associative(emitted, [e], ReplayKeys(cache, keys[i + 1..], id, socket, eventTypes, since, room));
          emitted := emitted + [e];
          replayed := replayed + 1;
        }
      }
      assert emitted + [] == emitted;
    }

    method JoinRooms(id: string, rooms: set<string>)
      modifies `sockets
      ensures Abstract() == Join(old(Abstract()), id, rooms)
    {
      if id in sockets {
        sockets := sockets[id := sockets[id].(rooms := sockets[id].rooms + rooms)];
      }
    }

    method LeaveRoom(id: string, room: string)
      modifies `sockets
      ensures Abstract() == Leave(old(Abstract()), id, room)
    {
      if id in sockets {
        sockets := sockets[id := sockets[id].(rooms := sockets[id].rooms - {room})];
      }
    }

    /** The handlers registered for a connection; `tenantId` is the one captured when it was made. */
    method OnRequest(r: Request)
      requires Aligned(Cache())
      modifies this
      ensures Abstract() == Gateway.Step(cfg, old(Abstract()), r) && Aligned(Cache())
    {
      hide Room, RoomPrefix, Aligned, OnKafka;
      match r {
        case Connect(id, tenantId) =>
          var tenant := OrDefault(tenantId);
          sockets := sockets[id := Socket(tenant, {DashboardRoom(tenant)})];
        case SubscribeService(id, serviceId) =>
          if serviceId != "" {
            JoinRooms(id, {ServiceRoom(Tenant(Abstract(), id), serviceId)});
          }
        case SubscribeLogs(id, serviceId) =>
          var tenant := Tenant(Abstract(), id);
          JoinRooms(id, {LogsRoom(tenant)} + if serviceId == "" then {} else {ServiceRoom(tenant, serviceId)});
        case UnsubscribeLogs(id) =>
          LeaveRoom(id, LogsRoom(Tenant(Abstract(), id)));
        case SubscribeBoard(id, boardId) =>
          if boardId != "" {
            JoinRooms(id, {BoardRoom(Tenant(Abstract(), id), boardId)});
          }
        case UnsubscribeBoard(id, boardId) =>
          if boardId != "" {
            LeaveRoom(id, BoardRoom(Tenant(Abstract(), id), boardId));
          }
        case SubscribeIncident(id, incidentId) =>
          if incidentId != "" {
            JoinRooms(id, {IncidentRoom(Tenant(Abstract(), id), incidentId)});
          }
        case UnsubscribeIncident(id, incidentId) =>
          if incidentId != "" {
            LeaveRoom(id, IncidentRoom(Tenant(Abstract(), id), incidentId));
          }
        case Replay(id, eventTypes, since, room) =>
          if id in sockets {
            var replayed := OnReplayRequest(id, eventTypes, since, room);
          }
        case Disconnect(id) =>
          sockets := sockets - {id};
        case Kafka(record, checkedAt, cachedAt) =>
          OnRecord(record, checkedAt, cachedAt);
      }
    }

    /** Everything that reaches the gateway, one request after the other. */
    method OnRequests(rs: seq<Request>)
      requires Aligned(Cache())
      modifies this
      ensures Abstract() == Gateway.Run(cfg, old(Abstract()), rs) && Aligned(Cache())
    {
      assert rs[0..] == rs;
      for i := 0 to |rs|
        invariant Aligned(Cache())
        invariant Gateway.Run(cfg, Abstract(), rs[i..]) == Gateway.Run(cfg, old(Abstract()), rs)
      {
        hide Step, Aligned;
        assert rs[i..][0] == rs[i] && rs[i..][1..] == rs[i + 1..];
        OnRequest(rs[i]);
      }
    }
  }

  lemma EntryStillThere(before: State<EventValue>, gone: set<string>, entries: seq<string>, i: nat)
    requires Aligned(before) && entries == before.stamps.keys && i < |entries|
    requires forall k | k in gone :: k in entries[..i]
    ensures entries[i] in before.RemoveBoth(gone).stamps.vals && entries[i] !in entries[..i]
    ensures before.RemoveBoth(gone).stamps.vals[entries[i]] == before.stamps.vals[entries[i]]
  {
    assert Distinct(entries);
  }

  /** The outlived keys among those visited. */
  ghost function ExpiredAmong(cfg: CacheConfig, s: State<EventValue>, now: int, visited: seq<string>): (gone: set<string>)
    ensures forall k | k in gone :: k in visited
    ensures visited == [] ==> gone == {}
  {
    set k | k in Expired(cfg, s, now) && k in visited
  }

  lemma VisitOne(cfg: CacheConfig, s: State<EventValue>, now: int, entries: seq<string>, i: nat)
    requires Aligned(s) && cfg.ttlMs > 0 && entries == s.stamps.keys && i < |entries| && entries[i] in s.stamps.vals
    ensures ExpiredAmong(cfg, s, now, entries[..i + 1]) ==
            ExpiredAmong(cfg, s, now, entries[..i]) +
            if now - s.stamps.vals[entries[i]] > cfg.ttlMs then {entries[i]} else {}
  {
    assert entries[..i + 1] == entries[..i] + [entries[i]];
  }

  lemma AllVisited(cfg: CacheConfig, s: State<EventValue>, now: int)
    requires Aligned(s)
    ensures ExpiredAmong(cfg, s, now, s.stamps.keys[..|s.stamps.keys|]) == Expired(cfg, s, now)
  {
    assert s.stamps.keys[..|s.stamps.keys|] == s.stamps.keys;
    assert forall k :: k in s.stamps.keys <==> k in s.stamps.vals;
  }

  lemma DeletedToo(s: State<EventValue>, gone: set<string>, k: string)
    ensures s.RemoveBoth(gone).RemoveBoth({k}) == s.RemoveBoth(gone + {k})
  {
    RemoveTwice(s.cache, gone, {k});
    RemoveTwice(s.stamps, gone, {k});
  }

  lemma CheckedAligned(cfg: CacheConfig, s: State<EventValue>, a: Arrival<EventValue>)
    requires Aligned(s)
    ensures Aligned(Checked(cfg, s, a))
  {
    SetBothAligned(s, a.CacheKey(), Placeholder, a.checkedAt);
  }

  lemma SuppressedUnchanged(cfg: CacheConfig, s: State<EventValue>, a: Arrival<EventValue>)
    requires Suppresses(cfg, s, a)
    ensures Checked(cfg, s, a) == s
  {}

  lemma HandledAligned(cfg: CacheConfig, s: State<EventValue>, a: Arrival<EventValue>)
    requires Aligned(s)
    ensures Aligned(CacheEvent(cfg, Checked(cfg, s, a), a))
  {
    PlacedAligned(cfg, s, a);
    var p := Placed(cfg, Checked(cfg, s, a), a);
    RemoveBothAligned(p, Victim(cfg, p));
  }
}
