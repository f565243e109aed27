/** What reaches whom over a run of the gateway: subscriptions, and records announced once. */
module GatewayDelivery {
  import opened DedupKeys
  import opened EventCache
  import opened Gateway
  import opened GatewayReplay
  import opened Rooms
  import opened Wrappers

  // ------------------------------------------------------------- subscriptions

  /** The request puts the socket of a tenant into the room. */
  ghost predicate Joins(r: Request, id: string, tenant: string, room: string) {
    match r
    case SubscribeLogs(i, serviceId) =>
      i == id && (room == LogsRoom(tenant) || (serviceId != "" && room == ServiceRoom(tenant, serviceId)))
    case SubscribeService(i, serviceId) => i == id && serviceId != "" && room == ServiceRoom(tenant, serviceId)
    case SubscribeIncident(i, incidentId) => i == id && incidentId != "" && room == IncidentRoom(tenant, incidentId)
    case SubscribeBoard(i, boardId) => i == id && boardId != "" && room == BoardRoom(tenant, boardId)
    case _ => false
  }

  /** The request takes it out of the room. */
  ghost predicate Leaves(r: Request, id: string, tenant: string, room: string) {
    match r
    case UnsubscribeLogs(i) => i == id && room == LogsRoom(tenant)
    case UnsubscribeIncident(i, incidentId) => i == id && incidentId != "" && room == IncidentRoom(tenant, incidentId)
    case UnsubscribeBoard(i, boardId) => i == id && boardId != "" && room == BoardRoom(tenant, boardId)
    case _ => false
  }

  ghost predicate Connects(r: Request, id: string) {
    r.Connect? && r.id == id
  }

  /** Exactly what each handler does to each socket's tenant and rooms. */
  lemma StepRooms(cfg: CacheConfig, g: GatewayState, r: Request, id: string)
    ensures var t := Step(cfg, g, r);
            && (Connects(r, id) ==>
                  var tenant := if r.tenantId == "" then "default" else r.tenantId;
                  id in t.sockets && t.sockets[id] == Socket(tenant, {DashboardRoom(tenant)}))
            && (r == Disconnect(id) ==> id !in t.sockets)
            && (!Connects(r, id) && r != Disconnect(id) ==>
                  && (id in t.sockets <==> id in g.sockets)
                  && (id in g.sockets ==>
                        && t.sockets[id].tenant == g.sockets[id].tenant
                        && forall room :: room in t.sockets[id].rooms <==>
                             Joins(r, id, g.sockets[id].tenant, room) ||
                             (room in g.sockets[id].rooms && !Leaves(r, id, g.sockets[id].tenant, room))))
  {
    hide Room, OnKafka, OnReplay;
    match r {
      case Kafka(record, checkedAt, cachedAt) => KafkaKeepsSockets(cfg, g, record, checkedAt, cachedAt);
      case Replay(i, eventTypes, since, room) => ReplayKeepsSockets(g, i, eventTypes, since, room);
      case _ =>
    }
  }

  lemma KafkaKeepsSockets(cfg: CacheConfig, g: GatewayState, record: KafkaRecord<EventValue>, t1: int, t2: int)
    ensures OnKafka(cfg, g, ToArrival(record, t1, t2)).sockets == g.sockets
  {}

  lemma ReplayKeepsSockets(g: GatewayState, id: string, eventTypes: Option<seq<string>>, since: int, room: string)
    ensures OnReplay(g, id, eventTypes, since, room).sockets == g.sockets
  {}

  /** The state before the n-th request. */
  ghost function At(cfg: CacheConfig, g: GatewayState, rs: seq<Request>, n: nat): GatewayState
    requires n <= |rs|
  {
    Run(cfg, g, rs[..n])
  }

  lemma {:induction false} RunSnoc(cfg: CacheConfig, g: GatewayState, rs: seq<Request>, r: Request)
    ensures Run(cfg, g, rs + [r]) == Step(cfg, Run(cfg, g, rs), r)
    decreases |rs|
  {
    hide Step;
    if rs == [] {
      assert [r][1..] == [] && [] + [r] == [r];
      assert Run(cfg, Step(cfg, g, r), []) == Step(cfg, g, r);
    } else {
      assert (rs + [r])[0] == rs[0] && (rs + [r])[1..] == rs[1..] + [r];
      RunSnoc(cfg, Step(cfg, g, rs[0]), rs[1..], r);
    }
  }

  lemma AtStart(cfg: CacheConfig, g: GatewayState, rs: seq<Request>)
    ensures At(cfg, g, rs, 0) == g
  {}

  lemma AtNext(cfg: CacheConfig, g: GatewayState, rs: seq<Request>, n: nat)
    requires n < |rs|
    ensures At(cfg, g, rs, n + 1) == Step(cfg, At(cfg, g, rs, n), rs[n])
  {
    assert rs[..n + 1] == rs[..n] + [rs[n]];
    RunSnoc(cfg, g, rs[..n], rs[n]);
  }

  /** The socket is connected since the c-th request. */
  ghost predicate Since(rs: seq<Request>, c: nat, n: nat, id: string, tenant: string) {
    && c < n <= |rs| && Connects(rs[c], id)
    && tenant == (if rs[c].tenantId == "" then "default" else rs[c].tenantId)
    && forall j | c < j < n :: !Connects(rs[j], id) && rs[j] != Disconnect(id)
  }

  /** Since then some request put it into the room and none took it out again. */
  ghost predicate SubscribedTo(rs: seq<Request>, c: nat, n: nat, id: string, tenant: string, room: string)
    requires n <= |rs|
  {
    exists i :: c < i < n && Joins(rs[i], id, tenant, room) && forall j | i < j < n :: !Leaves(rs[j], id, tenant, room)
  }

  lemma SubscribedToNext(rs: seq<Request>, c: nat, n: nat, id: string, tenant: string, room: string)
    requires c < n < |rs|
    ensures SubscribedTo(rs, c, n + 1, id, tenant, room) <==>
            Joins(rs[n], id, tenant, room) ||
            (SubscribedTo(rs, c, n, id, tenant, room) && !Leaves(rs[n], id, tenant, room))
  {
    hide Joins, Leaves;
    if SubscribedTo(rs, c, n + 1, id, tenant, room) && !Joins(rs[n], id, tenant, room) {
      var i :| c < i < n + 1 && Joins(rs[i], id, tenant, room) &&
               forall j | i < j < n + 1 :: !Leaves(rs[j], id, tenant, room);
      assert i != n;
    }
    if SubscribedTo(rs, c, n, id, tenant, room) && !Leaves(rs[n], id, tenant, room) {
      var i :| c < i < n && Joins(rs[i], id, tenant, room) &&
               forall j | i < j < n :: !Leaves(rs[j], id, tenant, room);
      assert forall j | i < j < n + 1 :: !Leaves(rs[j], id, tenant, room);
    }
  }

  lemma DashboardStays(r: Request, id: string, tenant: string)
    ensures !Leaves(r, id, tenant, DashboardRoom(tenant))
  {
    if r.UnsubscribeLogs? {
      OtherRooms(tenant, "");
    } else if r.UnsubscribeIncident? {
      OtherRooms(tenant, r.incidentId);
    } else if r.UnsubscribeBoard? {
      OtherRooms(tenant, r.boardId);
    }
  }

  /**
   * Over every run a connected socket is in exactly its tenant's dashboard room
   * and the rooms it subscribed to since it connected and did not leave since.
   */
  lemma {:induction false} MemberExactly(cfg: CacheConfig, g: GatewayState, rs: seq<Request>, c: nat, n: nat,
                                         id: string, tenant: string, room: string)
    requires Since(rs, c, n, id, tenant)
    ensures var t := At(cfg, g, rs, n);
            && id in t.sockets && t.sockets[id].tenant == tenant
            && (room in t.sockets[id].rooms <==>
                room == DashboardRoom(tenant) || SubscribedTo(rs, c, n, id, tenant, room))
    decreases n
  {
    var m := n - 1;
    hide At, Step, Joins, Leaves, DashboardRoom;
    AtNext(cfg, g, rs, m);
    StepRooms(cfg, At(cfg, g, rs, m), rs[m], id);
    if m > c {
      MemberExactly(cfg, g, rs, c, m, id, tenant, room);
      SubscribedToNext(rs, c, m, id, tenant, room);
      DashboardStays(rs[m], id, tenant);
    }
  }

  ghost predicate Online(rs: seq<Request>, n: nat, id: string)
    requires n <= |rs|
  {
    exists c :: 0 <= c < n && Connects(rs[c], id) && forall j | c < j < n :: rs[j] != Disconnect(id)
  }

  /** A socket is connected exactly when it connected and has not disconnected since. */
  lemma {:induction false} ConnectedExactly(cfg: CacheConfig, rs: seq<Request>, n: nat, id: string)
    requires n <= |rs|
    ensures id in At(cfg, Fresh(), rs, n).sockets <==> Online(rs, n, id)
    decreases n
  {
    if n == 0 {
      assert At(cfg, Fresh(), rs, 0) == Fresh();
    } else {
      var m := n - 1;
      hide At, Step, Connects;
      AtNext(cfg, Fresh(), rs, m);
      StepRooms(cfg, At(cfg, Fresh(), rs, m), rs[m], id);
      ConnectedExactly(cfg, rs, m, id);
      ConnectedNext(rs, m, id);
    }
  }

  lemma ConnectedNext(rs: seq<Request>, n: nat, id: string)
    requires n < |rs|
    ensures Online(rs, n + 1, id) <==> Connects(rs[n], id) || (Online(rs, n, id) && rs[n] != Disconnect(id))
  {
    if Online(rs, n + 1, id) && !Connects(rs[n], id) {
      var c :| 0 <= c < n + 1 && Connects(rs[c], id) && forall j | c < j < n + 1 :: rs[j] != Disconnect(id);
      assert c != n;
    }
    if Online(rs, n, id) && rs[n] != Disconnect(id) {
      var c :| 0 <= c < n && Connects(rs[c], id) && forall j | c < j < n :: rs[j] != Disconnect(id);
      assert forall j | c < j < n + 1 :: rs[j] != Disconnect(id);
    }
  }

  // ------------------------------------------------------------- announcements

  /** One emit of the value to a room: exactly the sockets in it get it. */
  ghost predicate SentTo(sockets: map<string, Socket>, room: string, eventType: string, value: EventValue, e: Emission) {
    && e.eventType == eventType && e.content == Cached(value)
    && (forall id :: id in e.recipients <==> id in sockets && room in sockets[id].rooms)
    && (forall id | id in e.recipients :: e.recipients[id] == sockets[id].tenant)
  }

  /**
   * A log line goes to its tenant's log room, any other event to the dashboard
   * room; both to the room of the service they name, and other events to that of
   * the incident they name: one emit each and no more.
   */
  ghost predicate Announced(sockets: map<string, Socket>, eventType: string, value: EventValue, es: seq<Emission>) {
    var tenant := if value.tenantId == "" then "default" else value.tenantId;
    var service, incident := value.serviceId != "", value.incidentId != "" && eventType != "log.stream";
    && |es| == 1 + (if service then 1 else 0) + (if incident then 1 else 0)
    && SentTo(sockets, if eventType == "log.stream" then LogsRoom(tenant) else DashboardRoom(tenant),
              eventType, value, es[0])
    && (service ==> SentTo(sockets, ServiceRoom(tenant, value.serviceId), eventType, value, es[1]))
    && (incident ==> SentTo(sockets, IncidentRoom(tenant, value.incidentId), eventType, value, es[|es| - 1]))
  }

  lemma ToSentTo(sockets: map<string, Socket>, room: string, eventType: string, value: EventValue)
    ensures SentTo(sockets, room, eventType, value, To(sockets, room, eventType, value))
  {}

  lemma BroadcastAnnounces(sockets: map<string, Socket>, eventType: string, value: EventValue)
    ensures Announced(sockets, eventType, value, Broadcast(sockets, eventType, value))
  {
    var tenant := OrDefault(value.tenantId);
    ToSentTo(sockets, LogsRoom(tenant), eventType, value);
    ToSentTo(sockets, DashboardRoom(tenant), eventType, value);
    ToSentTo(sockets, ServiceRoom(tenant, value.serviceId), eventType, value);
    ToSentTo(sockets, IncidentRoom(tenant, value.incidentId), eventType, value);
    hide To, SentTo, Room;
  }

  /** A record the cache suppresses changes nothing and is sent to nobody; any other is announced under its own type. */
  lemma StepAnnounces(cfg: CacheConfig, g: GatewayState, r: KafkaRecord<EventValue>, t1: int, t2: int)
    ensures var a, t := ToArrival(r, t1, t2), Step(cfg, g, Kafka(r, t1, t2));
            && (Suppresses(cfg, g.cache, a) ==> t == g)
            && (!Suppresses(cfg, g.cache, a) ==>
                  && t.sockets == g.sockets && g.emitted <= t.emitted
                  && Announced(g.sockets, MapTopicToEvent(r.topic), r.value, t.emitted[|g.emitted|..]))
  {
    var es := Broadcast(g.sockets, MapTopicToEvent(r.topic), r.value);
    BroadcastAnnounces(g.sockets, MapTopicToEvent(r.topic), r.value);
    hide Suppresses, CacheEvent, Checked, Broadcast, Announced, MapTopicToEvent;
    assert (g.emitted + es)[|g.emitted|..] == es;
  }

  /** No other request but a replay sends anything. */
  lemma OthersSendNothing(cfg: CacheConfig, g: GatewayState, r: Request)
    requires !r.Kafka? && !r.Replay?
    ensures Step(cfg, g, r).emitted == g.emitted
  {
    hide Room;
  }

  lemma {:induction false} ArrivalsSplit(a: seq<Request>, b: seq<Request>)
    ensures Arrivals(a + b) == Arrivals(a) + Arrivals(b)
  {
    if a == [] {
      assert a + b == b && [] + Arrivals(b) == Arrivals(b);
    } else {
      hide ToArrival;
      assert (a + b)[0] == a[0] && (a + b)[1..] == a[1..] + b;
      ArrivalsSplit(a[1..], b);
    }
  }

  lemma ArrivalOf(rs: seq<Request>, n: nat)
    requires n < |rs| && rs[n].Kafka?
    ensures var k := |Arrivals(rs[..n])|;
            && k < |Arrivals(rs)| && Arrivals(rs)[..k] == Arrivals(rs[..n])
            && Arrivals(rs)[k] == ToArrival(rs[n].record, rs[n].checkedAt, rs[n].cachedAt)
  {
    var before, after := rs[..n], rs[n..];
    assert rs == before + after;
    ArrivalsSplit(before, after);
    assert Arrivals(after)[0] == ToArrival(rs[n].record, rs[n].checkedAt, rs[n].cachedAt);
    hide Arrivals, ToArrival;
  }

  /**
   * Over every run: a Kafka request is the next arrival at the cache; if the
   * cache decides to suppress it nothing changes and nothing is sent, otherwise it
   * is announced once.
   */
  lemma RecordInRun(cfg: CacheConfig, g: GatewayState, rs: seq<Request>, n: nat)
    requires n < |rs| && rs[n].Kafka?
    ensures var k, s, t := |Arrivals(rs[..n])|, At(cfg, g, rs, n), At(cfg, g, rs, n + 1);
            && k < |Arrivals(rs)|
            && (Decisions(cfg, g.cache, Arrivals(rs))[k] ==> t == s)
            && (!Decisions(cfg, g.cache, Arrivals(rs))[k] ==>
                  && t.sockets == s.sockets && s.emitted <= t.emitted
                  && Announced(s.sockets, MapTopicToEvent(rs[n].record.topic), rs[n].record.value,
                               t.emitted[|s.emitted|..]))
  {
    AtNext(cfg, g, rs, n);
    ArrivalOf(rs, n);
    RunCacheOf(cfg, g, rs[..n]);
    DecisionAt(cfg, g.cache, Arrivals(rs), |Arrivals(rs[..n])|);
    var r := rs[n];
    hide Step, Suppresses, Announced, Decisions, Arrivals, ToArrival, MapTopicToEvent, RunCache;
    StepAnnounces(cfg, At(cfg, g, rs, n), r.record, r.checkedAt, r.cachedAt);
  }

  /** What the n-th request of a run sends. */
  ghost function SentBy(cfg: CacheConfig, g: GatewayState, rs: seq<Request>, n: nat): seq<Emission>
    requires n < |rs|
  {
    var before, after := At(cfg, g, rs, n).emitted, At(cfg, g, rs, n + 1).emitted;
    if before <= after then after[|before|..] else []
  }

  /** The n-th request of the run brings a record that the cache does not suppress. */
  ghost predicate Accepts(cfg: CacheConfig, g: GatewayState, rs: seq<Request>, n: nat) {
    && n < |rs| && rs[n].Kafka? && |Arrivals(rs[..n])| < |Arrivals(rs)|
    && !Decisions(cfg, g.cache, Arrivals(rs))[|Arrivals(rs[..n])|]
  }

  lemma StepOnlyAdds(cfg: CacheConfig, g: GatewayState, r: Request)
    ensures g.emitted <= Step(cfg, g, r).emitted
    ensures g.emitted != Step(cfg, g, r).emitted ==>
              r.Replay? || (r.Kafka? && !Suppresses(cfg, g.cache, ToArrival(r.record, r.checkedAt, r.cachedAt)))
  {
    hide Room, Broadcast, ReplayKeys, Suppresses, CacheEvent, Checked, ToArrival;
  }

  /** Every emission of a run was sent by a replay or by a record that the cache did not suppress. */
  lemma {:induction false} EveryEmissionHasCause(cfg: CacheConfig, g: GatewayState, rs: seq<Request>, m: nat, p: nat)
    returns (n: nat)
    requires m <= |rs| && |g.emitted| <= p < |At(cfg, g, rs, m).emitted|
    ensures n < m && |At(cfg, g, rs, n).emitted| <= p < |At(cfg, g, rs, n + 1).emitted|
    ensures At(cfg, g, rs, n).emitted <= At(cfg, g, rs, n + 1).emitted
    ensures rs[n].Replay? || Accepts(cfg, g, rs, n)
    decreases m
  {
    hide *;
    AtStart(cfg, g, rs);
    n := m - 1;
    AtNext(cfg, g, rs, n);
    StepOnlyAdds(cfg, At(cfg, g, rs, n), rs[n]);
    if p < |At(cfg, g, rs, n).emitted| {
      n := EveryEmissionHasCause(cfg, g, rs, n, p);
    } else if rs[n].Kafka? {
      AcceptedThere(cfg, g, rs, n);
    }
  }

  lemma AcceptedThere(cfg: CacheConfig, g: GatewayState, rs: seq<Request>, n: nat)
    requires n < |rs| && rs[n].Kafka?
    ensures Accepts(cfg, g, rs, n) <==>
            !Suppresses(cfg, At(cfg, g, rs, n).cache, ToArrival(rs[n].record, rs[n].checkedAt, rs[n].cachedAt))
  {
    ArrivalOf(rs, n);
    RunCacheOf(cfg, g, rs[..n]);
    DecisionAt(cfg, g.cache, Arrivals(rs), |Arrivals(rs[..n])|);
    hide Suppresses, Decisions, Arrivals, ToArrival, RunCache, Run;
  }

  lemma {:induction false} ReplayOnlyToAsker(cache: State<EventValue>, keys: seq<string>, id: string, socket: Socket,
                                             eventTypes: Option<seq<string>>, since: int, room: string)
    ensures forall e | e in ReplayKeys(cache, keys, id, socket, eventTypes, since, room) ::
              e.recipients == map[id := socket.tenant]
  {
    if keys != [] {
      hide Replayable, MayReplay, EventTypeOf;
      ReplayOnlyToAsker(cache, keys[1..], id, socket, eventTypes, since, room);
    }
  }

  /** Whatever a request sends goes to connected sockets; a replay goes to the socket that asked. */
  lemma StepRecipients(cfg: CacheConfig, g: GatewayState, r: Request, id: string)
    requires id !in g.sockets
    ensures var t := Step(cfg, g, r);
            forall i | |g.emitted| <= i < |t.emitted| :: id !in t.emitted[i].recipients
  {
    hide Room, Broadcast, ReplayKeys, Suppresses, CacheEvent, Checked, ToArrival;
    match r {
      case Kafka(record, checkedAt, cachedAt) =>
        var a := ToArrival(record, checkedAt, cachedAt);
        NotInBroadcast(g.sockets, a.eventType, a.value, id);
      case Replay(asker, eventTypes, since, room) =>
        if asker in g.sockets {
          ReplayOnlyToAsker(g.cache, g.cache.cache.keys, asker, g.sockets[asker], eventTypes, since, room);
        }
      case _ =>
    }
  }

  lemma NotInBroadcast(sockets: map<string, Socket>, eventType: string, value: EventValue, id: string)
    requires id !in sockets
    ensures forall e | e in Broadcast(sockets, eventType, value) :: id !in e.recipients
  {
    hide Room, ServiceRoom, IncidentRoom, LogsRoom, DashboardRoom;
  }

  /** A client that has not connected, or has disconnected since, gets nothing. */
  lemma OfflineGetsNothing(cfg: CacheConfig, rs: seq<Request>, n: nat, id: string)
    requires n < |rs| && !Online(rs, n, id)
    ensures !Gets(SentBy(cfg, Fresh(), rs, n), id)
  {
    ConnectedExactly(cfg, rs, n, id);
    AtNext(cfg, Fresh(), rs, n);
    StepRecipients(cfg, At(cfg, Fresh(), rs, n), rs[n], id);
    hide At, Step, Online;
  }

  lemma FirstGets(sockets: map<string, Socket>, room: string, eventType: string, value: EventValue,
                  es: seq<Emission>, id: string)
    requires es != [] && SentTo(sockets, room, eventType, value, es[0])
    requires id in sockets && room in sockets[id].rooms
    ensures Gets(es, id)
  {
    assert id in es[0].recipients;
  }

  lemma LogsSubscribed(rs: seq<Request>, c: nat, i: nat, n: nat, id: string, tenant: string)
    requires c < i < n <= |rs| && rs[i].SubscribeLogs? && rs[i].id == id
    requires forall j | i < j < n :: rs[j] != UnsubscribeLogs(id)
    ensures SubscribedTo(rs, c, n, id, tenant, LogsRoom(tenant))
  {
    NamedRoomsApart(tenant);
    hide Room;
    assert Joins(rs[i], id, tenant, LogsRoom(tenant));
    assert forall j | i < j < n :: !Leaves(rs[j], id, tenant, LogsRoom(tenant));
  }

  /** A client that connected and subscribed to logs gets each accepted log line of its tenant until it leaves. */
  lemma LogLineArrives(cfg: CacheConfig, g: GatewayState, rs: seq<Request>, c: nat, i: nat, n: nat, id: string,
                       tenant: string)
    requires Since(rs, c, n, id, tenant) && Accepts(cfg, g, rs, n)
    requires c < i < n && rs[i].SubscribeLogs? && rs[i].id == id
    requires forall j | i < j < n :: rs[j] != UnsubscribeLogs(id)
    requires MapTopicToEvent(rs[n].record.topic) == "log.stream"
    requires tenant == OrDefault(rs[n].record.value.tenantId)
    ensures Gets(SentBy(cfg, g, rs, n), id)
  {
    var room := LogsRoom(tenant);
    LogsSubscribed(rs, c, i, n, id, tenant);
    hide Room, Joins, Leaves, Gets, At, Arrivals, Decisions, SentTo, MapTopicToEvent, SubscribedTo;
    MemberExactly(cfg, g, rs, c, n, id, tenant, room);
    RecordInRun(cfg, g, rs, n);
    FirstGets(At(cfg, g, rs, n).sockets, room, "log.stream", rs[n].record.value, SentBy(cfg, g, rs, n), id);
  }

  /** A connected client gets each accepted record of its tenant that is no log line, without subscribing. */
  lemma EventArrives(cfg: CacheConfig, g: GatewayState, rs: seq<Request>, c: nat, n: nat, id: string, tenant: string)
    requires Since(rs, c, n, id, tenant) && Accepts(cfg, g, rs, n)
    requires MapTopicToEvent(rs[n].record.topic) != "log.stream"
    requires tenant == OrDefault(rs[n].record.value.tenantId)
    ensures Gets(SentBy(cfg, g, rs, n), id)
  {
    var room, r := DashboardRoom(tenant), rs[n].record;
    hide Room, Joins, Leaves, Gets, At, Arrivals, Decisions, SentTo, MapTopicToEvent, SubscribedTo;
    MemberExactly(cfg, g, rs, c, n, id, tenant, room);
    RecordInRun(cfg, g, rs, n);
    FirstGets(At(cfg, g, rs, n).sockets, room, MapTopicToEvent(r.topic), r.value, SentBy(cfg, g, rs, n), id);
  }

  /** The log room is none of the rooms of named objects. */
  lemma NamedRoomsApart(tenant: string)
    ensures forall id :: IncidentRoom(tenant, id) != LogsRoom(tenant) && BoardRoom(tenant, id) != LogsRoom(tenant)
  {
    var n := |RoomPrefix(tenant)|;
    forall id
      ensures IncidentRoom(tenant, id) != LogsRoom(tenant) && BoardRoom(tenant, id) != LogsRoom(tenant)
    {
      assert LogsRoom(tenant)[n] == 'l' && IncidentRoom(tenant, id)[n] == 'i' && BoardRoom(tenant, id)[n] == 'd';
    }
  }
}
