/**
 * The realtime gateway: tenant rooms, broadcasting of Kafka events and replay
 * from the event cache (services/realtime/src/index.js).
 */
module Gateway {
  import opened DedupKeys
  import opened EventCache
  import opened Rooms
  import opened Wrappers

  /** A Kafka message body; an empty string stands for a missing or empty field. */
  datatype EventValue = EventValue(tenantId: string, serviceId: string, incidentId: string, body: string)

  /** A connected socket: the tenant captured at connection and the rooms it is in. */
  datatype Socket = Socket(tenant: string, rooms: set<string>)

  /** One emit: which sockets get it, each with its connection tenant, and what they get. */
  datatype Emission = Emission(recipients: map<string, string>, eventType: string, content: Cached<EventValue>)

  datatype GatewayState = GatewayState(cache: State<EventValue>, sockets: map<string, Socket>, emitted: seq<Emission>)

  datatype Request =
    | Connect(id: string, tenantId: string)
    | SubscribeService(id: string, serviceId: string)
    | SubscribeLogs(id: string, serviceId: string)
    | UnsubscribeLogs(id: string)
    | SubscribeBoard(id: string, boardId: string)
    | UnsubscribeBoard(id: string, boardId: string)
    | SubscribeIncident(id: string, incidentId: string)
    | UnsubscribeIncident(id: string, incidentId: string)
    | Replay(id: string, eventTypes: Option<seq<string>>, since: int, room: string)
    | Disconnect(id: string)
    | Kafka(record: KafkaRecord<EventValue>, checkedAt: int, cachedAt: int)

  function OrDefault(tenantId: string): string {
    if tenantId == "" then "default" else tenantId
  }

  /** The tenant a cached value belongs to; a placeholder has no tenant field. */
  function TenantOf(c: Cached<EventValue>): string {
    if c.Placeholder? then "default" else OrDefault(c.event.tenantId)
  }

  // ---------------------------------------------------------------- broadcast

  function Members(sockets: map<string, Socket>, room: string): map<string, string> {
    map id | id in sockets && room in sockets[id].rooms :: sockets[id].tenant
  }

  function To(sockets: map<string, Socket>, room: string, eventType: string, value: EventValue): Emission {
    Emission(Members(sockets, room), eventType, Cached(value))
  }

  /** Log lines go to the log room only, other events to the dashboard; both also to rooms of named objects. */
  function Broadcast(sockets: map<string, Socket>, eventType: string, value: EventValue): seq<Emission> {
    var tenant := OrDefault(value.tenantId);
    var service := if value.serviceId == "" then []
                   else [To(sockets, ServiceRoom(tenant, value.serviceId), eventType, value)];
    if eventType == "log.stream" then [To(sockets, LogsRoom(tenant), eventType, value)] + service
    else
      [To(sockets, DashboardRoom(tenant), eventType, value)] + service +
      if value.incidentId == "" then []
      else [To(sockets, IncidentRoom(tenant, value.incidentId), eventType, value)]
  }

  // ------------------------------------------------------------------- replay

  /** The text before the first colon, or all of it when there is none or it comes first. */
  function FirstColon(s: string): (i: nat)
    ensures i <= |s|
    ensures forall j | 0 <= j < i :: s[j] != ':'
    ensures i < |s| ==> s[i] == ':'
  {
    if s == "" || s[0] == ':' then 0 else 1 + FirstColon(s[1..])
  }

  function EventTypeOf(cacheKey: string): string {
    var i := FirstColon(cacheKey);
    if 0 < i < |cacheKey| then cacheKey[..i] else cacheKey
  }

  /** Replay recovers the event type of a cache key exactly when it is not empty and has no colon. */
  lemma EventTypeRecovered(eventType: string, key: string)
    ensures EventTypeOf(eventType + ":" + key) == eventType <==> eventType != "" && ':' !in eventType
  {
    var s := eventType + ":" + key;
    var i := FirstColon(s);
    assert s[|eventType|] == ':';
    assert i <= |eventType|;
    if i == |eventType| {
      assert s[..i] == eventType;
      assert forall j | 0 <= j < i :: eventType[j] == s[j];
    } else {
      assert eventType[i] == s[i];
    }
  }

  /** Whether replay sends an entry. */
  predicate Replayable(cache: State<EventValue>, k: string, tenant: string, eventTypes: Option<seq<string>>, since: int) {
    && LastSeen(cache, k) >= since
    && cache.cache.Has(k) && TenantOf(cache.cache.vals[k]) == tenant
    && (eventTypes.Some? ==> EventTypeOf(k) in eventTypes.value)
  }

  function ReplayTarget(tenant: string, room: string): string {
    if room == "" then DashboardRoom(tenant)
    else if "tenant:" <= room then room
    else Room(tenant, room)
  }

  predicate MayReplay(socket: Socket, room: string) {
    ReplayTarget(socket.tenant, room) in socket.rooms || DashboardRoom(socket.tenant) in socket.rooms
  }

  /** What replay sends for the given cache keys, in their order. */
  function ReplayKeys(cache: State<EventValue>, keys: seq<string>, id: string, socket: Socket,
                      eventTypes: Option<seq<string>>, since: int, room: string): seq<Emission>
  {
    if keys == [] then []
    else
      var rest := ReplayKeys(cache, keys[1..], id, socket, eventTypes, since, room);
      var k := keys[0];
      if Replayable(cache, k, socket.tenant, eventTypes, since) && MayReplay(socket, room)
      then [Emission(map[id := socket.tenant], EventTypeOf(k), cache.cache.vals[k])] + rest
      else rest
  }

  // --------------------------------------------------------------------- steps

  function Join(g: GatewayState, id: string, rooms: set<string>): GatewayState {
    if id in g.sockets
    then g.(sockets := g.sockets[id := g.sockets[id].(rooms := g.sockets[id].rooms + rooms)])
    else g
  }

  function Leave(g: GatewayState, id: string, room: string): GatewayState {
    if id in g.sockets
    then g.(sockets := g.sockets[id := g.sockets[id].(rooms := g.sockets[id].rooms - {room})])
    else g
  }

  function Tenant(g: GatewayState, id: string): string {
    if id in g.sockets then g.sockets[id].tenant else "default"
  }

  function OnKafka(cfg: CacheConfig, g: GatewayState, a: Arrival<EventValue>): GatewayState {
    if Suppresses(cfg, g.cache, a) then g
    else GatewayState(CacheEvent(cfg, Checked(cfg, g.cache, a), a), g.sockets,
                      g.emitted + Broadcast(g.sockets, a.eventType, a.value))
  }

  function OnReplay(g: GatewayState, id: string, eventTypes: Option<seq<string>>, since: int, room: string): GatewayState {
    if id in g.sockets
    then g.(emitted := g.emitted + ReplayKeys(g.cache, g.cache.cache.keys, id, g.sockets[id], eventTypes, since, room))
    else g
  }

  function Step(cfg: CacheConfig, g: GatewayState, r: Request): GatewayState {
    match r
    case Connect(id, tenantId) =>
      var tenant := OrDefault(tenantId);
      g.(sockets := g.sockets[id := Socket(tenant, {DashboardRoom(tenant)})])
    case SubscribeService(id, serviceId) =>
      if serviceId == "" then g else Join(g, id, {ServiceRoom(Tenant(g, id), serviceId)})
    case SubscribeLogs(id, serviceId) =>
      Join(g, id, {LogsRoom(Tenant(g, id))} +
                  if serviceId == "" then {} else {ServiceRoom(Tenant(g, id), serviceId)})
    case UnsubscribeLogs(id) => Leave(g, id, LogsRoom(Tenant(g, id)))
    case SubscribeBoard(id, boardId) =>
      if boardId == "" then g else Join(g, id, {BoardRoom(Tenant(g, id), boardId)})
    case UnsubscribeBoard(id, boardId) =>
      if boardId == "" then g else Leave(g, id, BoardRoom(Tenant(g, id), boardId))
    case SubscribeIncident(id, incidentId) =>
      if incidentId == "" then g else Join(g, id, {IncidentRoom(Tenant(g, id), incidentId)})
    case UnsubscribeIncident(id, incidentId) =>
      if incidentId == "" then g else Leave(g, id, IncidentRoom(Tenant(g, id), incidentId))
    case Replay(id, eventTypes, since, room) => OnReplay(g, id, eventTypes, since, room)
    case Disconnect(id) => g.(sockets := g.sockets - {id})
    case Kafka(record, checkedAt, cachedAt) => OnKafka(cfg, g, ToArrival(record, checkedAt, cachedAt))
  }

  ghost function Run(cfg: CacheConfig, g: GatewayState, rs: seq<Request>): GatewayState
    decreases |rs|
  {
    if rs == [] then g else Run(cfg, Step(cfg, g, rs[0]), rs[1..])
  }

  // --------------------------------------------------------- tenant separation

  /** Every socket is in its tenant's dashboard room and only in rooms of its tenant. */
  ghost predicate SocketSound(tenants: set<string>, s: Socket) {
    && s.tenant in tenants && DashboardRoom(s.tenant) in s.rooms
    && forall room | room in s.rooms :: RoomOf(s.tenant, room)
  }

  ghost predicate SocketsSound(tenants: set<string>, g: GatewayState) {
    forall id | id in g.sockets :: SocketSound(tenants, g.sockets[id])
  }

  /** Everyone who got it was connected for the tenant it belongs to. */
  ghost predicate Isolated(e: Emission) {
    forall id | id in e.recipients :: e.recipients[id] == TenantOf(e.content)
  }

  ghost predicate AllIsolated(es: seq<Emission>) {
    forall i | 0 <= i < |es| :: Isolated(es[i])
  }

  /** A request of these tenants; records come from subscribed topics only. */
  ghost predicate Speaks(tenants: set<string>, r: Request) {
    && (r.Connect? ==> OrDefault(r.tenantId) in tenants)
    && (r.Kafka? ==> OrDefault(r.record.value.tenantId) in tenants && Subscribed(r.record.topic))
  }

  lemma NamedRooms(tenant: string, id: string)
    ensures RoomOf(tenant, DashboardRoom(tenant)) && RoomOf(tenant, LogsRoom(tenant))
    ensures id != "" ==> RoomOf(tenant, ServiceRoom(tenant, id)) && RoomOf(tenant, IncidentRoom(tenant, id))
    ensures id != "" ==> RoomOf(tenant, BoardRoom(tenant, id))
  {
    hide Room;
    assert RoomName("dashboard") && RoomName("logs");
    ObjectRooms(tenant, id);
    if id != "" {
      ObjectRoomOf(tenant, "service", id);
      ObjectRoomOf(tenant, "incident", id);
      ObjectRoomOf(tenant, "dashboard", id);
    }
  }

  /** A message to a room of a tenant reaches sockets of that tenant only. */
  lemma ToIsolated(tenants: set<string>, g: GatewayState, tenant: string, room: string, eventType: string,
                   value: EventValue)
    requires Separable(tenants) && SocketsSound(tenants, g)
    requires tenant == OrDefault(value.tenantId) && tenant in tenants && RoomOf(tenant, room)
    ensures Isolated(To(g.sockets, room, eventType, value))
  {
    forall id | id in g.sockets && room in g.sockets[id].rooms
      ensures g.sockets[id].tenant == tenant
    {
      InTenantRoom(tenants, g, id, tenant, room);
    }
  }

  lemma BroadcastIsolated(tenants: set<string>, g: GatewayState, eventType: string, value: EventValue)
    requires Separable(tenants) && SocketsSound(tenants, g) && OrDefault(value.tenantId) in tenants
    ensures AllIsolated(Broadcast(g.sockets, eventType, value))
  {
    var tenant := OrDefault(value.tenantId);
    NamedRooms(tenant, value.serviceId);
    NamedRooms(tenant, value.incidentId);
    hide RoomOf, Room, Isolated, To, Separable, SocketsSound;
    ToIsolated(tenants, g, tenant, DashboardRoom(tenant), eventType, value);
    ToIsolated(tenants, g, tenant, LogsRoom(tenant), eventType, value);
    if value.serviceId != "" {
      ToIsolated(tenants, g, tenant, ServiceRoom(tenant, value.serviceId), eventType, value);
    }
    if value.incidentId != "" {
      ToIsolated(tenants, g, tenant, IncidentRoom(tenant, value.incidentId), eventType, value);
    }
  }

  /** An event that is no log line reaches, by its first emit, exactly the connected sockets of its tenant. */
  lemma DashboardReachesTenant(tenants: set<string>, g: GatewayState, eventType: string, value: EventValue, id: string)
    requires Separable(tenants) && SocketsSound(tenants, g) && OrDefault(value.tenantId) in tenants
    requires eventType != "log.stream"
    ensures var es := Broadcast(g.sockets, eventType, value);
            && es != [] && es[0].content == Cached(value)
            && (id in es[0].recipients <==> id in g.sockets && g.sockets[id].tenant == OrDefault(value.tenantId))
  {
    var tenant := OrDefault(value.tenantId);
    NamedRooms(tenant, "");
    if id in g.sockets {
      assert SocketSound(tenants, g.sockets[id]);
      hide RoomOf, Room;
      if DashboardRoom(tenant) in g.sockets[id].rooms {
        SeparableRooms(tenants, g.sockets[id].tenant, tenant, DashboardRoom(tenant));
      }
    }
  }

  ghost predicate Gets(es: seq<Emission>, id: string) {
    exists i :: 0 <= i < |es| && id in es[i].recipients
  }

  lemma GetsOne(e: Emission, id: string)
    ensures Gets([e], id) <==> id in e.recipients
  {
    assert [e][0] == e;
  }

  lemma GetsEither(a: seq<Emission>, b: seq<Emission>, id: string)
    ensures Gets(a + b, id) <==> Gets(a, id) || Gets(b, id)
  {
    forall i | 0 <= i < |a|
      ensures id in a[i].recipients ==> Gets(a + b, id)
    {
      assert (a + b)[i] == a[i];
    }
    forall i | 0 <= i < |b|
      ensures id in b[i].recipients ==> Gets(a + b, id)
    {
      assert (a + b)[|a| + i] == b[i];
    }
  }

  /** A socket gets a log line exactly when it is its tenant's and in the log room or the named service's room. */
  lemma LogsNeedSubscription(tenants: set<string>, g: GatewayState, value: EventValue, id: string)
    requires Separable(tenants) && SocketsSound(tenants, g) && OrDefault(value.tenantId) in tenants
    requires id in g.sockets
    ensures var socket := g.sockets[id];
            Gets(Broadcast(g.sockets, "log.stream", value), id) <==>
            && socket.tenant == OrDefault(value.tenantId)
            && (LogsRoom(socket.tenant) in socket.rooms ||
                (value.serviceId != "" && ServiceRoom(socket.tenant, value.serviceId) in socket.rooms))
  {
    var tenant, socket := OrDefault(value.tenantId), g.sockets[id];
    var logs, service := LogsRoom(tenant), ServiceRoom(tenant, value.serviceId);
    NamedRooms(tenant, value.serviceId);
    InTenantRoom(tenants, g, id, tenant, logs);
    LogEmissions(g.sockets, value, id);
    if value.serviceId != "" {
      InTenantRoom(tenants, g, id, tenant, service);
    }
    hide Room, RoomOf, Separable, SocketsSound, Gets, Broadcast;
  }

  lemma InTenantRoom(tenants: set<string>, g: GatewayState, id: string, tenant: string, room: string)
    requires Separable(tenants) && SocketsSound(tenants, g) && tenant in tenants && id in g.sockets
    requires RoomOf(tenant, room)
    ensures room in g.sockets[id].rooms ==> g.sockets[id].tenant == tenant
  {
    assert SocketSound(tenants, g.sockets[id]);
    hide RoomOf;
    if room in g.sockets[id].rooms {
      SeparableRooms(tenants, g.sockets[id].tenant, tenant, room);
    }
  }

  lemma LogEmissions(sockets: map<string, Socket>, value: EventValue, id: string)
    requires id in sockets
    ensures var tenant, rooms := OrDefault(value.tenantId), sockets[id].rooms;
            Gets(Broadcast(sockets, "log.stream", value), id) <==>
            LogsRoom(tenant) in rooms || (value.serviceId != "" && ServiceRoom(tenant, value.serviceId) in rooms)
  {
    hide Room, LogsRoom, ServiceRoom, Gets;
    var tenant := OrDefault(value.tenantId);
    var logs := To(sockets, LogsRoom(tenant), "log.stream", value);
    var service := To(sockets, ServiceRoom(tenant, value.serviceId), "log.stream", value);
    GetsOne(logs, id);
    if value.serviceId == "" {
      assert Broadcast(sockets, "log.stream", value) == [logs];
    } else {
      GetsOne(service, id);
      GetsEither([logs], [service], id);
    }
  }

  lemma {:induction false} ReplayIsolated(cache: State<EventValue>, keys: seq<string>, id: string, socket: Socket,
                                          eventTypes: Option<seq<string>>, since: int, room: string)
    ensures AllIsolated(ReplayKeys(cache, keys, id, socket, eventTypes, since, room))
  {
    if keys != [] {
      ReplayIsolated(cache, keys[1..], id, socket, eventTypes, since, room);
    }
  }

  lemma JoinSound(tenants: set<string>, g: GatewayState, id: string, rooms: set<string>)
    requires SocketsSound(tenants, g)
    requires id in g.sockets ==> forall room | room in rooms :: RoomOf(Tenant(g, id), room)
    ensures SocketsSound(tenants, Join(g, id, rooms))
  {
    hide RoomOf, Room;
    if id in g.sockets {
      assert SocketSound(tenants, g.sockets[id]);
    }
  }

  lemma LeaveSound(tenants: set<string>, g: GatewayState, id: string, room: string)
    requires SocketsSound(tenants, g) && room != DashboardRoom(Tenant(g, id))
    ensures SocketsSound(tenants, Leave(g, id, room))
  {
    hide RoomOf, Room;
    if id in g.sockets {
      assert SocketSound(tenants, g.sockets[id]);
    }
  }

  lemma OtherRooms(tenant: string, id: string)
    ensures LogsRoom(tenant) != DashboardRoom(tenant) && IncidentRoom(tenant, id) != DashboardRoom(tenant)
    ensures id != "" ==> BoardRoom(tenant, id) != DashboardRoom(tenant)
  {
    var n := |RoomPrefix(tenant)|;
    assert DashboardRoom(tenant)[n..] == "dashboard" && LogsRoom(tenant)[n..] == "logs";
    assert IncidentRoom(tenant, id)[n] == 'i' && DashboardRoom(tenant)[n] == 'd';
    assert |BoardRoom(tenant, id)| == n + 10 + |id|;
  }

  lemma StepSound(tenants: set<string>, cfg: CacheConfig, g: GatewayState, r: Request)
    requires SocketsSound(tenants, g) && Speaks(tenants, r)
    ensures SocketsSound(tenants, Step(cfg, g, r))
  {
    hide RoomOf, RoomPrefix, Separable;
    match r {
      case Connect(id, tenantId) =>
        NamedRooms(OrDefault(tenantId), "");
      case SubscribeService(id, serviceId) =>
        NamedRooms(Tenant(g, id), serviceId);
        if serviceId != "" {
          JoinSound(tenants, g, id, {ServiceRoom(Tenant(g, id), serviceId)});
        }
      case SubscribeLogs(id, serviceId) =>
        NamedRooms(Tenant(g, id), serviceId);
        JoinSound(tenants, g, id, {LogsRoom(Tenant(g, id))} +
                                  if serviceId == "" then {} else {ServiceRoom(Tenant(g, id), serviceId)});
      case UnsubscribeLogs(id) =>
        OtherRooms(Tenant(g, id), "");
        LeaveSound(tenants, g, id, LogsRoom(Tenant(g, id)));
      case SubscribeBoard(id, boardId) =>
        NamedRooms(Tenant(g, id), boardId);
        if boardId != "" {
          JoinSound(tenants, g, id, {BoardRoom(Tenant(g, id), boardId)});
        }
      case UnsubscribeBoard(id, boardId) =>
        OtherRooms(Tenant(g, id), boardId);
        if boardId != "" {
          LeaveSound(tenants, g, id, BoardRoom(Tenant(g, id), boardId));
        }
      case SubscribeIncident(id, incidentId) =>
        NamedRooms(Tenant(g, id), incidentId);
        if incidentId != "" {
          JoinSound(tenants, g, id, {IncidentRoom(Tenant(g, id), incidentId)});
        }
      case UnsubscribeIncident(id, incidentId) =>
        OtherRooms(Tenant(g, id), incidentId);
        if incidentId != "" {
          LeaveSound(tenants, g, id, IncidentRoom(Tenant(g, id), incidentId));
        }
      case Replay(id, eventTypes, since, room) =>
      case Disconnect(id) =>
      case Kafka(record, checkedAt, cachedAt) =>
    }
  }

  lemma StepIsolated(tenants: set<string>, cfg: CacheConfig, g: GatewayState, r: Request)
    requires Separable(tenants) && SocketsSound(tenants, g) && Speaks(tenants, r) && AllIsolated(g.emitted)
    ensures AllIsolated(Step(cfg, g, r).emitted)
  {
    hide Isolated, Separable, SocketsSound, Suppresses, CacheEvent, Checked;
    match r {
      case Kafka(record, checkedAt, cachedAt) =>
        var a := ToArrival(record, checkedAt, cachedAt);
        BroadcastIsolated(tenants, g, a.eventType, a.value);
        hide Broadcast;
      case Replay(id, eventTypes, since, room) =>
        hide ReplayKeys;
        if id in g.sockets {
          ReplayIsolated(g.cache, g.cache.cache.keys, id, g.sockets[id], eventTypes, since, room);
        }
      case _ =>
    }
  }

  /**
   * Over every run whose tenant names do not extend one another, each broadcast or
   * replayed event that reaches a socket belongs to the tenant that socket
   * connected for.
   */
  lemma {:induction false} RunIsolated(tenants: set<string>, cfg: CacheConfig, g: GatewayState, rs: seq<Request>)
    requires Separable(tenants) && SocketsSound(tenants, g) && AllIsolated(g.emitted)
    requires forall i | 0 <= i < |rs| :: Speaks(tenants, rs[i])
    ensures SocketsSound(tenants, Run(cfg, g, rs)) && AllIsolated(Run(cfg, g, rs).emitted)
    decreases |rs|
  {
    hide Step, Separable, SocketsSound, AllIsolated, Speaks;
    if rs != [] {
      StepSound(tenants, cfg, g, rs[0]);
      StepIsolated(tenants, cfg, g, rs[0]);
      RunIsolated(tenants, cfg, Step(cfg, g, rs[0]), rs[1..]);
    }
  }

  /** A gateway that has just started. */
  function Fresh(): GatewayState {
    GatewayState(EmptyState(), map[], [])
  }

  ghost predicate AllSpeak(tenants: set<string>, rs: seq<Request>) {
    forall i | 0 <= i < |rs| :: Speaks(tenants, rs[i])
  }

  /** Joins the room of a named object. */
  function Subscribe(id: string, kind: string, objectId: string): Request {
    if kind == "service" then SubscribeService(id, objectId)
    else if kind == "incident" then SubscribeIncident(id, objectId)
    else SubscribeBoard(id, objectId)
  }

  lemma SubscribeJoins(cfg: CacheConfig, g: GatewayState, id: string, kind: string, objectId: string)
    requires Kind(kind) && objectId != ""
    ensures Step(cfg, g, Subscribe(id, kind, objectId)) == Join(g, id, {Room(Tenant(g, id), kind + ":" + objectId)})
  {
    var tenant := Tenant(g, id);
    ObjectRooms(tenant, objectId);
    hide Room, ServiceRoom, IncidentRoom, BoardRoom, Join;
    var r := Subscribe(id, kind, objectId);
    if kind == "service" {
      assert r == SubscribeService(id, objectId);
    } else if kind == "incident" {
      assert r == SubscribeIncident(id, objectId);
    } else {
      assert r == SubscribeBoard(id, objectId);
    }
  }

  lemma RunThree(cfg: CacheConfig, g: GatewayState, a: Request, b: Request, c: Request)
    ensures Run(cfg, g, [a, b, c]) == Step(cfg, Step(cfg, Step(cfg, g, a), b), c)
  {
    hide Step;
    assert [a, b, c][1..] == [b, c] && [b, c][1..] == [c] && [c][1..] == [];
    var g1 := Step(cfg, g, a);
    var g2 := Step(cfg, g1, b);
    assert Run(cfg, g, [a, b, c]) == Run(cfg, g1, [b, c]);
    assert Run(cfg, g1, [b, c]) == Run(cfg, g2, [c]);
    assert Run(cfg, g2, [c]) == Run(cfg, Step(cfg, g2, c), []);
  }

  /** A record of the longer tenant reaches a socket of the shorter one in the room they share. */
  lemma RecordLeaks(cfg: CacheConfig, g: GatewayState, id: string, r: KafkaRecord<EventValue>, t1: int, t2: int)
    requires g.cache == EmptyState() && id in g.sockets && r.value.tenantId != "" && r.topic == "incident-created"
    requires DashboardRoom(r.value.tenantId) in g.sockets[id].rooms && g.sockets[id].tenant != r.value.tenantId
    ensures !AllIsolated(Step(cfg, g, Kafka(r, t1, t2)).emitted)
  {
    hide DashboardRoom, CacheEvent, Checked, DedupKey;
    var a := ToArrival(r, t1, t2);
    var es := Broadcast(g.sockets, a.eventType, a.value);
    assert id in es[0].recipients && !Isolated(es[0]);
    hide Broadcast, Isolated;
    assert (g.emitted + es)[|g.emitted|] == es[0];
  }

  /** Three requests of tenants that share a room: connect, subscribe, record. */
  lemma ExtensionLeaks(cfg: CacheConfig, long: string, short: string) returns (rs: seq<Request>)
    requires Extends(long, short) && short != ""
    ensures AllSpeak({long, short}, rs) && !AllIsolated(Run(cfg, Fresh(), rs).emitted)
  {
    var kind, objectId := ExtensionShares(long, short);
    assert |long| > |short|;
    var r := KafkaRecord("incident-created", 0, 0, "", 0, EventValue(long, "", "", ""));
    var connect, subscribe := Connect("a", short), Subscribe("a", kind, objectId);
    rs := [connect, subscribe, Kafka(r, 0, 0)];
    var g := Step(cfg, Fresh(), connect);
    hide Room, Extends, Kind;
    RunThree(cfg, Fresh(), connect, subscribe, Kafka(r, 0, 0));
    SubscribeJoins(cfg, g, "a", kind, objectId);
    RecordLeaks(cfg, Step(cfg, g, subscribe), "a", r, 0, 0);
  }

  /** A set of tenants is kept apart by every run of the gateway exactly when no name extends another. */
  lemma IsolationExact(tenants: set<string>, cfg: CacheConfig)
    requires "" !in tenants
    ensures Separable(tenants) <==>
            forall rs: seq<Request> | AllSpeak(tenants, rs) :: AllIsolated(Run(cfg, Fresh(), rs).emitted)
  {
    if Separable(tenants) {
      forall rs: seq<Request> | AllSpeak(tenants, rs)
        ensures AllIsolated(Run(cfg, Fresh(), rs).emitted)
      {
        RunIsolated(tenants, cfg, Fresh(), rs);
      }
    } else {
      var t, u :| t in tenants && u in tenants && t != u && Extends(t, u);
      var rs := ExtensionLeaks(cfg, t, u);
      hide AllIsolated;
      assert AllSpeak(tenants, rs);
    }
  }

  // -------------------------------------------------------------- replay exact

  ghost predicate Ascending(positions: seq<nat>) {
    forall j, k | 0 <= j < k < |positions| :: positions[j] < positions[k]
  }

  /** The cached event as replay sends it. */
  ghost predicate SentFor(cache: State<EventValue>, k: string, id: string, socket: Socket, e: Emission) {
    cache.cache.Has(k) && e == Emission(map[id := socket.tenant], EventTypeOf(k), cache.cache.vals[k])
  }

  /** The emissions are those of the events at these positions, one for one and in cache order. */
  ghost predicate Sends(cache: State<EventValue>, keys: seq<string>, id: string, socket: Socket,
                        positions: seq<nat>, es: seq<Emission>)
  {
    && Ascending(positions) && |es| == |positions|
    && forall j | 0 <= j < |positions| ::
         positions[j] < |keys| && SentFor(cache, keys[positions[j]], id, socket, es[j])
  }

  /** The positions are those of the events passing the time, tenant and type tests. */
  ghost predicate Chosen(cache: State<EventValue>, keys: seq<string>, tenant: string,
                         eventTypes: Option<seq<string>>, since: int, positions: seq<nat>)
  {
    forall i | 0 <= i < |keys| :: i in positions <==> Replayable(cache, keys[i], tenant, eventTypes, since)
  }

  /**
   * For a connected socket replay sends exactly the cached events passing the
   * time, tenant and type tests, each once and in cache order, whatever room it
   * names.
   */
  lemma {:induction false} ReplayExact(cache: State<EventValue>, keys: seq<string>, id: string, socket: Socket,
                                       eventTypes: Option<seq<string>>, since: int, room: string)
    returns (positions: seq<nat>)
    requires DashboardRoom(socket.tenant) in socket.rooms
    ensures Chosen(cache, keys, socket.tenant, eventTypes, since, positions)
    ensures Sends(cache, keys, id, socket, positions, ReplayKeys(cache, keys, id, socket, eventTypes, since, room))
  {
    positions := [];
    if keys != [] {
      var rest := ReplayExact(cache, keys[1..], id, socket, eventTypes, since, room);
      var first := Replayable(cache, keys[0], socket.tenant, eventTypes, since);
      positions := (if first then [0] else []) + Shifted(rest);
      ChosenStep(cache, keys, socket.tenant, eventTypes, since, rest);
      ReplayStep(cache, keys, id, socket, eventTypes, since, room, rest);
      hide Chosen, Sends, Replayable, DashboardRoom, ReplayKeys;
    }
  }

  lemma ReplayStep(cache: State<EventValue>, keys: seq<string>, id: string, socket: Socket,
                   eventTypes: Option<seq<string>>, since: int, room: string, rest: seq<nat>)
    requires DashboardRoom(socket.tenant) in socket.rooms && keys != []
    requires Sends(cache, keys[1..], id, socket, rest, ReplayKeys(cache, keys[1..], id, socket, eventTypes, since, room))
    ensures var first := Replayable(cache, keys[0], socket.tenant, eventTypes, since);
            Sends(cache, keys, id, socket, (if first then [0] else []) + Shifted(rest),
                  ReplayKeys(cache, keys, id, socket, eventTypes, since, room))
  {
    var es := ReplayKeys(cache, keys[1..], id, socket, eventTypes, since, room);
    hide Sends, DashboardRoom, ReplayTarget, TenantOf, EventTypeOf, LastSeen;
    if Replayable(cache, keys[0], socket.tenant, eventTypes, since) {
      var e := Emission(map[id := socket.tenant], EventTypeOf(keys[0]), cache.cache.vals[keys[0]]);
      FirstSent(cache, keys, id, socket, rest, e, es);
    } else {
      NotSent(cache, keys, id, socket, rest, es);
      assert [] + Shifted(rest) == Shifted(rest);
    }
  }

  function Shifted(positions: seq<nat>): seq<nat> {
    seq(|positions|, i requires 0 <= i < |positions| => positions[i] + 1)
  }

  lemma ChosenStep(cache: State<EventValue>, keys: seq<string>, tenant: string, eventTypes: Option<seq<string>>,
                   since: int, rest: seq<nat>)
    requires keys != [] && Chosen(cache, keys[1..], tenant, eventTypes, since, rest)
    ensures var first := Replayable(cache, keys[0], tenant, eventTypes, since);
            Chosen(cache, keys, tenant, eventTypes, since, (if first then [0] else []) + Shifted(rest))
  {
    hide Replayable;
    forall i | 1 <= i < |keys|
      ensures i in Shifted(rest) <==> Replayable(cache, keys[i], tenant, eventTypes, since)
    {
      assert keys[1..][i - 1] == keys[i];
      InShifted(rest, i);
    }
    assert 0 !in Shifted(rest);
  }

  lemma InShifted(positions: seq<nat>, i: nat)
    requires i > 0
    ensures i in Shifted(positions) <==> i - 1 in positions
  {
    if i - 1 in positions {
      var j :| 0 <= j < |positions| && positions[j] == i - 1;
      assert Shifted(positions)[j] == i;
    }
  }

  lemma NotSent(cache: State<EventValue>, keys: seq<string>, id: string, socket: Socket, rest: seq<nat>,
                es: seq<Emission>)
    requires keys != [] && Sends(cache, keys[1..], id, socket, rest, es)
    ensures Sends(cache, keys, id, socket, Shifted(rest), es)
  {
    hide SentFor;
    assert forall j | 0 <= j < |rest| :: Shifted(rest)[j] == rest[j] + 1;
  }

  lemma FirstSent(cache: State<EventValue>, keys: seq<string>, id: string, socket: Socket, rest: seq<nat>,
                  e: Emission, es: seq<Emission>)
    requires keys != [] && SentFor(cache, keys[0], id, socket, e) && Sends(cache, keys[1..], id, socket, rest, es)
    ensures Sends(cache, keys, id, socket, [0] + Shifted(rest), [e] + es)
  {
    hide SentFor;
    NotSent(cache, keys, id, socket, rest, es);
    var positions, all, shifted := [0] + Shifted(rest), [e] + es, Shifted(rest);
    hide Shifted;
    forall j | 0 <= j < |positions|
      ensures positions[j] < |keys| && SentFor(cache, keys[positions[j]], id, socket, all[j])
    {
      if j > 0 {
        assert positions[j] == shifted[j - 1] && all[j] == es[j - 1];
      }
    }
  }
}
