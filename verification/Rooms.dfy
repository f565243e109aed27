/** Names of socket rooms (services/realtime/src/index.js and its socket handlers). */
module Rooms {
  import Sequences

  function RoomPrefix(tenant: string): string {
    "tenant:" + tenant + ":"
  }

  function Room(tenant: string, name: string): string {
    RoomPrefix(tenant) + name
  }

  function DashboardRoom(tenant: string): string {
    Room(tenant, "dashboard")
  }

  function LogsRoom(tenant: string): string {
    Room(tenant, "logs")
  }

  function ServiceRoom(tenant: string, id: string): string {
    Room(tenant, "service:" + id)
  }

  function IncidentRoom(tenant: string, id: string): string {
    Room(tenant, "incident:" + id)
  }

  function BoardRoom(tenant: string, id: string): string {
    Room(tenant, "dashboard:" + id)
  }

  /** The part of a room name after the tenant: two fixed names and three kinds with an identifier. */
  ghost predicate RoomName(name: string) {
    || name == "dashboard"
    || name == "logs"
    || exists kind, id :: Kind(kind) && id != "" && name == kind + ":" + id
  }

  predicate Kind(kind: string) {
    kind == "service" || kind == "incident" || kind == "dashboard"
  }

  ghost predicate RoomOf(tenant: string, room: string) {
    exists name :: RoomName(name) && room == Room(tenant, name)
  }

  /** The rooms of named objects, by kind. */
  lemma ObjectRooms(tenant: string, id: string)
    ensures ServiceRoom(tenant, id) == Room(tenant, "service" + ":" + id)
    ensures IncidentRoom(tenant, id) == Room(tenant, "incident" + ":" + id)
    ensures BoardRoom(tenant, id) == Room(tenant, "dashboard" + ":" + id)
  {
    hide Room;
    assert "service" + ":" + id == "service:" + id;
    assert "incident" + ":" + id == "incident:" + id;
    assert "dashboard" + ":" + id == "dashboard:" + id;
  }

  lemma ObjectRoomOf(tenant: string, kind: string, id: string)
    requires Kind(kind) && id != ""
    ensures RoomOf(tenant, Room(tenant, kind + ":" + id))
  {
    hide Room, Kind;
    assert RoomName(kind + ":" + id);
  }

  /** One tenant name reads like another followed by a room kind. */
  ghost predicate Extends(long: string, short: string) {
    exists kind :: Kind(kind) && short + ":" + kind + ":" <= long + ":"
  }

  lemma KindsHaveNoColon(kind: string)
    requires Kind(kind)
    ensures ':' !in kind && kind != ""
  {}

  lemma SamePrefixCut(a: string, x: string, y: string)
    requires a + x == a + y
    ensures x == y
  {
    assert (a + x)[|a|..] == x && (a + y)[|a|..] == y;
  }

  /** The text of a room name after its fixed beginning. */
  lemma RoomText(t: string, u: string, m: string, n: string)
    requires Room(t, m) == Room(u, n)
    ensures t + ":" + m == u + ":" + n
  {
    Sequences.Associative("tenant:", t, ":");
    Sequences.Associative("tenant:", t + ":", m);
    Sequences.Associative("tenant:", u, ":");
    Sequences.Associative("tenant:", u + ":", n);
    SamePrefixCut("tenant:", t + ":" + m, u + ":" + n);
  }

  /** Two tenants whose names do not extend one another never share a room. */
  lemma RoomsApart(t: string, u: string, m: string, n: string)
    requires RoomName(m) && RoomName(n) && Room(t, m) == Room(u, n) && |u| <= |t|
    ensures t == u || Extends(t, u)
  {
    RoomText(t, u, m, n);
    hide Room, RoomName, Extends;
    if |u| == |t| {
      assert (t + ":" + m)[..|t|] == t && (u + ":" + n)[..|t|] == u;
    } else {
      ColonInName(t, u, m, n);
    }
  }

  /** The longer tenant's name reaches into the room name of the shorter one. */
  lemma ColonInName(t: string, u: string, m: string, n: string)
    requires RoomName(n) && t + ":" + m == u + ":" + n && |u| < |t|
    ensures Extends(t, u)
  {
    var at := |t| - |u| - 1;
    assert n[at] == ':' by {
      assert (t + ":" + m)[|t|] == ':' && (u + ":" + n)[|u| + 1 + at] == n[at];
    }
    assert n != "dashboard" && n != "logs";
    var kind, id :| Kind(kind) && id != "" && n == kind + ":" + id;
    KindsHaveNoColon(kind);
    hide RoomName, Kind;
    assert |kind| <= at by {
      assert forall i | 0 <= i < |kind| :: n[i] == kind[i];
    }
    HeadFits(t, u, m, kind, id);
  }

  lemma HeadFits(t: string, u: string, m: string, kind: string, id: string)
    requires t + ":" + m == u + ":" + (kind + ":" + id) && |u| + 1 + |kind| <= |t|
    ensures u + ":" + kind + ":" <= t + ":"
  {
    var s, head := t + ":" + m, u + ":" + kind + ":";
    assert u + ":" + (kind + ":" + id) == head + id;
    assert s[..|t| + 1] == t + ":" && s[..|head|] == head;
  }

  /** Exactly the tenants whose names extend one another share a room. */
  lemma SharedRoomExact(t: string, u: string)
    requires t != u
    ensures (exists room :: RoomOf(t, room) && RoomOf(u, room)) <==> Extends(t, u) || Extends(u, t)
  {
    if exists room :: RoomOf(t, room) && RoomOf(u, room) {
      var room :| RoomOf(t, room) && RoomOf(u, room);
      var m :| RoomName(m) && room == Room(t, m);
      var n :| RoomName(n) && room == Room(u, n);
      if |u| <= |t| {
        RoomsApart(t, u, m, n);
      } else {
        RoomsApart(u, t, n, m);
      }
    }
    if Extends(t, u) {
      var kind, id := ExtensionShares(t, u);
    }
    if Extends(u, t) {
      var kind, id := ExtensionShares(u, t);
    }
  }

  lemma Regroup(p: string, short: string, kind: string, w: string, d: string)
    ensures p + (short + ":" + kind + ":" + w) + d == p + short + ":" + (kind + ":" + (w + d))
  {
    var left := p + (short + ":" + kind + ":" + w) + d;
    var right := p + short + ":" + (kind + ":" + (w + d));
    var i, j := |p|, |p| + |short| + 1;
    assert left[..i] == p == right[..i];
    assert left[i..j] == short + ":" == right[i..j];
    assert left[j..] == kind + ":" + (w + d) == right[j..];
    assert left == left[..i] + left[i..j] + left[j..];
    assert right == right[..i] + right[i..j] + right[j..];
  }

  /** The dashboard room of the longer tenant is a room of a named object of the shorter one. */
  lemma ExtensionShares(long: string, short: string) returns (kind: string, id: string)
    requires Extends(long, short)
    ensures Kind(kind) && id != "" && DashboardRoom(long) == Room(short, kind + ":" + id)
    ensures RoomOf(long, DashboardRoom(long)) && RoomOf(short, DashboardRoom(long))
  {
    kind :| Kind(kind) && short + ":" + kind + ":" <= long + ":";
    var head := short + ":" + kind + ":";
    var w := (long + ":")[|head|..];
    id := w + "dashboard";
    assert long + ":" == head + w;
    hide Room, RoomOf;
    DashboardAsObject(long, short, kind, w);
    ObjectRoomOf(short, kind, id);
    OwnDashboard(long);
  }

  lemma DashboardAsObject(long: string, short: string, kind: string, w: string)
    requires long + ":" == short + ":" + kind + ":" + w
    ensures DashboardRoom(long) == Room(short, kind + ":" + (w + "dashboard"))
  {
    Sequences.Associative("tenant:", long, ":");
    Regroup("tenant:", short, kind, w, "dashboard");
  }

  lemma OwnDashboard(tenant: string)
    ensures RoomOf(tenant, DashboardRoom(tenant))
  {
    hide Room;
    assert RoomName("dashboard");
  }

  /** No two tenants of the set share a room name. */
  ghost predicate Separable(tenants: set<string>) {
    forall t, u | t in tenants && u in tenants && t != u :: !Extends(t, u)
  }

  lemma SeparableRooms(tenants: set<string>, t: string, u: string, room: string)
    requires Separable(tenants) && t in tenants && u in tenants && RoomOf(t, room) && RoomOf(u, room)
    ensures t == u
  {
    if t != u {
      SharedRoomExact(t, u);
    }
  }

  /** Tenant identifiers without colons are separable. */
  lemma ColonFreeSeparable(tenants: set<string>)
    requires forall t | t in tenants :: ':' !in t
    ensures Separable(tenants)
  {
    forall t, u | t in tenants && u in tenants && t != u
      ensures !Extends(t, u)
    {
      forall kind | Kind(kind)
        ensures !(u + ":" + kind + ":" <= t + ":")
      {
        var head, whole := u + ":" + kind + ":", t + ":";
        KindsHaveNoColon(kind);
        assert head[|u|] == ':' && head[|head| - 1] == ':';
        assert forall i | 0 <= i < |t| :: whole[i] != ':';
      }
    }
  }
}
