/**
 * The gateway's event cache, which is at once dedup memory, TTL cache,
 * size-capped cache and replay log (services/realtime/src/index.js).
 */
module EventCache {
  import opened OrderedMaps
  import opened Wrappers

  /** A cached value; the placeholder stands for `{ _dedup: true }`. */
  datatype Cached<+E> = Placeholder | Cached(event: E)

  datatype CacheConfig = CacheConfig(dedupWindowMs: int, maxSize: int, ttlMs: int)

  /** The two Maps of the gateway. */
  datatype State<+E> = State(cache: OrderedMap<Cached<E>>, stamps: OrderedMap<int>) {
    function SetBoth(k: string, c: Cached<E>, now: int): State<E> {
      State(cache.Set(k, c), stamps.Set(k, now))
    }

    function RemoveBoth(gone: set<string>): State<E> {
      State(cache.RemoveAll(gone), stamps.RemoveAll(gone))
    }
  }

  function EmptyState<E>(): State<E> {
    State(OrderedMap([], map[]), OrderedMap([], map[]))
  }

  /** One Kafka record reaching the handler; the clock is read once by the check and once by the cache. */
  datatype Arrival<+E> = Arrival(eventType: string, key: string, value: E, checkedAt: int, cachedAt: int) {
    function CacheKey(): string {
      eventType + ":" + key
    }

    /** `!key || key === 'undefined'` bypasses deduplication. */
    predicate Dedupable() {
      key != "" && key != "undefined"
    }
  }

  // -------------------------------------------------------------- operations

  function LastSeen<E>(s: State<E>, k: string): int {
    if s.stamps.Has(k) then s.stamps.vals[k] else 0
  }

  /** The result of `isDuplicate`. */
  predicate Suppresses<E>(cfg: CacheConfig, s: State<E>, a: Arrival<E>) {
    a.Dedupable() && s.cache.Has(a.CacheKey()) && a.checkedAt - LastSeen(s, a.CacheKey()) < cfg.dedupWindowMs
  }

  /** What `isDuplicate` leaves behind. */
  function Checked<E>(cfg: CacheConfig, s: State<E>, a: Arrival<E>): State<E> {
    if !a.Dedupable() || Suppresses(cfg, s, a) then s else s.SetBoth(a.CacheKey(), Placeholder, a.checkedAt)
  }

  function Expired<E>(cfg: CacheConfig, s: State<E>, now: int): set<string> {
    if cfg.ttlMs <= 0 then {} else set k | k in s.stamps.vals && now - s.stamps.vals[k] > cfg.ttlMs
  }

  function Evicted<E>(cfg: CacheConfig, s: State<E>, now: int): State<E> {
    s.RemoveBoth(Expired(cfg, s, now))
  }

  /** The key the size cap removes: the first one inserted. */
  function Victim<E>(cfg: CacheConfig, s: State<E>): set<string> {
    if |s.cache.keys| > cfg.maxSize && s.cache.keys != [] then {s.cache.keys[0]} else {}
  }

  /** `cacheEvent` up to the size check. */
  function Placed<E>(cfg: CacheConfig, s: State<E>, a: Arrival<E>): State<E> {
    Evicted(cfg, s, a.cachedAt).SetBoth(a.CacheKey(), Cached(a.value), a.cachedAt)
  }

  function CacheEvent<E>(cfg: CacheConfig, s: State<E>, a: Arrival<E>): State<E> {
    var placed := Placed(cfg, s, a);
    placed.RemoveBoth(Victim(cfg, placed))
  }

  /** The handler's effect on the cache. */
  function Handle<E>(cfg: CacheConfig, s: State<E>, a: Arrival<E>): State<E> {
    if Suppresses(cfg, s, a) then s else CacheEvent(cfg, Checked(cfg, s, a), a)
  }

  // --------------------------------------------------------------- reference

  /**
   * The unbounded specification: when each key was last accepted and with what
   * value. `capped` holds the keys the size cap removed since they were last
   * accepted, `now` the time of the last acceptance.
   */
  datatype History<E> = History(last: map<string, int>, values: map<string, E>, capped: set<string>, now: int)

  /** An event is a repetition when its key was accepted less than the window ago. */
  predicate Repeats<E>(cfg: CacheConfig, last: map<string, int>, a: Arrival<E>) {
    a.Dedupable() && a.CacheKey() in last && a.checkedAt - last[a.CacheKey()] < cfg.dedupWindowMs
  }

  ghost function Record<E>(cfg: CacheConfig, s: State<E>, h: History<E>, a: Arrival<E>): History<E> {
    if Suppresses(cfg, s, a) then h
    else
      var k := a.CacheKey();
      History(h.last[k := a.cachedAt], h.values[k := a.value],
              (h.capped - {k}) + Victim(cfg, Placed(cfg, Checked(cfg, s, a), a)), a.cachedAt)
  }

  /** Both Maps hold the same keys in the same order. */
  ghost predicate Aligned<E>(s: State<E>) {
    s.cache.Valid() && s.stamps.Valid() && s.cache.keys == s.stamps.keys
  }

  ghost predicate WithinSize<E>(cfg: CacheConfig, s: State<E>) {
    |s.cache.keys| <= if cfg.maxSize < 0 then 0 else cfg.maxSize
  }

  predicate Outlived(cfg: CacheConfig, stamp: int, now: int) {
    cfg.ttlMs > 0 && now - stamp > cfg.ttlMs
  }

  /** Each entry is the last accepted event of its key, not outlived, and never a placeholder. */
  ghost predicate EntryCurrent<E>(cfg: CacheConfig, s: State<E>, h: History<E>, k: string)
    requires k in s.cache.vals && k in s.stamps.vals
  {
    && k in h.last && k in h.values && k !in h.capped
    && s.stamps.vals[k] == h.last[k] && s.cache.vals[k] == Cached(h.values[k])
    && !Outlived(cfg, h.last[k], h.now)
  }

  ghost predicate Current<E>(cfg: CacheConfig, s: State<E>, h: History<E>) {
    forall k | k in s.cache.vals && k in s.stamps.vals :: EntryCurrent(cfg, s, h, k)
  }

  /** An accepted key is missing only because the cap removed it or it was outlived. */
  ghost predicate Complete<E>(cfg: CacheConfig, s: State<E>, h: History<E>) {
    forall k | k in h.last :: k in s.cache.vals || k in h.capped || Outlived(cfg, h.last[k], h.now)
  }

  ghost predicate Tracks<E>(cfg: CacheConfig, s: State<E>, h: History<E>) {
    && Aligned(s) && WithinSize(cfg, s) && Current(cfg, s, h) && Complete(cfg, s, h)
  }

  // ------------------------------------------------------------ preservation

  lemma AlignedHas<E>(s: State<E>, k: string)
    requires Aligned(s)
    ensures (k in s.cache.vals <==> k in s.stamps.vals) && (k in s.cache.vals <==> k in s.cache.keys)
  {
    assert k in s.cache.keys <==> k in s.stamps.keys;
  }

  lemma SetBothAligned<E>(s: State<E>, k: string, c: Cached<E>, now: int)
    requires Aligned(s)
    ensures Aligned(s.SetBoth(k, c, now))
    ensures |s.SetBoth(k, c, now).cache.keys| == |s.cache.keys| + (if k in s.cache.vals then 0 else 1)
  {
    AlignedHas(s, k);
    SetKeepsValid(s.cache, k, c);
    SetKeepsValid(s.stamps, k, now);
  }

  lemma RemoveBothAligned<E>(s: State<E>, gone: set<string>)
    requires Aligned(s)
    ensures Aligned(s.RemoveBoth(gone)) && |s.RemoveBoth(gone).cache.keys| <= |s.cache.keys|
  {
    RemoveKeepsValid(s.cache, gone);
    RemoveKeepsValid(s.stamps, gone);
  }

  /** The entry of another key before and after the new event is placed. */
  lemma OtherEntry<E>(cfg: CacheConfig, s: State<E>, a: Arrival<E>, x: string)
    requires Aligned(s) && x != a.CacheKey()
    ensures var p := Placed(cfg, Checked(cfg, s, a), a);
            && (x in p.cache.vals <==> x in s.cache.vals && !Outlived(cfg, s.stamps.vals[x], a.cachedAt))
            && (x in p.cache.vals ==>
                  x in p.stamps.vals && p.cache.vals[x] == s.cache.vals[x] && p.stamps.vals[x] == s.stamps.vals[x])
  {
    AlignedHas(s, x);
  }

  lemma PlacedAligned<E>(cfg: CacheConfig, s: State<E>, a: Arrival<E>)
    requires Aligned(s)
    ensures var p := Placed(cfg, Checked(cfg, s, a), a);
            && Aligned(p) && |p.cache.keys| <= |s.cache.keys| + 1
            && a.CacheKey() in p.cache.vals && a.CacheKey() in p.stamps.vals
            && p.cache.vals[a.CacheKey()] == Cached(a.value) && p.stamps.vals[a.CacheKey()] == a.cachedAt
  {
    var k := a.CacheKey();
    SetBothAligned(s, k, Placeholder, a.checkedAt);
    var c := Checked(cfg, s, a);
    var gone := Expired(cfg, c, a.cachedAt);
    RemoveBothAligned(c, gone);
    SetBothAligned(c.RemoveBoth(gone), k, Cached(a.value), a.cachedAt);
    if k in c.cache.vals && k !in s.cache.vals && k in gone {
      MarkRemoved(s, k, a.checkedAt, gone);
    }
  }

  /** A placeholder that is evicted at once leaves no trace. */
  lemma MarkRemoved<E>(s: State<E>, k: string, now: int, gone: set<string>)
    requires Aligned(s) && k !in s.cache.vals && k in gone
    ensures |s.SetBoth(k, Placeholder, now).RemoveBoth(gone).cache.keys| <= |s.cache.keys|
  {
    RemainingLast(s.cache.keys, k, gone);
    RemainingDistinct(s.cache.keys, gone);
  }

  lemma {:induction false} RemainingLast(keys: seq<string>, k: string, gone: set<string>)
    requires k in gone
    ensures Remaining(keys + [k], gone) == Remaining(keys, gone)
  {
    if keys == [] {
      assert Remaining([k], gone) == [];
    } else {
      RemainingLast(keys[1..], k, gone);
      assert (keys + [k])[1..] == keys[1..] + [k];
    }
  }

  lemma FirstRemoved<E>(p: State<E>)
    requires Aligned(p) && p.cache.keys != []
    ensures p.cache.keys == [p.cache.keys[0]] + p.RemoveBoth({p.cache.keys[0]}).cache.keys
  {
    RemainingFirst(p.cache.keys);
  }

  lemma NothingRemoved<E>(p: State<E>)
    ensures p.RemoveBoth({}) == p
  {
    RemainingNoneGone(p.cache.keys, {});
    RemainingNoneGone(p.stamps.keys, {});
    assert p.cache.vals - {} == p.cache.vals && p.stamps.vals - {} == p.stamps.vals;
  }

  /** Applying the size cap to a cache that is at most one over it. */
  lemma CapApplied<E>(cfg: CacheConfig, p: State<E>)
    requires Aligned(p) && |p.cache.keys| <= 1 + (if cfg.maxSize < 0 then 0 else cfg.maxSize)
    ensures var t := p.RemoveBoth(Victim(cfg, p));
            && Aligned(t) && WithinSize(cfg, t)
            && (Victim(cfg, p) != {} ==> p.cache.keys == [p.cache.keys[0]] + t.cache.keys)
            && (Victim(cfg, p) != {} && cfg.maxSize >= 0 ==> |t.cache.keys| == cfg.maxSize)
            && (Victim(cfg, p) == {} ==> t == p)
  {
    hide Remaining;
    RemoveBothAligned(p, Victim(cfg, p));
    if Victim(cfg, p) != {} {
      FirstRemoved(p);
      hide Aligned;
    } else {
      NothingRemoved(p);
    }
  }

  lemma NewEventStays<E>(cfg: CacheConfig, s: State<E>, a: Arrival<E>)
    requires Aligned(s) && WithinSize(cfg, s) && cfg.maxSize >= 1
    ensures a.CacheKey() !in Victim(cfg, Placed(cfg, Checked(cfg, s, a), a))
  {
    PlacedAligned(cfg, s, a);
    var p := Placed(cfg, Checked(cfg, s, a), a);
    if Victim(cfg, p) != {} {
      NewKeyIsLast(cfg, s, a);
      hide Placed, Checked;
      var n := |p.cache.keys|;
      assert n >= 2 && p.cache.keys[n - 1] == a.CacheKey();
      assert p.cache.keys[0] != p.cache.keys[n - 1];
    }
  }

  /**
   * The cap removes only the key inserted first, and only when as many other
   * keys as the cache may hold were inserted after it; the event just cached
   * stays whenever the cache may hold anything.
   */
  lemma CapRemovesOldest<E>(cfg: CacheConfig, s: State<E>, a: Arrival<E>)
    requires Aligned(s) && WithinSize(cfg, s)
    ensures var p := Placed(cfg, Checked(cfg, s, a), a);
            var t := CacheEvent(cfg, Checked(cfg, s, a), a);
            && Aligned(t) && WithinSize(cfg, t)
            && (Victim(cfg, p) != {} ==> p.cache.keys == [p.cache.keys[0]] + t.cache.keys)
            && (Victim(cfg, p) != {} && cfg.maxSize >= 0 ==> |t.cache.keys| == cfg.maxSize)
            && (Victim(cfg, p) == {} ==> t == p)
            && (cfg.maxSize >= 1 ==> a.CacheKey() in t.cache.vals)
  {
    PlacedAligned(cfg, s, a);
    if cfg.maxSize >= 1 {
      NewEventStays(cfg, s, a);
    }
    hide Placed, Checked, Aligned, Victim;
    CapApplied(cfg, Placed(cfg, Checked(cfg, s, a), a));
  }

  /** When the cache overflows, the new event's key is the one inserted last. */
  lemma NewKeyIsLast<E>(cfg: CacheConfig, s: State<E>, a: Arrival<E>)
    requires Aligned(s)
    requires |Placed(cfg, Checked(cfg, s, a), a).cache.keys| > |s.cache.keys|
    ensures var keys := Placed(cfg, Checked(cfg, s, a), a).cache.keys;
            keys == s.cache.keys + [a.CacheKey()]
  {
    var k := a.CacheKey();
    var c := Checked(cfg, s, a);
    var gone := Expired(cfg, c, a.cachedAt);
    var e := c.RemoveBoth(gone);
    AlignedHas(s, k);
    SetBothAligned(s, k, Placeholder, a.checkedAt);
    RemainingShorter(c.cache.keys, gone);
    if k in gone && k in c.cache.keys {
      if k !in s.cache.vals {
        RemainingLast(s.cache.keys, k, gone);
        RemainingShorter(s.cache.keys, gone);
      }
    }
  }

  lemma {:induction false} RemainingShorter(keys: seq<string>, gone: set<string>)
    ensures |Remaining(keys, gone)| <= |keys|
    ensures |Remaining(keys, gone)| == |keys| ==> Remaining(keys, gone) == keys
    ensures |Remaining(keys, gone)| == |keys| ==> forall k | k in keys :: k !in gone
  {
    if keys != [] {
      RemainingShorter(keys[1..], gone);
    }
  }

  /** The event's key was cached and is not outlived when expired entries are evicted, so it keeps its place. */
  predicate KeepsPlace<E>(cfg: CacheConfig, s: State<E>, a: Arrival<E>) {
    var k := a.CacheKey();
    && k in s.cache.vals && k in s.stamps.vals
    && !Outlived(cfg, if a.Dedupable() then a.checkedAt else s.stamps.vals[k], a.cachedAt)
  }

  lemma PlacedOrder<E>(cfg: CacheConfig, s: State<E>, a: Arrival<E>, x: string, y: string)
    requires Aligned(s) && !Suppresses(cfg, s, a) && x != y
    ensures var k, p := a.CacheKey(), Placed(cfg, Checked(cfg, s, a), a).cache;
            Before(p.keys, x, y) <==>
            && x in p.vals && y in p.vals
            && (if KeepsPlace(cfg, s, a) then Before(s.cache.keys, x, y)
                else y == k || (x != k && Before(s.cache.keys, x, y)))
  {
    var k, c := a.CacheKey(), Checked(cfg, s, a);
    var gone := Expired(cfg, c, a.cachedAt);
    var e := c.RemoveBoth(gone);
    var p := Placed(cfg, c, a).cache;
    PlacedAligned(cfg, s, a);
    SetBothAligned(s, k, Placeholder, a.checkedAt);
    RemoveBothAligned(c, gone);
    AlignedHas(s, k);
    AlignedHas(c, x);
    AlignedHas(c, y);
    AlignedHas(e, k);
    BeforeSnoc(s.cache.keys, k, x, y);
    BeforeRemaining(c.cache.keys, gone, x, y);
    RemainingMembers(c.cache.keys, gone, x);
    RemainingMembers(c.cache.keys, gone, y);
    BeforeSnoc(e.cache.keys, k, x, y);
    BeforeMembers(s.cache.keys, x, y);
    hide Before, Remaining;
  }

  lemma BeforeMembers(keys: seq<string>, x: string, y: string)
    ensures Before(keys, x, y) ==> x in keys && y in keys
  {}

  /**
   * The order of the cache is that of first insertion: an accepted event leaves
   * all other keys in their order, and its own key where it was if it was still
   * there, at the end otherwise.
   */
  lemma AcceptedOrder<E>(cfg: CacheConfig, s: State<E>, a: Arrival<E>, x: string, y: string)
    requires Aligned(s) && !Suppresses(cfg, s, a) && x != y
    ensures var k, t := a.CacheKey(), Handle(cfg, s, a).cache;
            Before(t.keys, x, y) <==>
            && x in t.vals && y in t.vals
            && (if KeepsPlace(cfg, s, a) then Before(s.cache.keys, x, y)
                else y == k || (x != k && Before(s.cache.keys, x, y)))
  {
    var p := Placed(cfg, Checked(cfg, s, a), a);
    PlacedOrder(cfg, s, a, x, y);
    BeforeRemaining(p.cache.keys, Victim(cfg, p), x, y);
    hide Before, Remaining, Placed, Checked, KeepsPlace, Suppresses, Victim;
  }

  /** Handling one event keeps the cache in step with the history, on a clock that does not run backwards. */
  lemma HandleTracks<E>(cfg: CacheConfig, s: State<E>, h: History<E>, a: Arrival<E>)
    requires Tracks(cfg, s, h) && h.now <= a.checkedAt <= a.cachedAt
    ensures Tracks(cfg, Handle(cfg, s, a), Record(cfg, s, h, a))
  {
    if !Suppresses(cfg, s, a) {
      var t, g := Handle(cfg, s, a), Record(cfg, s, h, a);
      CapRemovesOldest(cfg, s, a);
      forall x | x in t.cache.vals && x in t.stamps.vals
        ensures EntryCurrent(cfg, t, g, x)
      {
        AcceptedEntryCurrent(cfg, s, h, a, x);
      }
      forall x | x in g.last
        ensures x in t.cache.vals || x in g.capped || Outlived(cfg, g.last[x], g.now)
      {
        AcceptedEntryComplete(cfg, s, h, a, x);
      }
    }
  }

  /** What the cap leaves of an entry. */
  lemma KeptEntry<E>(cfg: CacheConfig, s: State<E>, a: Arrival<E>, x: string)
    requires Aligned(s) && !Suppresses(cfg, s, a)
    requires x in Handle(cfg, s, a).cache.vals && x in Handle(cfg, s, a).stamps.vals
    ensures var p, t := Placed(cfg, Checked(cfg, s, a), a), Handle(cfg, s, a);
            && x !in Victim(cfg, p) && x in p.cache.vals && x in p.stamps.vals
            && t.cache.vals[x] == p.cache.vals[x] && t.stamps.vals[x] == p.stamps.vals[x]
  {
    hide Placed, Checked, Suppresses, Remaining;
  }

  /** The new event's own entry. */
  lemma OwnEntryCurrent<E>(cfg: CacheConfig, s: State<E>, h: History<E>, a: Arrival<E>)
    requires Aligned(s) && !Suppresses(cfg, s, a)
    requires a.CacheKey() in Handle(cfg, s, a).cache.vals && a.CacheKey() in Handle(cfg, s, a).stamps.vals
    ensures EntryCurrent(cfg, Handle(cfg, s, a), Record(cfg, s, h, a), a.CacheKey())
  {
    KeptEntry(cfg, s, a, a.CacheKey());
    PlacedAligned(cfg, s, a);
    hide Placed, Checked, Suppresses, Handle, Victim, Aligned;
  }

  /** An entry the new event leaves in place. */
  lemma OtherEntryCurrent<E>(cfg: CacheConfig, s: State<E>, h: History<E>, a: Arrival<E>, x: string)
    requires Aligned(s) && Current(cfg, s, h) && !Suppresses(cfg, s, a) && x != a.CacheKey()
    requires x in Handle(cfg, s, a).cache.vals && x in Handle(cfg, s, a).stamps.vals
    ensures EntryCurrent(cfg, Handle(cfg, s, a), Record(cfg, s, h, a), x)
  {
    KeptEntry(cfg, s, a, x);
    OtherEntry(cfg, s, a, x);
    AlignedHas(s, x);
    hide Placed, Checked, Suppresses, Handle, Victim, Aligned;
    assert EntryCurrent(cfg, s, h, x);
  }

  lemma AcceptedEntryCurrent<E>(cfg: CacheConfig, s: State<E>, h: History<E>, a: Arrival<E>, x: string)
    requires Tracks(cfg, s, h) && !Suppresses(cfg, s, a)
    requires x in Handle(cfg, s, a).cache.vals && x in Handle(cfg, s, a).stamps.vals
    ensures EntryCurrent(cfg, Handle(cfg, s, a), Record(cfg, s, h, a), x)
  {
    hide Suppresses, Handle, Record, EntryCurrent, Aligned, Current;
    if x == a.CacheKey() {
      OwnEntryCurrent(cfg, s, h, a);
    } else {
      OtherEntryCurrent(cfg, s, h, a, x);
    }
  }

  lemma AcceptedEntryComplete<E>(cfg: CacheConfig, s: State<E>, h: History<E>, a: Arrival<E>, x: string)
    requires Tracks(cfg, s, h) && h.now <= a.checkedAt <= a.cachedAt && !Suppresses(cfg, s, a)
    requires x in Record(cfg, s, h, a).last
    ensures var g := Record(cfg, s, h, a);
            x in Handle(cfg, s, a).cache.vals || x in g.capped || Outlived(cfg, g.last[x], g.now)
  {
    PlacedAligned(cfg, s, a);
    if x != a.CacheKey() {
      OtherEntry(cfg, s, a, x);
      AlignedHas(s, x);
      hide Placed, Checked, Suppresses;
      if x in s.cache.vals {
        assert EntryCurrent(cfg, s, h, x);
      }
    } else {
      hide Placed, Checked, Suppresses;
    }
  }

  // -------------------------------------------------------------------- dedup

  /** Only a repetition is ever suppressed; no clock or configuration is needed for that. */
  lemma SuppressedOnlyWhenRepeated<E>(cfg: CacheConfig, s: State<E>, h: History<E>, a: Arrival<E>)
    requires Tracks(cfg, s, h)
    ensures Suppresses(cfg, s, a) ==> Repeats(cfg, h.last, a)
  {
    AlignedHas(s, a.CacheKey());
    if a.CacheKey() in s.cache.vals {
      assert EntryCurrent(cfg, s, h, a.CacheKey());
    }
  }

  /**
   * An event is suppressed exactly when it is a repetition whose key neither the
   * size cap nor the TTL has removed since it was last accepted.
   */
  lemma DedupExact<E>(cfg: CacheConfig, s: State<E>, h: History<E>, a: Arrival<E>)
    requires Tracks(cfg, s, h)
    ensures Suppresses(cfg, s, a) <==>
            Repeats(cfg, h.last, a) && a.CacheKey() !in h.capped &&
            !Outlived(cfg, h.last[a.CacheKey()], h.now)
  {
    var k := a.CacheKey();
    AlignedHas(s, k);
    if k in s.cache.vals {
      assert EntryCurrent(cfg, s, h, k);
    }
  }

  /** With no TTL, or one at least as long as the window, only the size cap makes a difference. */
  lemma DedupExactUpToCap<E>(cfg: CacheConfig, s: State<E>, h: History<E>, a: Arrival<E>)
    requires Tracks(cfg, s, h) && h.now <= a.checkedAt
    requires cfg.ttlMs <= 0 || cfg.ttlMs >= cfg.dedupWindowMs
    ensures Suppresses(cfg, s, a) <==> Repeats(cfg, h.last, a) && a.CacheKey() !in h.capped
  {
    DedupExact(cfg, s, h, a);
  }

  // --------------------------------------------------------------------- runs

  /** The clock readings of a run never go backwards. */
  ghost predicate Monotone<E>(now: int, events: seq<Arrival<E>>)
    decreases |events|
  {
    events == [] || (now <= events[0].checkedAt <= events[0].cachedAt && Monotone(events[0].cachedAt, events[1..]))
  }

  /** For each event of a run, whether the gateway's cache suppresses it. */
  ghost function Decisions<E>(cfg: CacheConfig, s: State<E>, events: seq<Arrival<E>>): (ds: seq<bool>)
    ensures |ds| == |events|
    decreases |events|
  {
    if events == [] then []
    else [Suppresses(cfg, s, events[0])] + Decisions(cfg, Handle(cfg, s, events[0]), events[1..])
  }

  /** The same for the unbounded specification, which only remembers when each key was last accepted. */
  ghost function ReferenceDecisions<E>(cfg: CacheConfig, last: map<string, int>, events: seq<Arrival<E>>)
    : (ds: seq<bool>)
    ensures |ds| == |events|
    decreases |events|
  {
    if events == [] then []
    else
      var a := events[0];
      if Repeats(cfg, last, a) then [true] + ReferenceDecisions(cfg, last, events[1..])
      else [false] + ReferenceDecisions(cfg, last[a.CacheKey() := a.cachedAt], events[1..])
  }

  ghost function KeysOf<E>(events: seq<Arrival<E>>): set<string> {
    set i | 0 <= i < |events| :: events[i].CacheKey()
  }

  /** A cache that knows only these keys never overflows. */
  lemma NoOverflow<E>(cfg: CacheConfig, s: State<E>, a: Arrival<E>, known: set<string>)
    requires Aligned(s) && s.cache.vals.Keys <= known && a.CacheKey() in known && |known| <= cfg.maxSize
    ensures Victim(cfg, Placed(cfg, Checked(cfg, s, a), a)) == {}
    ensures Handle(cfg, s, a).cache.vals.Keys <= known
  {
    PlacedAligned(cfg, s, a);
    var p := Placed(cfg, Checked(cfg, s, a), a);
    forall x | x in p.cache.vals
      ensures x in known
    {
      if x != a.CacheKey() {
        OtherEntry(cfg, s, a, x);
      }
    }
    hide Placed, Checked;
    SizeOfDistinct(p.cache.keys, known);
  }

  lemma {:induction false} SizeOfDistinct(keys: seq<string>, known: set<string>)
    requires Distinct(keys) && forall k | k in keys :: k in known
    ensures |keys| <= |known|
  {
    if keys != [] {
      assert keys[0] in known;
      assert forall k | k in keys[1..] :: k in keys && k != keys[0];
      SizeOfDistinct(keys[1..], known - {keys[0]});
    }
  }

  /** The size cap never removes the key in the course of the run. */
  ghost predicate NeverCapped<E>(cfg: CacheConfig, s: State<E>, k: string, events: seq<Arrival<E>>)
    decreases |events|
  {
    events != [] ==>
      && (Suppresses(cfg, s, events[0]) || k !in Victim(cfg, Placed(cfg, Checked(cfg, s, events[0]), events[0])))
      && NeverCapped(cfg, Handle(cfg, s, events[0]), k, events[1..])
  }

  ghost predicate SameLast(k: string, a: map<string, int>, b: map<string, int>) {
    (k in a <==> k in b) && (k in a ==> a[k] == b[k])
  }

  /** What the specification remembers after an event. */
  function Remembered<E>(cfg: CacheConfig, last: map<string, int>, a: Arrival<E>): map<string, int> {
    if Repeats(cfg, last, a) then last else last[a.CacheKey() := a.cachedAt]
  }

  /**
   * One event, seen from a key the cap leaves alone: history and specification
   * stay agreed on it, and decide alike if the event is the key's own.
   */
  lemma KeyInStep<E>(cfg: CacheConfig, s: State<E>, h: History<E>, last: map<string, int>, a: Arrival<E>, k: string)
    requires Tracks(cfg, s, h) && h.now <= a.checkedAt <= a.cachedAt
    requires cfg.ttlMs <= 0 || cfg.ttlMs >= cfg.dedupWindowMs
    requires k !in h.capped && SameLast(k, h.last, last)
    requires Suppresses(cfg, s, a) || k !in Victim(cfg, Placed(cfg, Checked(cfg, s, a), a))
    ensures a.CacheKey() == k ==> (Suppresses(cfg, s, a) <==> Repeats(cfg, last, a))
    ensures k !in Record(cfg, s, h, a).capped && SameLast(k, Record(cfg, s, h, a).last, Remembered(cfg, last, a))
  {
    DedupExactUpToCap(cfg, s, h, a);
    hide Tracks, Suppresses, Placed, Checked, Victim;
  }

  /** Cache, history and specification at the start of a run that leaves the key alone. */
  ghost predicate InStep<E>(cfg: CacheConfig, s: State<E>, h: History<E>, last: map<string, int>,
                            events: seq<Arrival<E>>, k: string)
  {
    && Tracks(cfg, s, h) && Monotone(h.now, events) && NeverCapped(cfg, s, k, events)
    && k !in h.capped && SameLast(k, h.last, last)
  }

  lemma StaysInStep<E>(cfg: CacheConfig, s: State<E>, h: History<E>, last: map<string, int>,
                       events: seq<Arrival<E>>, k: string)
    requires events != [] && InStep(cfg, s, h, last, events, k)
    requires cfg.ttlMs <= 0 || cfg.ttlMs >= cfg.dedupWindowMs
    ensures var a := events[0];
            && InStep(cfg, Handle(cfg, s, a), Record(cfg, s, h, a), Remembered(cfg, last, a), events[1..], k)
            && (a.CacheKey() == k ==> (Suppresses(cfg, s, a) <==> Repeats(cfg, last, a)))
  {
    var a := events[0];
    KeyInStep(cfg, s, h, last, a, k);
    HandleTracks(cfg, s, h, a);
    RecordNow(cfg, s, h, a);
    MonotoneWeaker(Record(cfg, s, h, a).now, a.cachedAt, events[1..]);
    hide Suppresses, Repeats, Tracks, Handle, Record, Placed, Checked, Victim, SameLast, Remembered;
  }

  /**
   * Over a whole run, for a key the cap never removes, whatever other keys it
   * evicts: at each of that key's events the bounded cache decides as the
   * unbounded specification, which goes by its own decisions.
   */
  lemma {:induction false} DecisionsAgreeOnKey<E>(cfg: CacheConfig, s: State<E>, h: History<E>, last: map<string, int>,
                                                  events: seq<Arrival<E>>, k: string, i: nat)
    requires InStep(cfg, s, h, last, events, k)
    requires cfg.ttlMs <= 0 || cfg.ttlMs >= cfg.dedupWindowMs
    requires i < |events| && events[i].CacheKey() == k
    ensures Decisions(cfg, s, events)[i] == ReferenceDecisions(cfg, last, events)[i]
    decreases |events|
  {
    hide *;
    var a := events[0];
    StaysInStep(cfg, s, h, last, events, k);
    DecisionsAt(cfg, s, last, events, i);
    if i > 0 {
      DecisionsAgreeOnKey(cfg, Handle(cfg, s, a), Record(cfg, s, h, a), Remembered(cfg, last, a), events[1..], k, i - 1);
    }
  }

  /** The first decision of a run, or one of the rest of the run. */
  lemma DecisionsAt<E>(cfg: CacheConfig, s: State<E>, last: map<string, int>, events: seq<Arrival<E>>, i: nat)
    requires i < |events|
    ensures var a, rest := events[0], events[1..];
            && Decisions(cfg, s, events)[i] ==
               (if i == 0 then Suppresses(cfg, s, a) else Decisions(cfg, Handle(cfg, s, a), rest)[i - 1])
            && ReferenceDecisions(cfg, last, events)[i] ==
               (if i == 0 then Repeats(cfg, last, a) else ReferenceDecisions(cfg, Remembered(cfg, last, a), rest)[i - 1])
            && (i > 0 ==> rest[i - 1] == events[i])
  {
    hide Suppresses, Handle, Repeats;
  }

  lemma RecordNow<E>(cfg: CacheConfig, s: State<E>, h: History<E>, a: Arrival<E>)
    requires h.now <= a.checkedAt <= a.cachedAt
    ensures Record(cfg, s, h, a).now <= a.cachedAt
  {
    hide Suppresses, Placed, Checked, Victim;
  }

  /** With no more different keys than the cache may hold, no key is ever capped. */
  lemma {:induction false} FewKeysNeverCapped<E>(cfg: CacheConfig, s: State<E>, events: seq<Arrival<E>>,
                                                 known: set<string>, k: string)
    requires Aligned(s) && s.cache.vals.Keys + KeysOf(events) <= known && |known| <= cfg.maxSize
    requires WithinSize(cfg, s)
    ensures NeverCapped(cfg, s, k, events)
    decreases |events|
  {
    if events != [] {
      var a := events[0];
      assert a.CacheKey() in KeysOf(events);
      assert KeysOf(events[1..]) <= KeysOf(events);
      NoOverflow(cfg, s, a, known);
      HandleAligned(cfg, s, a);
      hide Suppresses, Handle, Placed, Checked, KeysOf, Victim, Aligned;
      FewKeysNeverCapped(cfg, Handle(cfg, s, a), events[1..], known, k);
    }
  }

  lemma HandleAligned<E>(cfg: CacheConfig, s: State<E>, a: Arrival<E>)
    requires Aligned(s) && WithinSize(cfg, s)
    ensures Aligned(Handle(cfg, s, a)) && WithinSize(cfg, Handle(cfg, s, a))
  {
    CapRemovesOldest(cfg, s, a);
    hide CacheEvent, Checked, Placed, Victim, Aligned, WithinSize;
  }

  /**
   * Over a whole run in which no more different keys occur than the cache may
   * hold, the bounded cache decides every event as the unbounded specification.
   */
  lemma DecisionsAgree<E>(cfg: CacheConfig, s: State<E>, h: History<E>, events: seq<Arrival<E>>, known: set<string>)
    requires Tracks(cfg, s, h) && h.capped == {} && Monotone(h.now, events)
    requires cfg.ttlMs <= 0 || cfg.ttlMs >= cfg.dedupWindowMs
    requires s.cache.vals.Keys + KeysOf(events) <= known && |known| <= cfg.maxSize
    ensures Decisions(cfg, s, events) == ReferenceDecisions(cfg, h.last, events)
  {
    hide *;
    forall i | 0 <= i < |events|
      ensures Decisions(cfg, s, events)[i] == ReferenceDecisions(cfg, h.last, events)[i]
    {
      FewKeysAgree(cfg, s, h, events, known, i);
    }
  }

  lemma FewKeysAgree<E>(cfg: CacheConfig, s: State<E>, h: History<E>, events: seq<Arrival<E>>, known: set<string>, i: nat)
    requires Tracks(cfg, s, h) && h.capped == {} && Monotone(h.now, events)
    requires cfg.ttlMs <= 0 || cfg.ttlMs >= cfg.dedupWindowMs
    requires s.cache.vals.Keys + KeysOf(events) <= known && |known| <= cfg.maxSize && i < |events|
    ensures Decisions(cfg, s, events)[i] == ReferenceDecisions(cfg, h.last, events)[i]
  {
    hide Decisions, ReferenceDecisions, NeverCapped, KeysOf, Monotone, Current, Complete, Aligned, WithinSize;
    FewKeysNeverCapped(cfg, s, events, known, events[i].CacheKey());
    hide Tracks;
    DecisionsAgreeOnKey(cfg, s, h, h.last, events, events[i].CacheKey(), i);
  }

  lemma MonotoneWeaker<E>(earlier: int, later: int, events: seq<Arrival<E>>)
    requires earlier <= later && Monotone(later, events)
    ensures Monotone(earlier, events)
  {}

  ghost function RunCache<E>(cfg: CacheConfig, s: State<E>, events: seq<Arrival<E>>): State<E>
    decreases |events|
  {
    if events == [] then s else RunCache(cfg, Handle(cfg, s, events[0]), events[1..])
  }

  ghost function RunHistory<E>(cfg: CacheConfig, s: State<E>, h: History<E>, events: seq<Arrival<E>>): History<E>
    decreases |events|
  {
    if events == [] then h
    else RunHistory(cfg, Handle(cfg, s, events[0]), Record(cfg, s, h, events[0]), events[1..])
  }

  lemma {:induction false} RunTracks<E>(cfg: CacheConfig, s: State<E>, h: History<E>, events: seq<Arrival<E>>)
    requires Tracks(cfg, s, h) && Monotone(h.now, events)
    ensures Tracks(cfg, RunCache(cfg, s, events), RunHistory(cfg, s, h, events))
    decreases |events|
  {
    if events != [] {
      var a := events[0];
      HandleTracks(cfg, s, h, a);
      hide Suppresses, Tracks, Handle, Placed, Checked, Victim;
      MonotoneWeaker(h.now, a.cachedAt, events[1..]);
      RunTracks(cfg, Handle(cfg, s, a), Record(cfg, s, h, a), events[1..]);
    }
  }

  /** The cache of a gateway that has just started, whatever the clock says. */
  lemma EmptyTracks<E>(cfg: CacheConfig, now: int)
    ensures Tracks(cfg, EmptyState<E>(), History(map[], map[], {}, now))
  {}

  /** The decision on an event is taken with the cache that the events before it left. */
  lemma {:induction false} DecisionAt<E>(cfg: CacheConfig, s: State<E>, events: seq<Arrival<E>>, n: nat)
    requires n < |events|
    ensures Decisions(cfg, s, events)[n] == Suppresses(cfg, RunCache(cfg, s, events[..n]), events[n])
    decreases n
  {
    hide Suppresses, Handle;
    if n > 0 {
      assert events[..n][0] == events[0] && events[..n][1..] == events[1..][..n - 1] && events[1..][n - 1] == events[n];
      DecisionAt(cfg, Handle(cfg, s, events[0]), events[1..], n - 1);
    }
  }

  /** The last event of the key that was not suppressed. */
  ghost predicate LastAccepted<E>(events: seq<Arrival<E>>, decisions: seq<bool>, k: string, i: nat)
    requires |decisions| == |events|
  {
    && i < |events| && events[i].CacheKey() == k && !decisions[i]
    && forall j | i < j < |events| :: events[j].CacheKey() == k ==> decisions[j]
  }

  ghost predicate NoneAccepted<E>(events: seq<Arrival<E>>, decisions: seq<bool>, k: string)
    requires |decisions| == |events|
  {
    forall i | 0 <= i < |events| :: events[i].CacheKey() == k ==> decisions[i]
  }

  ghost predicate Recorded<E>(h: History<E>, k: string, a: Arrival<E>) {
    k in h.last && h.last[k] == a.cachedAt && k in h.values && h.values[k] == a.value
  }

  ghost predicate SameRecord<E>(h: History<E>, before: History<E>, k: string) {
    && (k in h.last <==> k in before.last) && (k in h.last ==> h.last[k] == before.last[k])
    && (k in h.values <==> k in before.values) && (k in h.values ==> h.values[k] == before.values[k])
  }

  lemma RecordOf<E>(cfg: CacheConfig, s: State<E>, h: History<E>, a: Arrival<E>, k: string)
    ensures var g := Record(cfg, s, h, a);
            if a.CacheKey() == k && !Suppresses(cfg, s, a) then Recorded(g, k, a) else SameRecord(g, h, k)
  {
    hide Suppresses, Placed, Checked, Victim;
  }

  /** `last` is the key's last accepted event, and what the history records; or there is none, and nothing changed. */
  ghost predicate Tells<E>(events: seq<Arrival<E>>, decisions: seq<bool>, before: History<E>, after: History<E>,
                           k: string, last: Option<nat>)
    requires |decisions| == |events|
  {
    if last.Some? then LastAccepted(events, decisions, k, last.value) && Recorded(after, k, events[last.value])
    else NoneAccepted(events, decisions, k) && SameRecord(after, before, k)
  }

  /** The history of a run holds, for each key, the last event of the run that was not suppressed. */
  lemma {:induction false} HistoryExact<E>(cfg: CacheConfig, s: State<E>, h: History<E>, events: seq<Arrival<E>>,
                                           k: string)
    returns (last: Option<nat>)
    ensures Tells(events, Decisions(cfg, s, events), h, RunHistory(cfg, s, h, events), k, last)
    decreases |events|
  {
    if events == [] {
      last := None;
      return;
    }
    var a, rest := events[0], events[1..];
    HistoryStep(cfg, s, h, events);
    RecordOf(cfg, s, h, a, k);
    hide *;
    var more := HistoryExact(cfg, Handle(cfg, s, a), Record(cfg, s, h, a), rest, k);
    last := TellsFirst(a, rest, Suppresses(cfg, s, a), Decisions(cfg, Handle(cfg, s, a), rest),
                       h, Record(cfg, s, h, a), RunHistory(cfg, s, h, events), k, more);
  }

  lemma TellsFirst<E>(a: Arrival<E>, rest: seq<Arrival<E>>, d: bool, later: seq<bool>,
                      h: History<E>, g: History<E>, t: History<E>, k: string, more: Option<nat>)
    returns (last: Option<nat>)
    requires |later| == |rest| && Tells(rest, later, g, t, k, more)
    requires if a.CacheKey() == k && !d then Recorded(g, k, a) else SameRecord(g, h, k)
    ensures Tells([a] + rest, [d] + later, h, t, k, last)
  {
    hide LastAccepted, NoneAccepted, Recorded, SameRecord;
    if more.Some? {
      last := Some(more.value + 1);
      LaterAccepted(a, rest, d, later, k, more.value);
    } else if a.CacheKey() == k && !d {
      last := Some(0);
      FirstAccepted(a, rest, d, later, k);
      RecordedThen(t, g, k, a);
    } else {
      last := None;
      StillNone(a, rest, d, later, k);
      SameTwice(t, g, h, k);
    }
  }

  lemma HistoryStep<E>(cfg: CacheConfig, s: State<E>, h: History<E>, events: seq<Arrival<E>>)
    requires events != []
    ensures var a, rest := events[0], events[1..];
            && events == [a] + rest
            && Decisions(cfg, s, events) == [Suppresses(cfg, s, a)] + Decisions(cfg, Handle(cfg, s, a), rest)
            && RunHistory(cfg, s, h, events) == RunHistory(cfg, Handle(cfg, s, a), Record(cfg, s, h, a), rest)
  {
    hide Suppresses, Handle, Record;
  }

  lemma LaterAccepted<E>(a: Arrival<E>, rest: seq<Arrival<E>>, d: bool, later: seq<bool>, k: string, i: nat)
    requires |later| == |rest| && LastAccepted(rest, later, k, i)
    ensures LastAccepted([a] + rest, [d] + later, k, i + 1) && ([a] + rest)[i + 1] == rest[i]
  {
    var events, ds := [a] + rest, [d] + later;
    assert forall j | 0 < j < |events| :: events[j] == rest[j - 1] && ds[j] == later[j - 1];
  }

  lemma FirstAccepted<E>(a: Arrival<E>, rest: seq<Arrival<E>>, d: bool, later: seq<bool>, k: string)
    requires |later| == |rest| && NoneAccepted(rest, later, k) && a.CacheKey() == k && !d
    ensures LastAccepted([a] + rest, [d] + later, k, 0)
  {
    var events, ds := [a] + rest, [d] + later;
    assert forall j | 0 < j < |events| :: events[j] == rest[j - 1] && ds[j] == later[j - 1];
  }

  lemma StillNone<E>(a: Arrival<E>, rest: seq<Arrival<E>>, d: bool, later: seq<bool>, k: string)
    requires |later| == |rest| && NoneAccepted(rest, later, k) && (a.CacheKey() == k ==> d)
    ensures NoneAccepted([a] + rest, [d] + later, k)
  {
    var events, ds := [a] + rest, [d] + later;
    assert forall j | 0 < j < |events| :: events[j] == rest[j - 1] && ds[j] == later[j - 1];
  }

  lemma RecordedThen<E>(t: History<E>, g: History<E>, k: string, a: Arrival<E>)
    requires SameRecord(t, g, k) && Recorded(g, k, a)
    ensures Recorded(t, k, a)
  {}

  lemma SameTwice<E>(t: History<E>, g: History<E>, h: History<E>, k: string)
    requires SameRecord(t, g, k) && SameRecord(g, h, k)
    ensures SameRecord(t, h, k)
  {}
}
