/** The fault-episode scheduler of services/telemetry-gen/main.go. Times are nanoseconds. */
module FaultScheduler {
  const SECOND: int := 1_000_000_000

  datatype Schedule = Schedule(ends: map<string, int>, nextPick: int)

  /** One tick: the clock and the three random draws it may use. */
  datatype Tick = Tick(now: int, index: nat, episode: nat, gap: nat)

  predicate Draws(apps: seq<string>, t: Tick) {
    t.index < |apps| && t.episode < 90 && t.gap < 150
  }

  function Start(now: int): Schedule {
    Schedule(map[], now + 60 * SECOND)
  }

  /** Episodes that have not ended yet. */
  function Pruned(ends: map<string, int>, now: int): map<string, int> {
    map id | id in ends && now < ends[id] :: ends[id]
  }

  function OnTick(apps: seq<string>, s: Schedule, t: Tick): Schedule
    requires Draws(apps, t)
  {
    var ends := Pruned(s.ends, t.now);
    if t.now > s.nextPick then
      var id := apps[t.index];
      Schedule(if id in ends then ends else ends[id := t.now + (60 + t.episode) * SECOND],
               t.now + (150 + t.gap) * SECOND)
    else Schedule(ends, s.nextPick)
  }

  function InAnomaly(s: Schedule, id: string, now: int): bool {
    id in s.ends && now < s.ends[id]
  }

  ghost function Run(apps: seq<string>, s: Schedule, ticks: seq<Tick>): Schedule
    requires forall i | 0 <= i < |ticks| :: Draws(apps, ticks[i])
    decreases |ticks|
  {
    if ticks == [] then s else Run(apps, OnTick(apps, s, ticks[0]), ticks[1..])
  }

  /** At most one episode is on record, and it ends more than a second before the next pick. */
  ghost predicate OneEpisode(s: Schedule) {
    && (forall a, b | a in s.ends && b in s.ends :: a == b)
    && forall a | a in s.ends :: s.ends[a] + SECOND <= s.nextPick
  }

  /** A pick always finds every episode over, so the check for an active one never holds it back. */
  lemma PickAlwaysStarts(apps: seq<string>, s: Schedule, t: Tick)
    requires OneEpisode(s) && Draws(apps, t) && t.now > s.nextPick
    ensures Pruned(s.ends, t.now) == map[]
    ensures OnTick(apps, s, t).ends == map[apps[t.index] := t.now + (60 + t.episode) * SECOND]
  {}

  lemma TickKeeps(apps: seq<string>, s: Schedule, t: Tick)
    requires OneEpisode(s) && Draws(apps, t)
    ensures OneEpisode(OnTick(apps, s, t))
  {
    if t.now > s.nextPick {
      PickAlwaysStarts(apps, s, t);
    }
  }

  /** For every run of ticks and every random choice, whatever the clock does, at most one service is faulty. */
  lemma {:induction false} AtMostOneFault(apps: seq<string>, start: int, ticks: seq<Tick>, now: int)
    requires forall i | 0 <= i < |ticks| :: Draws(apps, ticks[i])
    ensures var s := Run(apps, Start(start), ticks);
            forall a, b :: InAnomaly(s, a, now) && InAnomaly(s, b, now) ==> a == b
  {
    RunKeeps(apps, Start(start), ticks);
  }

  lemma {:induction false} RunKeeps(apps: seq<string>, s: Schedule, ticks: seq<Tick>)
    requires OneEpisode(s) && forall i | 0 <= i < |ticks| :: Draws(apps, ticks[i])
    ensures OneEpisode(Run(apps, s, ticks))
    decreases |ticks|
  {
    if ticks != [] {
      TickKeeps(apps, s, ticks[0]);
      RunKeeps(apps, OnTick(apps, s, ticks[0]), ticks[1..]);
    }
  }

  /**
   * What a tick does to the episodes: one that has not ended keeps its end, one
   * that has is gone, and only a tick after the pick time adds one, for the drawn
   * service and 60 to 149 seconds.
   */
  lemma TickEpisodes(apps: seq<string>, s: Schedule, t: Tick, id: string)
    requires Draws(apps, t)
    ensures var after := OnTick(apps, s, t);
            && (id in s.ends && t.now < s.ends[id] ==> id in after.ends && after.ends[id] == s.ends[id])
            && (id in after.ends && !(id in s.ends && t.now < s.ends[id]) ==>
                  && t.now > s.nextPick && id == apps[t.index]
                  && 60_000_000_000 <= after.ends[id] - t.now <= 149_000_000_000)
            && (t.now > s.nextPick ==> apps[t.index] in after.ends)
  {}

  /** The pick time moves by 150 to 299 seconds at a pick and stays otherwise. */
  lemma TickPicks(apps: seq<string>, s: Schedule, t: Tick)
    requires Draws(apps, t)
    ensures var next := OnTick(apps, s, t).nextPick;
            if t.now > s.nextPick then 150_000_000_000 <= next - t.now <= 299_000_000_000 else next == s.nextPick
  {}

  lemma {:induction false} RunSplit(apps: seq<string>, s: Schedule, a: seq<Tick>, b: seq<Tick>)
    requires forall i | 0 <= i < |a| :: Draws(apps, a[i])
    requires forall i | 0 <= i < |b| :: Draws(apps, b[i])
    ensures (forall i | 0 <= i < |a + b| :: Draws(apps, (a + b)[i])) &&
            Run(apps, s, a + b) == Run(apps, Run(apps, s, a), b)
    decreases |a|
  {
    if a == [] {
      assert a + b == b;
    } else {
      assert (a + b)[0] == a[0] && (a + b)[1..] == a[1..] + b;
      RunSplit(apps, OnTick(apps, s, a[0]), a[1..], b);
    }
  }

  /** An episode outlasts every tick before its end. */
  lemma {:induction false} EpisodeOutlasts(apps: seq<string>, s: Schedule, ticks: seq<Tick>, id: string)
    requires id in s.ends
    requires forall i | 0 <= i < |ticks| :: Draws(apps, ticks[i]) && ticks[i].now < s.ends[id]
    ensures var ends := Run(apps, s, ticks).ends;
            id in ends && ends[id] == s.ends[id]
    decreases |ticks|
  {
    if ticks != [] {
      TickEpisodes(apps, s, ticks[0], id);
      EpisodeOutlasts(apps, OnTick(apps, s, ticks[0]), ticks[1..], id);
    }
  }

  /**
   * Over every run: the drawn service of a pick is reported faulty until 60 seconds
   * and the drawn extra have passed, whatever ticks come before its end.
   */
  lemma EpisodeLastsAsDrawn(apps: seq<string>, start: int, before: seq<Tick>, pick: Tick, after: seq<Tick>, now: int)
    requires forall i | 0 <= i < |before| :: Draws(apps, before[i])
    requires Draws(apps, pick) && pick.now > Run(apps, Start(start), before).nextPick
    requires forall i | 0 <= i < |after| ::
               Draws(apps, after[i]) && after[i].now < pick.now + (60 + pick.episode) * 1_000_000_000
    ensures var ticks := before + [pick] + after;
            && (forall i | 0 <= i < |ticks| :: Draws(apps, ticks[i]))
            && (InAnomaly(Run(apps, Start(start), ticks), apps[pick.index], now) <==>
                now < pick.now + (60 + pick.episode) * 1_000_000_000)
  {
    var s := Run(apps, Start(start), before);
    RunKeeps(apps, Start(start), before);
    PickAlwaysStarts(apps, s, pick);
    var t := OnTick(apps, s, pick);
    EpisodeOutlasts(apps, t, after, apps[pick.index]);
    RunSplit(apps, Start(start), before, [pick]);
    RunSplit(apps, Start(start), before + [pick], after);
    assert Run(apps, s, [pick]) == t by {
      assert [pick][1..] == [];
      assert Run(apps, t, []) == t;
    }
  }

  /** In the first minute no service is faulty. */
  lemma {:induction false} QuietStart(apps: seq<string>, start: int, ticks: seq<Tick>)
    requires forall i | 0 <= i < |ticks| :: Draws(apps, ticks[i]) && ticks[i].now <= start + 60_000_000_000
    ensures Run(apps, Start(start), ticks) == Start(start)
    ensures forall id, now :: !InAnomaly(Run(apps, Start(start), ticks), id, now)
    decreases |ticks|
  {
    if ticks != [] {
      assert OnTick(apps, Start(start), ticks[0]) == Start(start);
      QuietStart(apps, start, ticks[1..]);
    }
  }

  class Engine {
    const apps: seq<string>
    const anomalies: bool
    var anomalyEnds: map<string, int>
    var nextPick: int

    constructor (apps: seq<string>, anomalies: bool, now: int)
      ensures this.apps == apps && this.anomalies == anomalies
      ensures Schedule(anomalyEnds, nextPick) == Start(now)
    {
      this.apps, this.anomalies := apps, anomalies;
      anomalyEnds, nextPick := map[], now + 60 * SECOND;
    }

    method PruneExpired(now: int)
      modifies `anomalyEnds
      ensures anomalyEnds == Pruned(old(anomalyEnds), now)
    {
      var ids := anomalyEnds.Keys;
      while ids != {}
        invariant ids <= old(anomalyEnds).Keys
        invariant anomalyEnds == map id | id in old(anomalyEnds) && (id in ids || now < old(anomalyEnds)[id])
                                 :: old(anomalyEnds)[id]
        decreases |ids|
      {
        var id :| id in ids;
        ids := ids - {id};
        if now >= anomalyEnds[id] {
          anomalyEnds := anomalyEnds - {id};
        }
      }
    }

    method ReportsAnomaly(id: string, now: int) returns (faulty: bool)
      ensures faulty == InAnomaly(Schedule(anomalyEnds, nextPick), id, now)
    {
      faulty := id in anomalyEnds && now < anomalyEnds[id];
    }

    /** The body of the scheduler's loop; the draws are taken only when a pick is due. */
    method SchedulerTick(t: Tick)
      requires Draws(apps, t)
      modifies this
      ensures Schedule(anomalyEnds, nextPick) ==
              if anomalies then OnTick(apps, old(Schedule(anomalyEnds, nextPick)), t)
              else old(Schedule(anomalyEnds, nextPick))
    {
      if !anomalies {
        return;
      }
      PruneExpired(t.now);
      if t.now > nextPick {
        var svc := apps[t.index];
        if svc !in anomalyEnds {
          anomalyEnds := anomalyEnds[svc := t.now + (60 + t.episode) * SECOND];
        }
        nextPick := t.now + (150 + t.gap) * SECOND;
      }
    }

    /** The ticks of an engine, one after the other. */
    method SchedulerTicks(ticks: seq<Tick>)
      requires forall i | 0 <= i < |ticks| :: Draws(apps, ticks[i])
      modifies this
      ensures Schedule(anomalyEnds, nextPick) ==
              if anomalies then Run(apps, old(Schedule(anomalyEnds, nextPick)), ticks)
              else old(Schedule(anomalyEnds, nextPick))
    {
      assert ticks[0..] == ticks;
      for i := 0 to |ticks|
        invariant anomalies ==> Run(apps, Schedule(anomalyEnds, nextPick), ticks[i..]) ==
                                Run(apps, old(Schedule(anomalyEnds, nextPick)), ticks)
        invariant !anomalies ==> Schedule(anomalyEnds, nextPick) == old(Schedule(anomalyEnds, nextPick))
      {
        hide OnTick;
        assert ticks[i..][0] == ticks[i] && ticks[i..][1..] == ticks[i + 1..];
        SchedulerTick(ticks[i]);
      }
    }
  }
}
