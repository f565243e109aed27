/** The per-socket message limiter of services/realtime/src/index.js. */
module RateLimiter {
  import Sequences

  const WINDOW_MS := 60000
  const MAX_EVENTS := 120

  /** `filter((ts) => now - ts < rateLimitWindowMs)`. */
  function Recent(stamps: seq<int>, now: int): (r: seq<int>)
    ensures |r| <= |stamps|
  {
    if stamps == [] then []
    else if now - stamps[0] < WINDOW_MS then [stamps[0]] + Recent(stamps[1..], now)
    else Recent(stamps[1..], now)
  }

  /** One event: whether it passes, and the timestamps kept. */
  function OnEvent(stamps: seq<int>, now: int): (bool, seq<int>) {
    var recent := Recent(stamps, now);
    if |recent| >= MAX_EVENTS then (false, recent) else (true, recent + [now])
  }

  /** A run of events: which pass, and the timestamps kept at the end. */
  function OnEvents(stamps: seq<int>, times: seq<int>): (r: (seq<bool>, seq<int>))
    ensures |r.0| == |times|
    decreases |times|
  {
    if times == [] then ([], stamps)
    else
      var (passed, kept) := OnEvent(stamps, times[0]);
      var (decisions, last) := OnEvents(kept, times[1..]);
      ([passed] + decisions, last)
  }

  lemma {:induction false} RecentSnoc(stamps: seq<int>, t: int, now: int)
    ensures Recent(stamps + [t], now) == Recent(stamps, now) + if now - t < WINDOW_MS then [t] else []
  {
    if stamps != [] {
      assert (stamps + [t])[1..] == stamps[1..] + [t];
      RecentSnoc(stamps[1..], t, now);
    }
  }

  lemma {:induction false} RecentMembers(stamps: seq<int>, now: int, t: int)
    ensures t in Recent(stamps, now) <==> t in stamps && now - t < 60_000
  {
    if stamps != [] {
      RecentMembers(stamps[1..], now, t);
      assert t in stamps <==> t == stamps[0] || t in stamps[1..];
    }
  }

  /** On any clock, what is kept after an event is what was less than a minute old, and the event itself if it passed. */
  lemma KeptExactly(stamps: seq<int>, now: int, t: int)
    ensures var (passed, kept) := OnEvent(stamps, now);
            t in kept <==> (t in stamps && now - t < 60_000) || (passed && t == now)
  {
    RecentMembers(stamps, now, t);
  }

  class SocketLimiter {
    var socketEventTimestamps: seq<int>

    constructor ()
      ensures socketEventTimestamps == []
    {
      socketEventTimestamps := [];
    }

    method Use(now: int) returns (passed: bool)
      modifies this
      ensures (passed, socketEventTimestamps) == OnEvent(old(socketEventTimestamps), now)
    {
      var stamps, recent := socketEventTimestamps, [];
      for i := 0 to |stamps|
        invariant socketEventTimestamps == stamps && recent == Recent(stamps[..i], now)
      {
        RecentSnoc(stamps[..i], stamps[i], now);
        assert stamps[..i + 1] == stamps[..i] + [stamps[i]];
        if now - stamps[i] < WINDOW_MS {
          recent := recent + [stamps[i]];
        }
      }
      assert stamps[..|stamps|] == stamps;
      socketEventTimestamps := recent;
      if |socketEventTimestamps| >= MAX_EVENTS {
        return false;
      }
      socketEventTimestamps := socketEventTimestamps + [now];
      passed := true;
    }

    /** The events a connected socket sends, one after the other. */
    method UseAll(times: seq<int>) returns (decisions: seq<bool>)
      modifies this
      ensures (decisions, socketEventTimestamps) == OnEvents(old(socketEventTimestamps), times)
    {
      decisions := [];
      assert times[0..] == times;
      for i := 0 to |times|
        invariant decisions + OnEvents(socketEventTimestamps, times[i..]).0 ==
                  OnEvents(old(socketEventTimestamps), times).0
        invariant OnEvents(socketEventTimestamps, times[i..]).1 == OnEvents(old(socketEventTimestamps), times).1
      {
        hide OnEvent;
        assert times[i..][0] == times[i] && times[i..][1..] == times[i + 1..];
        var passed := Use(times[i]);
        decisions := decisions + [passed];
      }
      assert decisions + [] == decisions;
    }
  }

  // --------------------------------------------------------------------- runs

  ghost predicate Nondecreasing(ts: seq<int>) {
    forall i, j | 0 <= i <= j < |ts| :: ts[i] <= ts[j]
  }

  /** The times of the events that passed. */
  ghost function Accepted(times: seq<int>, decisions: seq<bool>): seq<int>
    requires |times| == |decisions|
  {
    if times == [] then []
    else (if decisions[0] then [times[0]] else []) + Accepted(times[1..], decisions[1..])
  }

  /** The limit as promised: fewer than 120 accepted events in the last minute. */
  ghost predicate WithinLimit(history: seq<int>, now: int) {
    |history| >= 120 ==> now - history[|history| - 120] >= 60_000
  }

  /** Any 121 accepted events in a row span a minute. */
  ghost predicate Spaced(history: seq<int>) {
    forall i | 0 <= i < |history| - 120 :: history[i + 120] - history[i] >= 60_000
  }

  /** The kept timestamps are the end of the history; what was dropped is a window old. */
  ghost predicate Remembers(history: seq<int>, stamps: seq<int>, last: int) {
    && Nondecreasing(history) && Spaced(history)
    && |stamps| <= |history| && stamps == history[|history| - |stamps|..]
    && (forall i | 0 <= i < |history| :: history[i] <= last)
    && (forall i | 0 <= i < |history| - |stamps| :: last - history[i] >= WINDOW_MS)
  }

  lemma {:induction false} RecentKeepsAll(stamps: seq<int>, now: int)
    requires forall i | 0 <= i < |stamps| :: now - stamps[i] < WINDOW_MS
    ensures Recent(stamps, now) == stamps
  {
    if stamps != [] {
      RecentKeepsAll(stamps[1..], now);
      assert stamps == [stamps[0]] + stamps[1..];
    }
  }

  /** Filtering a chronological list keeps its end. */
  lemma {:induction false} RecentIsSuffix(stamps: seq<int>, now: int)
    requires Nondecreasing(stamps)
    ensures var r := Recent(stamps, now);
            var k := |stamps| - |r|;
            && r == stamps[k..]
            && (forall i | 0 <= i < k :: now - stamps[i] >= WINDOW_MS)
            && (forall i | k <= i < |stamps| :: now - stamps[i] < WINDOW_MS)
  {
    if stamps != [] {
      if now - stamps[0] < WINDOW_MS {
        RecentKeepsAll(stamps, now);
      } else {
        RecentIsSuffix(stamps[1..], now);
        assert forall i | 0 < i < |stamps| :: stamps[i] == stamps[1..][i - 1];
      }
    }
  }

  /**
   * On a clock that does not run backwards an event is rejected exactly when the
   * 120th last accepted one is less than a window ago.
   */
  lemma RejectedExactly(history: seq<int>, stamps: seq<int>, last: int, now: int)
    requires Remembers(history, stamps, last) && last <= now
    ensures OnEvent(stamps, now).0 <==> WithinLimit(history, now)
  {
    RecentIsSuffix(stamps, now);
    assert forall i | 0 <= i < |stamps| :: stamps[i] == history[|history| - |stamps| + i];
  }

  /** Filtering forgets only what is a window old. */
  lemma FilterKeeps(history: seq<int>, stamps: seq<int>, last: int, now: int)
    requires Remembers(history, stamps, last) && last <= now
    ensures Remembers(history, Recent(stamps, now), now)
  {
    RecentIsSuffix(stamps, now);
    var shift, recent := |history| - |stamps|, Recent(stamps, now);
    assert recent == history[|history| - |recent|..];
    forall i | 0 <= i < |history| - |recent|
      ensures now - history[i] >= WINDOW_MS
    {
      if i >= shift {
        assert history[i] == stamps[i - shift];
      }
    }
  }

  lemma AppendKeeps(history: seq<int>, recent: seq<int>, now: int)
    requires Remembers(history, recent, now) && |recent| < MAX_EVENTS
    ensures Remembers(history + [now], recent + [now], now)
  {
    var longer := history + [now];
    assert longer[|history| - |recent|..] == recent + [now];
    SpacedLonger(history, now);
    hide Spaced;
  }

  lemma SpacedLonger(history: seq<int>, now: int)
    requires Spaced(history) && (|history| >= 120 ==> now - history[|history| - 120] >= 60_000)
    ensures Spaced(history + [now])
  {
    var longer := history + [now];
    forall i | 0 <= i < |longer| - 120
      ensures longer[i + 120] - longer[i] >= 60_000
    {
      if i + 120 < |history| {
        assert history[i + 120] - history[i] >= 60_000;
      }
    }
  }

  lemma EventKeeps(history: seq<int>, stamps: seq<int>, last: int, now: int)
    requires Remembers(history, stamps, last) && last <= now
    ensures var (passed, kept) := OnEvent(stamps, now);
            Remembers(if passed then history + [now] else history, kept, now)
  {
    FilterKeeps(history, stamps, last, now);
    hide Remembers;
    if |Recent(stamps, now)| < MAX_EVENTS {
      AppendKeeps(history, Recent(stamps, now), now);
    }
  }

  /** Each event passes exactly when it keeps the limit with respect to all events accepted before it. */
  ghost predicate ExactAfter(history: seq<int>, times: seq<int>, decisions: seq<bool>)
    requires |times| == |decisions|
  {
    forall i | 0 <= i < |times| ::
      decisions[i] <==> WithinLimit(history + Accepted(times[..i], decisions[..i]), times[i])
  }

  lemma ExactStep(history: seq<int>, times: seq<int>, decisions: seq<bool>)
    requires |times| == |decisions| > 0 && (decisions[0] <==> WithinLimit(history, times[0]))
    requires ExactAfter(history + (if decisions[0] then [times[0]] else []), times[1..], decisions[1..])
    ensures ExactAfter(history, times, decisions)
  {
    hide WithinLimit, Accepted;
    forall i | 0 <= i < |times|
      ensures decisions[i] <==> WithinLimit(history + Accepted(times[..i], decisions[..i]), times[i])
    {
      AcceptedPrefix(history, times, decisions, i);
      if i > 0 {
        assert decisions[1..][i - 1] == decisions[i] && times[1..][i - 1] == times[i];
      }
    }
  }

  lemma OneEvent(history: seq<int>, stamps: seq<int>, last: int, now: int)
    requires Remembers(history, stamps, last) && last <= now
    ensures var (passed, kept) := OnEvent(stamps, now);
            && (passed <==> WithinLimit(history, now))
            && Remembers(history + (if passed then [now] else []), kept, now)
  {
    hide *;
    RejectedExactly(history, stamps, last, now);
    EventKeeps(history, stamps, last, now);
    assert history + [] == history;
  }

  /**
   * Over every run, each event is accepted exactly when it keeps the limit with
   * respect to all events accepted before it, and the socket ends up remembering
   * the recent end of everything it accepted.
   */
  lemma {:induction false} RunExact(history: seq<int>, stamps: seq<int>, last: int, times: seq<int>)
    requires Remembers(history, stamps, last) && Nondecreasing([last] + times)
    ensures var (decisions, kept) := OnEvents(stamps, times);
            && ExactAfter(history, times, decisions)
            && Remembers(history + Accepted(times, decisions), kept, ([last] + times)[|times|])
    decreases |times|
  {
    var decisions := OnEvents(stamps, times).0;
    if times == [] {
      assert history + Accepted(times, decisions) == history;
    } else {
      hide Remembers, OnEvent, WithinLimit, ExactAfter;
      var (passed, kept) := OnEvent(stamps, times[0]);
      var more, rest := if passed then [times[0]] else [], times[1..];
      InOrder(last, times);
      OneEvent(history, stamps, last, times[0]);
      RunExact(history + more, kept, times[0], rest);
      ExactStep(history, times, decisions);
      Sequences.Associative(history, more, Accepted(rest, decisions[1..]));
    }
  }

  lemma InOrder(last: int, times: seq<int>)
    requires times != [] && Nondecreasing([last] + times)
    ensures last <= times[0] && Nondecreasing([times[0]] + times[1..])
    ensures ([times[0]] + times[1..])[|times| - 1] == ([last] + times)[|times|]
  {
    assert [times[0]] + times[1..] == ([last] + times)[1..];
    assert ([last] + times)[0] == last && ([last] + times)[1] == times[0];
  }

  lemma AcceptedPrefix(history: seq<int>, times: seq<int>, decisions: seq<bool>, i: nat)
    requires |times| == |decisions| && i < |times|
    ensures var more := if decisions[0] then [times[0]] else [];
            history + Accepted(times[..i], decisions[..i]) ==
            if i == 0 then history else (history + more) + Accepted(times[1..][..i - 1], decisions[1..][..i - 1])
  {
    if i > 0 {
      assert times[..i][1..] == times[1..][..i - 1] && decisions[..i][1..] == decisions[1..][..i - 1];
    }
  }

  /** A socket that has just connected keeps the limit at every event of its life. */
  lemma FreshSocketExact(times: seq<int>)
    requires Nondecreasing(times)
    ensures var (decisions, kept) := OnEvents([], times);
            && Spaced(Accepted(times, decisions)) && |kept| <= MAX_EVENTS
            && forall i | 0 <= i < |times| ::
                 decisions[i] <==> WithinLimit(Accepted(times[..i], decisions[..i]), times[i])
  {
    var first := if times == [] then 0 else times[0];
    assert Nondecreasing([first] + times);
    RunExact([], [], first, times);
    AtMostMax([], times);
    hide OnEvents, WithinLimit, Accepted;
    var decisions := OnEvents([], times).0;
    assert [] + Accepted(times, decisions) == Accepted(times, decisions);
    forall i | 0 <= i < |times|
      ensures decisions[i] <==> WithinLimit(Accepted(times[..i], decisions[..i]), times[i])
    {
      assert [] + Accepted(times[..i], decisions[..i]) == Accepted(times[..i], decisions[..i]);
    }
  }

  /** Whatever the clock does, no more timestamps are kept than events may pass. */
  lemma {:induction false} AtMostMax(stamps: seq<int>, times: seq<int>)
    requires |stamps| <= MAX_EVENTS
    ensures |OnEvents(stamps, times).1| <= MAX_EVENTS
    decreases |times|
  {
    if times != [] {
      AtMostMax(OnEvent(stamps, times[0]).1, times[1..]);
    }
  }
}
