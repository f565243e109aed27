/**
 * The byte layout of the local buffer: length-prefixed entries in a circular
 * region. A byte is modelled as a `char`; nothing depends on it being below 256.
 */
module RingBytes {
  import opened Sequences

  const TWO_32: int := 0x1_0000_0000

  /** The four bytes of `static_cast<uint32_t>(n)`, least significant first; larger numbers wrap. */
  function Prefix(n: nat): (p: string)
    ensures |p| == 4
  {
    [(n % 256) as char, (n / 256 % 256) as char, (n / 65536 % 256) as char, (n / 16777216 % 256) as char]
  }

  function Length(p: string): nat
    requires |p| == 4
  {
    p[0] as int + 256 * p[1] as int + 65536 * p[2] as int + 16777216 * p[3] as int
  }

  /** The stored prefix is the size exactly when the size fits 32 bits. */
  lemma PrefixExact(n: nat)
    ensures Length(Prefix(n)) == n % TWO_32
    ensures Length(Prefix(n)) == n <==> n < TWO_32
  {
    var a, b, c := n / 256, n / 65536, n / 16777216;
    assert a / 256 == b && b / 256 == c && c / 256 == n / TWO_32;
    assert n == 256 * a + n % 256;
    assert a == 256 * b + a % 256;
    assert b == 256 * c + b % 256;
    assert c == 256 * (n / TWO_32) + c % 256;
  }

  function Frame(entry: string): (f: string)
    ensures |f| == 4 + |entry|
  {
    Prefix(|entry|) + entry
  }

  function Frames(entries: seq<string>): (f: string)
    ensures |f| >= 4 * |entries|
  {
    if entries == [] then "" else Frame(entries[0]) + Frames(entries[1..])
  }

  lemma {:induction false} FramesAppend(entries: seq<string>, entry: string)
    ensures Frames(entries + [entry]) == Frames(entries) + Frame(entry)
  {
    if entries == [] {
      assert Frames([entry]) == Frame(entry);
    } else {
      hide Frame;
      assert (entries + [entry])[1..] == entries[1..] + [entry];
      FramesAppend(entries[1..], entry);
      Associative(Frame(entries[0]), Frames(entries[1..]), Frame(entry));
    }
  }

  ghost predicate Fits(entries: seq<string>) {
    forall e | e in entries :: |e| < TWO_32
  }

  /** The bytes determine the entries: no two queues have the same layout. */
  lemma {:induction false} FramesInjective(s: seq<string>, t: seq<string>)
    requires Fits(s) && Fits(t) && Frames(s) == Frames(t)
    ensures s == t
  {
    if s != [] && t != [] {
      var f := Frames(s);
      PrefixExact(|s[0]|);
      PrefixExact(|t[0]|);
      assert f[..4] == Prefix(|s[0]|) && f[..4] == Prefix(|t[0]|);
      var n := |s[0]|;
      assert f[4..4 + n] == s[0] && f[4..4 + n] == t[0];
      assert f[4 + n..] == Frames(s[1..]) && f[4 + n..] == Frames(t[1..]);
      FramesInjective(s[1..], t[1..]);
      assert s == [s[0]] + s[1..] && t == [t[0]] + t[1..];
    }
  }

  // ---------------------------------------------------------- circular region

  /** The `n` bytes from `at` on, continuing at the start of the region. */
  function Window(mem: string, at: nat, n: nat): (w: string)
    requires at <= |mem| && n <= |mem|
    ensures |w| == n
  {
    if at + n <= |mem| then mem[at..at + n] else mem[at..] + mem[..at + n - |mem|]
  }

  /** `at + n` reduced into the region. */
  function Advance(capacity: nat, at: nat, n: nat): (r: nat)
    requires at <= capacity && n <= capacity
    ensures r <= capacity
    ensures at < capacity ==> r < capacity
  {
    if at + n < capacity then at + n else at + n - capacity
  }

  lemma AdvanceIsModulo(capacity: nat, at: nat, n: nat)
    requires at < capacity && n <= capacity
    ensures Advance(capacity, at, n) == (at + n) % capacity
  {
    var rest, turns := Advance(capacity, at, n), if at + n < capacity then 0 else 1;
    assert at + n == turns * capacity + rest;
    UniqueRemainder(at + n, capacity, (at + n) / capacity, (at + n) % capacity, turns, rest);
  }

  lemma UniqueRemainder(x: nat, d: nat, q: nat, r: nat, q': nat, r': nat)
    requires r < d && r' < d && x == q * d + r == q' * d + r'
    ensures r == r'
  {
    FewerTurns(q, q', d, r);
    FewerTurns(q', q, d, r');
  }

  lemma FewerTurns(q: nat, q': nat, d: nat, r: nat)
    requires r < d
    ensures q < q' ==> q * d + r < q' * d
  {
    if q < q' {
      assert (q + 1) * d <= q' * d;
    }
  }

  lemma AdvanceTwice(capacity: nat, at: nat, m: nat, n: nat)
    requires at < capacity && m + n <= capacity
    ensures Advance(capacity, Advance(capacity, at, m), n) == Advance(capacity, at, m + n)
  {}

  lemma WindowAt(mem: string, at: nat, n: nat, i: nat)
    requires at < |mem| && i < n <= |mem|
    ensures Window(mem, at, n)[i] == mem[Advance(|mem|, at, i)]
  {}

  /** A window is its first `m` bytes, then the window behind them. */
  lemma WindowSplit(mem: string, at: nat, m: nat, n: nat)
    requires at < |mem| && m <= n <= |mem|
    ensures Window(mem, at, n) == Window(mem, at, m) + Window(mem, Advance(|mem|, at, m), n - m)
  {
    hide Window, Advance;
    var middle := Advance(|mem|, at, m);
    var whole, left, right := Window(mem, at, n), Window(mem, at, m), Window(mem, middle, n - m);
    forall i | 0 <= i < n
      ensures whole[i] == (left + right)[i]
    {
      WindowAt(mem, at, n, i);
      if i < m {
        WindowAt(mem, at, m, i);
      } else {
        WindowAt(mem, middle, n - m, i - m);
        AdvanceTwice(|mem|, at, m, i - m);
      }
    }
    assert whole == left + right;
  }

  /** Reading a freshly written stretch gives what was written; what lies before it is kept. */
  lemma WindowAfterWrite(before: string, after: string, at: nat, used: nat, bytes: string)
    requires |after| == |before| && at < |before| && used + |bytes| <= |before|
    requires forall i | 0 <= i < used :: after[Advance(|before|, at, i)] == before[Advance(|before|, at, i)]
    requires forall i | 0 <= i < |bytes| ::
               after[Advance(|before|, Advance(|before|, at, used), i)] == bytes[i]
    ensures Window(after, at, used + |bytes|) == Window(before, at, used) + bytes
  {
    hide Window, Advance;
    var n := used + |bytes|;
    var middle := Advance(|before|, at, used);
    WindowSplit(after, at, used, n);
    var kept, written := Window(after, at, used), Window(after, middle, |bytes|);
    forall i | 0 <= i < used
      ensures kept[i] == Window(before, at, used)[i]
    {
      WindowAt(after, at, used, i);
      WindowAt(before, at, used, i);
    }
    forall i | 0 <= i < |bytes|
      ensures written[i] == bytes[i]
    {
      WindowAt(after, middle, |bytes|, i);
    }
    assert kept == Window(before, at, used);
    assert written == bytes;
  }

  // ------------------------------------------------------------- well-formed

  /** The region and header describe exactly the given queue of entries. */
  ghost predicate WellFormed(mem: string, readOffset: nat, writeOffset: nat, count: nat, entries: seq<string>) {
    var used := |Frames(entries)|;
    && Fits(entries)
    && count == |entries|
    && used <= |mem|
    && (readOffset < |mem| || readOffset == |mem| == 0)
    && writeOffset == Advance(|mem|, readOffset, used)
    && Window(mem, readOffset, used) == Frames(entries)
  }

  /** `write_available`. */
  function FreeBytes(capacity: nat, readOffset: nat, writeOffset: nat, count: nat): int {
    if count == 0 then capacity
    else if writeOffset > readOffset then capacity - (writeOffset - readOffset)
    else if writeOffset < readOffset then readOffset - writeOffset
    else 0
  }

  /** Space accounting is exact; equal offsets mean empty or completely full, told apart by the count. */
  lemma FreeBytesExact(mem: string, readOffset: nat, writeOffset: nat, count: nat, entries: seq<string>)
    requires WellFormed(mem, readOffset, writeOffset, count, entries)
    ensures FreeBytes(|mem|, readOffset, writeOffset, count) == |mem| - |Frames(entries)|
    ensures readOffset == writeOffset <==> count == 0 || |Frames(entries)| == |mem|
    ensures 4 * count <= |mem|
  {}

  /** Whether `push` accepts an entry: at most a quarter of the region, and room for it. */
  predicate Admits(capacity: nat, entries: seq<string>, entry: string) {
    4 + |entry| <= capacity / 4 && 4 + |entry| <= capacity - |Frames(entries)|
  }

  /**
   * Dropping the oldest entry makes a second push succeed exactly when the entry
   * is small enough and fits the free bytes plus those of the oldest entry.
   */
  lemma DropOldestMakesRoom(capacity: nat, entries: seq<string>, entry: string)
    requires entries != [] && |Frames(entries)| <= capacity
    ensures Admits(capacity, entries[1..], entry) <==>
            4 + |entry| <= capacity / 4 &&
            4 + |entry| <= capacity - |Frames(entries)| + 4 + |entries[0]|
    ensures 4 + |entry| <= capacity / 4 && |entry| <= |entries[0]| ==> Admits(capacity, entries[1..], entry)
  {}

  /** Whether opening a region with this header wipes it. */
  predicate HeaderRejected(capacity: nat, isNew: bool, readOffset: nat, writeOffset: nat) {
    isNew || writeOffset >= capacity || readOffset >= capacity || (writeOffset == 0 && readOffset == 0)
  }

  /**
   * Reopening a region this class wrote loses the queue in one case only: the
   * entries fill it completely and the oldest one starts at its first byte.
   */
  lemma ReopenLosesOnlyFullAtZero(mem: string, readOffset: nat, writeOffset: nat, count: nat, entries: seq<string>)
    requires WellFormed(mem, readOffset, writeOffset, count, entries)
    ensures entries != [] && HeaderRejected(|mem|, false, readOffset, writeOffset) <==>
            |Frames(entries)| == |mem| > 0 && readOffset == 0
  {
    if entries == [] {
      assert Frames(entries) == "";
    }
  }

  function Copies(entry: string, n: nat): (copies: seq<string>)
    ensures |copies| == n && forall i | 0 <= i < n :: copies[i] == entry
  {
    if n == 0 then [] else Copies(entry, n - 1) + [entry]
  }

  lemma OneMoreCopy(entry: string, n: nat)
    ensures |Frames(Copies(entry, n + 1))| == |Frames(Copies(entry, n))| + 4 + |entry|
  {
    FramesAppend(Copies(entry, n), entry);
    hide Frames;
  }

  /**
   * Queues that are lost on reopening: four equal entries, whatever they hold, in
   * a region of exactly their size. Each of them is accepted, and they end where
   * they began.
   */
  lemma FullRingExample(entry: string)
    requires |entry| < TWO_32
    ensures var mem := Frames(Copies(entry, 4));
            && |mem| == 4 * (4 + |entry|)
            && (forall k | 0 <= k < 4 :: Admits(|mem|, Copies(entry, k), entry))
            && WellFormed(mem, 0, 0, 4, Copies(entry, 4)) && HeaderRejected(|mem|, false, 0, 0)
  {
    hide Frames;
    assert Frames(Copies(entry, 0)) == "" by {
      NoFrames();
    }
    OneMoreCopy(entry, 0);
    OneMoreCopy(entry, 1);
    OneMoreCopy(entry, 2);
    OneMoreCopy(entry, 3);
    hide Copies;
    forall k | 0 <= k < 4
      ensures Admits(4 * (4 + |entry|), Copies(entry, k), entry)
    {
      assert k == 0 || k == 1 || k == 2 || k == 3;
    }
  }

  lemma NoFrames()
    ensures Frames([]) == ""
  {}


  lemma SplitEntries(entries: seq<string>)
    requires Fits(entries) && entries != []
    ensures Fits(entries[1..]) && |entries[0]| < TWO_32
    ensures Frames(entries) == Prefix(|entries[0]|) + (entries[0] + Frames(entries[1..]))
  {}

  /** A window that is two texts holds the first, and the second right behind it. */
  lemma WindowParts(mem: string, at: nat, first: string, second: string)
    requires at < |mem| && |first| + |second| <= |mem|
    requires Window(mem, at, |first| + |second|) == first + second
    ensures Window(mem, at, |first|) == first
    ensures Window(mem, Advance(|mem|, at, |first|), |second|) == second
  {
    var m, n := |first|, |first| + |second|;
    WindowSplit(mem, at, m, n);
    hide Window, Advance;
    var left, right := Window(mem, at, m), Window(mem, Advance(|mem|, at, m), n - m);
    assert (left + right)[..m] == left && (left + right)[m..] == right;
    assert (first + second)[..m] == first && (first + second)[m..] == second;
  }

  /** The bytes at the read offset are the oldest entry's prefix and payload, then the other frames. */
  lemma OldestBytes(mem: string, at: nat, entries: seq<string>)
    requires Fits(entries) && entries != [] && at < |mem| && |Frames(entries)| <= |mem|
    requires Window(mem, at, |Frames(entries)|) == Frames(entries)
    ensures var n, rest := |entries[0]|, Frames(entries[1..]);
            && |Frames(entries)| == 4 + n + |rest|
            && Window(mem, at, 4) == Prefix(n) && Window(mem, Advance(|mem|, at, 4), n) == entries[0]
            && Window(mem, Advance(|mem|, Advance(|mem|, at, 4), n), |rest|) == rest
  {
    hide Prefix, Frames, Window, Advance;
    SplitEntries(entries);
    var n, rest := |entries[0]|, Frames(entries[1..]);
    WindowParts(mem, at, Prefix(n), entries[0] + rest);
    WindowParts(mem, Advance(|mem|, at, 4), entries[0], rest);
  }

  /** What `pop` finds at the read offset. */
  lemma OldestEntry(mem: string, readOffset: nat, writeOffset: nat, count: nat, entries: seq<string>)
    requires WellFormed(mem, readOffset, writeOffset, count, entries) && count > 0
    ensures 4 + |entries[0]| <= |mem| && readOffset < |mem|
    ensures Window(mem, readOffset, 4) == Prefix(|entries[0]|)
    ensures Length(Prefix(|entries[0]|)) == |entries[0]|
    ensures var payloadAt := Advance(|mem|, readOffset, 4);
            && Window(mem, payloadAt, |entries[0]|) == entries[0]
            && WellFormed(mem, Advance(|mem|, payloadAt, |entries[0]|), writeOffset, count - 1, entries[1..])
  {
    hide Prefix, Frames, Window, Advance, Length;
    PrefixExact(|entries[0]|);
    OldestBytes(mem, readOffset, entries);
    var n, rest := |entries[0]|, |Frames(entries[1..])|;
    AdvanceTwice(|mem|, readOffset, 4, n);
    AdvanceTwice(|mem|, readOffset, 4 + n, rest);
    assert Advance(|mem|, readOffset, 4) < |mem|;
  }

  /** What `push` leaves behind. */
  lemma EntryAppended(before: string, after: string, readOffset: nat, writeOffset: nat, count: nat,
                      entries: seq<string>, entry: string)
    requires WellFormed(before, readOffset, writeOffset, count, entries)
    requires |after| == |before| && |entry| < TWO_32
    requires readOffset < |before| && |Frames(entries)| + 4 + |entry| <= |before|
    requires Window(after, readOffset, |Frames(entries)| + 4 + |entry|) ==
             Window(before, readOffset, |Frames(entries)|) + Prefix(|entry|) + entry
    ensures WellFormed(after, readOffset, Advance(|after|, readOffset, |Frames(entries)| + 4 + |entry|), count + 1,
                       entries + [entry])
  {
    hide Prefix, Frames, Window, Advance;
    FramesAppend(entries, entry);
    Associative(Frames(entries), Prefix(|entry|), entry);
  }
}
