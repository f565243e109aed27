/**
 * The agent's local buffer (`MMapRingBuffer` of
 * services/cxx-agent/src/ring_buffer.cpp) as a queue of printed batches.
 */
module RingBuffer {
  import opened BatchCodec
  import opened Decimal
  import opened RingBytes

  class MMapRingBuffer<V(!new)> {
    const vt: ValueText<V>
    // The mapped file: header fields and data region.
    const data: array<char>
    var writeOffset: nat
    var readOffset: nat
    var count: nat
    var oldestTs: int64

    // The printed batches, oldest first.
    ghost var entries: seq<string>

    ghost predicate Valid()
      reads this, data
    {
      WellFormed(data[..], readOffset, writeOffset, count, entries)
    }

    /**
     * Opens a mapped file holding the given header. `queue` is what the file
     * holds when it was written by this class with the same capacity.
     */
    constructor Open(vt: ValueText<V>, mapped: array<char>, isNew: bool,
                     writeOffset: nat, readOffset: nat, count: nat, oldestTs: int64,
                     ghost queue: seq<string>)
      modifies mapped
      ensures this.vt == vt && data == mapped
      ensures var rejected := HeaderRejected(mapped.Length, isNew, readOffset, writeOffset);
              && (rejected ==> Valid() && entries == [] && this.readOffset == this.writeOffset == this.oldestTs == 0)
              && (!rejected ==>
                    && mapped[..] == old(mapped[..]) && entries == queue
                    && this.readOffset == readOffset && this.writeOffset == writeOffset
                    && this.count == count && this.oldestTs == oldestTs
                    && (WellFormed(old(mapped[..]), readOffset, writeOffset, count, queue) ==> Valid()))
      // Whatever the header said, for instance under a larger capacity, the ring works inside the region.
      ensures mapped.Length > 0 ==> this.readOffset < mapped.Length && this.writeOffset < mapped.Length
      ensures isNew || readOffset >= mapped.Length || writeOffset >= mapped.Length ==>
                entries == [] && this.count == 0 && forall i | 0 <= i < mapped.Length :: mapped[i] == '\0'
      ensures !isNew && readOffset < mapped.Length && writeOffset < mapped.Length && readOffset != writeOffset ==>
                entries == queue && this.count == count && mapped[..] == old(mapped[..])
    {
      var rejected := HeaderRejected(mapped.Length, isNew, readOffset, writeOffset);
      this.vt, data := vt, mapped;
      if rejected {
        this.writeOffset, this.readOffset, this.count, this.oldestTs := 0, 0, 0, 0;
      } else {
        this.writeOffset, this.readOffset, this.count, this.oldestTs := writeOffset, readOffset, count, oldestTs;
      }
      entries := if rejected then [] else queue;
      new;
      if rejected {
        forall i | 0 <= i < mapped.Length {
          mapped[i] := '\0';
        }
      }
    }

    /** Copies bytes in at the write offset, in two parts when they reach past the end, and moves the offset. */
    method Write(bytes: string)
      requires writeOffset < data.Length && |bytes| <= data.Length
      modifies data, `writeOffset
      ensures writeOffset == Advance(data.Length, old(writeOffset), |bytes|)
      ensures forall i | 0 <= i < |bytes| :: data[Advance(data.Length, old(writeOffset), i)] == bytes[i]
      ensures forall i | |bytes| <= i < data.Length ::
                data[Advance(data.Length, old(writeOffset), i)] == old(data[Advance(data.Length, writeOffset, i)])
    {
      var at, capacity := writeOffset, data.Length;
      if at + |bytes| > capacity {
        var firstPart := capacity - at;
        forall i | 0 <= i < firstPart {
          data[at + i] := bytes[i];
        }
        forall i | 0 <= i < |bytes| - firstPart {
          data[i] := bytes[firstPart + i];
        }
      } else {
        forall i | 0 <= i < |bytes| {
          data[at + i] := bytes[i];
        }
      }
      AdvanceIsModulo(capacity, at, |bytes|);
      writeOffset := (at + |bytes|) % capacity;
    }

    /** Copies `n` bytes out from the read offset and moves the offset. */
    method Read(n: nat) returns (bytes: string)
      requires readOffset < data.Length && n <= data.Length
      modifies `readOffset
      ensures bytes == Window(data[..], old(readOffset), n)
      ensures readOffset == Advance(data.Length, old(readOffset), n)
    {
      var at, capacity := readOffset, data.Length;
      if at + n > capacity {
        var firstPart := capacity - at;
        bytes := data[at..at + firstPart] + data[..n - firstPart];
      } else {
        bytes := data[at..at + n];
      }
      AdvanceIsModulo(capacity, at, n);
      readOffset := (at + n) % capacity;
    }

    /** Appends bytes behind the used part of the region. */
    method Append(bytes: string, ghost used: nat)
      requires readOffset < data.Length && used + |bytes| <= data.Length
      requires writeOffset == Advance(data.Length, readOffset, used)
      modifies data, `writeOffset
      ensures writeOffset == Advance(data.Length, readOffset, used + |bytes|)
      ensures Window(data[..], readOffset, used + |bytes|) == old(Window(data[..], readOffset, used)) + bytes
    {
      ghost var before, at, w, capacity := data[..], readOffset, writeOffset, data.Length;
      Write(bytes);
      AdvanceTwice(capacity, at, used, |bytes|);
      forall i | 0 <= i < used
        ensures data[Advance(capacity, at, i)] == before[Advance(capacity, at, i)]
      {
        assert Advance(capacity, at, i) == Advance(capacity, w, capacity - used + i);
      }
      WindowAfterWrite(before, data[..], at, used, bytes);
    }

    /**
     * Writes length prefix and payload of an accepted entry. The size is cast to
     * 32 bits: the ring stays well-formed exactly when it fits them, and beyond
     * that the stored prefix is the wrapped one.
     */
    method AppendEntry(payload: string)
      requires Valid() && Admits(data.Length, entries, payload)
      modifies this, data
      ensures Valid() <==> |payload| < TWO_32
      ensures entries == old(entries) + [payload] && count == old(count) + 1
      ensures readOffset == old(readOffset) && oldestTs == old(oldestTs)
      ensures Written(old(entries), payload)
    {
      hide Frames, Prefix, Window, Advance;
      ghost var before, used, at, w, n := data[..], |Frames(entries)|, readOffset, writeOffset, count;
      Append(Prefix(|payload|), used);
      Append(payload, used + 4);
      if |payload| < TWO_32 {
        EntryAppended(before, data[..], at, w, n, entries, payload);
      } else {
        assert payload in entries + [payload];
      }
      count := count + 1;
      entries := entries + [payload];
    }

    /** The used bytes are those of the entries before, then the 32-bit prefix of the payload's size, then the payload. */
    ghost predicate Written(before: seq<string>, payload: string)
      reads this, data
    {
      var used := |Frames(before)|;
      && readOffset < data.Length && used + 4 + |payload| <= data.Length
      && Window(data[..], readOffset, used + 4 + |payload|) == Frames(before) + Prefix(|payload|) + payload
      && writeOffset == Advance(data.Length, readOffset, used + 4 + |payload|)
    }

    /** `push`. */
    method Push(batch: Batch<V>) returns (ok: bool)
      requires Valid()
      modifies this, data
      ensures ok == Admits(data.Length, old(entries), Serialize(vt, batch))
      ensures entries == if ok then old(entries) + [Serialize(vt, batch)] else old(entries)
      ensures Valid() <==> (ok ==> |Serialize(vt, batch)| < TWO_32)
      ensures ok ==> Written(old(entries), Serialize(vt, batch)) && count == old(count) + 1
      ensures oldestTs == if ok && (old(oldestTs) == 0 || batch.originalTimestampMs < old(oldestTs))
                          then batch.originalTimestampMs else old(oldestTs)
      ensures readOffset == old(readOffset)
      ensures !ok ==> writeOffset == old(writeOffset) && count == old(count) && data[..] == old(data[..])
    {
      hide Serialize, Frames, WellFormed, Window, Advance, Prefix;
      var serialized := SerializeBatch(vt, batch);
      var entrySize := |serialized| + 4;
      if entrySize > data.Length / 4 {
        return false;
      }
      FreeBytesExact(data[..], readOffset, writeOffset, count, entries);
      if entrySize > FreeBytes(data.Length, readOffset, writeOffset, count) {
        return false;
      }
      AppendEntry(serialized);
      if oldestTs == 0 || batch.originalTimestampMs < oldestTs {
        oldestTs := batch.originalTimestampMs;
      }
      ok := true;
    }

    /** `pop`: takes the oldest entry out, also when it does not parse. */
    method Pop(target: Batch<V>) returns (ok: bool, batch: Batch<V>)
      requires Valid()
      modifies this
      ensures Valid()
      ensures old(entries) == [] ==> !ok && batch == target && entries == []
      ensures old(entries) != [] ==>
                && entries == old(entries)[1..]
                && (ok, batch) == Deserialize(vt, old(entries)[0], target)
      ensures oldestTs == old(oldestTs) && writeOffset == old(writeOffset)
    {
      hide Frames, Prefix, Window, Advance, Deserialize;
      if count == 0 {
        return false, target;
      }
      OldestEntry(data[..], readOffset, writeOffset, count, entries);
      var prefix := Read(4);
      var len := Length(prefix);
      var serialized := Read(len);
      count := count - 1;
      entries := entries[1..];
      ok, batch := DeserializeBatch(vt, serialized, target);
    }

    method Size() returns (n: nat)
      requires Valid()
      ensures n == |entries|
    {
      n := count;
    }

    method Empty() returns (e: bool)
      requires Valid()
      ensures e <==> entries == []
    {
      e := count == 0;
    }

    /** Also empties a ring that is no longer well-formed. */
    method Clear()
      modifies this
      ensures Valid() && entries == [] && oldestTs == 0
    {
      writeOffset, readOffset, count, oldestTs := 0, 0, 0, 0;
      entries := [];
    }
  }

  /** Filling a region with four equal entries and opening it again: the queue is gone. */
  method ReopenFullRegion<V(!new)>(vt: ValueText<V>, batch: Batch<V>)
    returns (full: MMapRingBuffer<V>, reopened: MMapRingBuffer<V>)
    requires |Serialize(vt, batch)| < TWO_32
    ensures full.entries == Copies(Serialize(vt, batch), 4)
    ensures reopened.Valid() && reopened.entries == []
  {
    hide Serialize, Frames, Prefix, Window;
    var text := SerializeBatch(vt, batch);
    var mapped := new char[4 * (4 + |text|)];
    full := new MMapRingBuffer.Open(vt, mapped, true, 0, 0, 0, 0, []);
    FullRingExample(text);
    for k := 0 to 4
      invariant full.Valid() && full.vt == vt && full.data == mapped && fresh(full) && fresh(mapped)
      invariant full.entries == Copies(text, k) && full.readOffset == 0
    {
      var ok := full.Push(batch);
    }
    reopened := new MMapRingBuffer.Open(vt, mapped, false, full.writeOffset, full.readOffset, full.count,
                                        full.oldestTs, full.entries);
  }
}
