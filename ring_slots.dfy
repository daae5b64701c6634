/**
 * What both versions of NotifiedMailTracker share: the 500-slot ring, the
 * order in which consecutive writes visit its slots, the `includes` scan,
 * and the `||` fallback rule that `load` applies to the two storage keys.
 */
module RingSlots {
  import opened Optional

  /** NotifiedMailTracker.SIZE. */
  const SIZE := 500

  /** A slot holds null until it is first written, then a hash. */
  type Slot = Option<string>

  /** A copy of the ring as save() writes it under notifiedMailHashes / oldestNotifiedMailPointer. */
  datatype Snapshot = Snapshot(slots: seq<Slot>, pointer: int)

  /** Storage only ever holds what save() wrote: a full ring and an in-range pointer. */
  predicate ValidSnapshot(s: Snapshot) {
    |s.slots| == SIZE && 0 <= s.pointer < SIZE
  }

  predicate ValidStored(stored: Option<Snapshot>) {
    stored.Some? ==> ValidSnapshot(stored.value)
  }

  predicate Distinct(hs: seq<string>) {
    forall j, k :: 0 <= j < k < |hs| ==> hs[j] != hs[k]
  }

  /**
   * The slots after writing hs[0], hs[1], ... one after the other into
   * slots start, start + 1, ... (mod SIZE).
   */
  function Writes(slots: seq<Slot>, start: nat, hs: seq<string>): (r: seq<Slot>)
    requires |slots| == SIZE
    ensures |r| == SIZE
    decreases |hs|
  {
    if hs == [] then slots
    else Writes(slots, start, hs[..|hs| - 1])[(start + |hs| - 1) % SIZE := Some(hs[|hs| - 1])]
  }

  /** Fewer than SIZE steps apart, two positions fall in different slots. */
  lemma DifferentSlots(a: nat, b: nat)
    requires a < b < a + SIZE
    ensures a % SIZE != b % SIZE
  {
  }

  /** The slot after the slot of position a is the slot of position a + 1. */
  lemma NextSlot(a: nat)
    ensures (a % SIZE + 1) % SIZE == (a + 1) % SIZE
  {
  }

  /** The slot after position x is the slot of position y when y is x + 1 once round the ring. */
  lemma NextSlotWraps(x: nat, y: nat)
    requires x + 1 == y + SIZE
    ensures (x % SIZE + 1) % SIZE == y % SIZE
  {
  }

  /** A full round of the ring later, a position falls in the same slot again. */
  lemma OneRoundLater(a: nat)
    ensures (a + SIZE) % SIZE == a % SIZE
  {
  }

  /** The slot before the slot of position a + 1 is the slot of position a. */
  lemma PreviousSlot(a: nat)
    ensures ((a + 1) % SIZE + SIZE - 1) % SIZE == a % SIZE
  {
  }

  /** The position of slot i among the SIZE consecutive positions starting at m. */
  lemma SlotPosition(m: nat, i: nat)
    requires i < SIZE
    ensures 0 <= (i - m) % SIZE < SIZE
    ensures (m + (i - m) % SIZE) % SIZE == i
  {
    var j := (i - m) % SIZE;
    var q := (i - m) / SIZE;
    assert i - m == q * SIZE + j;
    assert m + j == i - q * SIZE;
  }

  /** A hash survives in its slot until SIZE later writes have gone round the ring. */
  lemma {:induction false} WritesAt(slots: seq<Slot>, start: nat, hs: seq<string>, k: nat)
    requires |slots| == SIZE
    requires k < |hs| <= k + SIZE
    ensures Writes(slots, start, hs)[(start + k) % SIZE] == Some(hs[k])
    decreases |hs|
  {
    var n := |hs|;
    if k < n - 1 {
      DifferentSlots(start + k, start + n - 1);
      WritesAt(slots, start, hs[..n - 1], k);
    }
  }

  /** Once SIZE writes have been made, the slot after the last one written holds the oldest survivor. */
  lemma WritesOldestAfterLast(slots: seq<Slot>, start: nat, hs: seq<string>, last: nat)
    requires |slots| == SIZE && SIZE <= |hs| && last == (start + |hs| - 1) % SIZE
    ensures Writes(slots, start, hs)[(last + 1) % SIZE] == Some(hs[|hs| - SIZE])
  {
    var n := |hs|;
    WritesAt(slots, start, hs, n - SIZE);
    NextSlotWraps(start + n - 1, start + (n - SIZE));
  }

  /** Once SIZE writes have been made, the slot of the next position holds the oldest survivor. */
  lemma WritesOldestAtNext(slots: seq<Slot>, start: nat, hs: seq<string>, p: nat)
    requires |slots| == SIZE && SIZE <= |hs| && p == (start + |hs|) % SIZE
    ensures Writes(slots, start, hs)[p] == Some(hs[|hs| - SIZE])
  {
    var a := start + (|hs| - SIZE);
    WritesAt(slots, start, hs, |hs| - SIZE);
    OneRoundLater(a);
  }

  /** The slot before the next position holds the newest hash written. */
  lemma WritesNewestBeforeNext(slots: seq<Slot>, start: nat, hs: seq<string>, p: nat)
    requires |slots| == SIZE && hs != [] && p == (start + |hs|) % SIZE
    ensures Writes(slots, start, hs)[(p + SIZE - 1) % SIZE] == Some(hs[|hs| - 1])
  {
    var a := start + (|hs| - 1);
    WritesAt(slots, start, hs, |hs| - 1);
    PreviousSlot(a);
  }

  /** Once SIZE writes have been made, every slot holds one of the last SIZE hashes. */
  lemma WritesCover(slots: seq<Slot>, start: nat, hs: seq<string>, i: nat)
    requires |slots| == SIZE && SIZE <= |hs| && i < SIZE
    ensures exists k :: |hs| - SIZE <= k < |hs| && Writes(slots, start, hs)[i] == Some(hs[k])
  {
    var m := start + |hs| - SIZE;
    SlotPosition(m, i);
    var k := |hs| - SIZE + (i - m) % SIZE;
    assert start + k == m + (i - m) % SIZE;
    WritesAt(slots, start, hs, k);
  }

  /**
   * With more than SIZE distinct hashes written, exactly the last SIZE are
   * still in the ring and every earlier one has been overwritten.
   */
  lemma WritesRetainLast(slots: seq<Slot>, start: nat, hs: seq<string>)
    requires |slots| == SIZE && SIZE < |hs| && Distinct(hs)
    ensures forall k :: 0 <= k < |hs| - SIZE ==> Some(hs[k]) !in Writes(slots, start, hs)
    ensures forall k :: |hs| - SIZE <= k < |hs| ==> Some(hs[k]) in Writes(slots, start, hs)
  {
    var w := Writes(slots, start, hs);
    forall k | 0 <= k < |hs| - SIZE
      ensures Some(hs[k]) !in w
    {
      forall i | 0 <= i < SIZE
        ensures w[i] != Some(hs[k])
      {
        WritesCover(slots, start, hs, i);
      }
    }
    forall k | |hs| - SIZE <= k < |hs|
      ensures Some(hs[k]) in w
    {
      WritesAt(slots, start, hs, k);
    }
  }

  /** `Array.prototype.includes`: a left-to-right scan of the slots for the hash. */
  method Includes(a: array<Slot>, h: string) returns (found: bool)
    ensures found <==> Some(h) in a[..]
  {
    var i := 0;
    while i < a.Length
      invariant 0 <= i <= a.Length
      invariant Some(h) !in a[..i]
    {
      if a[i] == Some(h) {
        return true;
      }
      assert a[..i + 1] == a[..i] + [a[i]];
      i := i + 1;
    }
    assert a[..i] == a[..];
    return false;
  }

  /** `result[DATA_KEY] || this.cache`: a stored array, even one of nulls, is truthy. */
  function LoadedSlots(stored: Option<Snapshot>, current: seq<Slot>): seq<Slot> {
    if stored.Some? then stored.value.slots else current
  }

  /**
   * `result[POINTER_KEY] || this.pointer`: a missing pointer and a stored 0
   * (falsy) both keep the pointer that is in memory.
   */
  function LoadedPointer(stored: Option<Snapshot>, current: nat): (p: nat)
    requires ValidStored(stored)
    ensures current < SIZE ==> p < SIZE
    ensures stored.None? || stored.value.pointer == 0 ==> p == current
    ensures stored.Some? && stored.value.pointer != 0 ==> p == stored.value.pointer
  {
    if stored.Some? && stored.value.pointer != 0 then stored.value.pointer else current
  }
}
