/**
 * NotifiedMailTracker of the legacy version (scripts/tracker.js): the same
 * 500-slot ring and storage keys, but add() writes at the pointer and then
 * advances it, so the pointer marks the OLDEST slot, and there is no undo
 * record and no rollback(). Its loadNotifiedMailList() and
 * saveNotifiedMailList() swallow storage errors instead of passing them on.
 */
module LegacyTracker {
  import opened Optional
  import opened RingSlots

  /** The tracker's value: its two in-memory fields plus what storage holds. */
  datatype LegacyState = LegacyState(slots: seq<Slot>, pointer: nat, stored: Option<Snapshot>)

  predicate ValidState(t: LegacyState) {
    |t.slots| == SIZE && t.pointer < SIZE && ValidStored(t.stored)
  }

  /** The state of a newly constructed tracker, with storage as it already is. */
  function Initial(stored: Option<Snapshot>): (t: LegacyState)
    requires ValidStored(stored)
    ensures ValidState(t) && t.pointer == 0
    ensures forall i :: 0 <= i < SIZE ==> t.slots[i].None?
  {
    LegacyState(seq(SIZE, _ => None), 0, stored)
  }

  /** contains(hash): some slot holds the hash. */
  predicate InCache(t: LegacyState, h: string) {
    Some(h) in t.slots
  }

  /** add(hash): write the hash at the pointer, then advance the pointer. */
  function Added(t: LegacyState, h: string): (r: LegacyState)
    requires ValidState(t)
    ensures ValidState(r) && r.stored == t.stored
    ensures r.slots[t.pointer] == Some(h) && InCache(r, h)
    ensures r.pointer == (t.pointer + 1) % SIZE
    ensures forall i {:trigger r.slots[i]} :: 0 <= i < SIZE && i != t.pointer ==> r.slots[i] == t.slots[i]
  {
    LegacyState(t.slots[t.pointer := Some(h)], (t.pointer + 1) % SIZE, t.stored)
  }

  /** save(): on success storage holds the cache and the pointer; on failure it is unchanged. */
  function Saved(t: LegacyState, ok: bool): (r: LegacyState)
    requires ValidState(t)
    ensures ValidState(r) && r.slots == t.slots && r.pointer == t.pointer
    ensures ok ==> r.stored == Some(Snapshot(t.slots, t.pointer))
    ensures !ok ==> r == t
  {
    if ok then t.(stored := Some(Snapshot(t.slots, t.pointer))) else t
  }

  /** load() that succeeded: each field is replaced by the stored value unless that value is falsy. */
  function Loaded(t: LegacyState): (r: LegacyState)
    requires ValidState(t)
    ensures ValidState(r) && r.stored == t.stored
    ensures t.stored.None? ==> r == t
    ensures t.stored.Some? ==> r.slots == t.stored.value.slots
    ensures t.stored.Some? && t.stored.value.pointer != 0 ==> r.pointer == t.stored.value.pointer
    ensures t.stored.None? || t.stored.value.pointer == 0 ==> r.pointer == t.pointer
  {
    LegacyState(LoadedSlots(t.stored, t.slots), LoadedPointer(t.stored, t.pointer), t.stored)
  }

  /** Loading right after a successful save gives back exactly the state in memory. */
  lemma SaveThenLoad(t: LegacyState)
    requires ValidState(t)
    ensures Loaded(Saved(t, true)) == Saved(t, true)
  {
  }

  /**
   * The state after add(hs[0]), add(hs[1]), ... in closed form: the hashes
   * are written from the pointer on, in turn, and the pointer has moved
   * |hs| slots on. AddedAllStep shows that this is add() applied one hash
   * at a time.
   */
  function AddedAll(t: LegacyState, hs: seq<string>): (r: LegacyState)
    requires ValidState(t)
    ensures ValidState(r) && r.stored == t.stored
  {
    LegacyState(Writes(t.slots, t.pointer, hs), (t.pointer + |hs|) % SIZE, t.stored)
  }

  /** One more add() after a run of adds is the longer run. */
  lemma AddedAllStep(t: LegacyState, hs: seq<string>, h: string)
    requires ValidState(t)
    ensures AddedAll(t, hs + [h]) == Added(AddedAll(t, hs), h)
  {
    var n := |hs|;
    var hs' := hs + [h];
    var r := AddedAll(t, hs');
    var a := Added(AddedAll(t, hs), h);
    assert r.pointer == a.pointer by {
      NextSlot(t.pointer + n);
    }
    assert r.slots == a.slots by {
      assert hs'[..n] == hs;
    }
  }

  /** The k-th of fewer than SIZE + 1 consecutive adds is still in its slot. */
  lemma AddedAllSlot(t: LegacyState, hs: seq<string>, k: nat)
    requires ValidState(t) && k < |hs| <= k + SIZE
    ensures AddedAll(t, hs).slots[(t.pointer + k) % SIZE] == Some(hs[k])
  {
    WritesAt(t.slots, t.pointer, hs, k);
  }

  /**
   * Once the ring is full, the pointer marks the OLDEST retained hash, the
   * one the next add() overwrites, as the key oldestNotifiedMailPointer says.
   */
  lemma PointerNamesOldest(t: LegacyState, hs: seq<string>)
    requires ValidState(t) && SIZE <= |hs|
    ensures var r := AddedAll(t, hs); r.slots[r.pointer] == Some(hs[|hs| - SIZE])
  {
    WritesOldestAtNext(t.slots, t.pointer, hs, AddedAll(t, hs).pointer);
  }

  /** After a run of adds the newest hash sits in the slot just before the pointer. */
  lemma NewestPrecedesPointer(t: LegacyState, hs: seq<string>)
    requires ValidState(t) && hs != []
    ensures var r := AddedAll(t, hs); r.slots[(r.pointer + SIZE - 1) % SIZE] == Some(hs[|hs| - 1])
  {
    WritesNewestBeforeNext(t.slots, t.pointer, hs, AddedAll(t, hs).pointer);
  }

  /**
   * Ring eviction: after more than SIZE adds of distinct hashes, the first
   * ones are no longer contained and the last SIZE all are.
   */
  lemma AddedAllRetainsLast(t: LegacyState, hs: seq<string>)
    requires ValidState(t) && SIZE < |hs| && Distinct(hs)
    ensures forall k :: 0 <= k < |hs| - SIZE ==> !InCache(AddedAll(t, hs), hs[k])
    ensures forall k :: |hs| - SIZE <= k < |hs| ==> InCache(AddedAll(t, hs), hs[k])
  {
    WritesRetainLast(t.slots, t.pointer, hs);
  }

  /** While at most SIZE adds have been made, every hash added is still contained. */
  lemma AddedAllContains(t: LegacyState, hs: seq<string>, k: nat)
    requires ValidState(t) && k < |hs| <= SIZE
    ensures InCache(AddedAll(t, hs), hs[k])
  {
    AddedAllSlot(t, hs, k);
  }

  /** The tracker object; State() is its value. */
  class LegacyNotifiedMailTracker {
    var cache: array<Slot>
    var pointer: nat
    /** The value stored under notifiedMailHashes / oldestNotifiedMailPointer, None if never saved. */
    var stored: Option<Snapshot>

    ghost function State(): LegacyState
      reads this, cache
    {
      LegacyState(cache[..], pointer, stored)
    }

    ghost predicate Valid()
      reads this, cache
    {
      cache.Length == SIZE && ValidState(State())
    }

    /** A fresh tracker: SIZE null slots and pointer 0. */
    constructor(stored: Option<Snapshot>)
      requires ValidStored(stored)
      ensures Valid() && fresh(cache) && State() == Initial(stored)
    {
      cache := new Slot[SIZE](_ => None);
      pointer := 0;
      this.stored := stored;
      new;
      assert cache[..] == Initial(stored).slots;
    }

    method Add(h: string)
      requires Valid()
      modifies this, cache
      ensures Valid() && cache == old(cache)
      ensures State() == Added(old(State()), h)
    {
      cache[pointer] := Some(h);
      pointer := (pointer + 1) % SIZE;
    }

    method Contains(h: string) returns (found: bool)
      requires Valid()
      ensures found <==> InCache(State(), h)
    {
      found := Includes(cache, h);
    }

    /** save(): `ok` is whether chrome.storage accepted the write. */
    method Save(ok: bool) returns (saved: bool)
      requires Valid()
      modifies this
      ensures Valid() && cache == old(cache) && saved == ok
      ensures State() == Saved(old(State()), ok)
    {
      saved := ok;
      if ok {
        stored := Some(Snapshot(cache[..], pointer));
      }
    }

    /** load(): `readOk` is whether chrome.storage answered without error. */
    method Load(readOk: bool) returns (ok: bool)
      requires Valid()
      modifies this
      ensures Valid() && ok == readOk
      ensures State() == if readOk then Loaded(old(State())) else old(State())
      ensures cache == old(cache) || fresh(cache)
    {
      ok := readOk;
      if readOk {
        if stored.Some? {
          var s := stored.value.slots;
          cache := new Slot[SIZE](i requires 0 <= i < SIZE => s[i]);
          assert cache[..] == s;
        }
        pointer := LoadedPointer(stored, pointer);
      }
    }

    /** loadNotifiedMailList(): load(), with a storage error logged and dropped. */
    method LoadNotifiedMailList(readOk: bool)
      requires Valid()
      modifies this
      ensures Valid()
      ensures State() == if readOk then Loaded(old(State())) else old(State())
      ensures cache == old(cache) || fresh(cache)
    {
      var _ := Load(readOk);
    }

    /** saveNotifiedMailList(): save(), with a storage error logged and dropped. */
    method SaveNotifiedMailList(ok: bool)
      requires Valid()
      modifies this
      ensures Valid() && cache == old(cache)
      ensures State() == Saved(old(State()), ok)
    {
      var _ := Save(ok);
    }
  }
}
