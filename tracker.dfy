/**
 * NotifiedMailTracker of the current version (src/scripts/tracker.js): a
 * 500-slot ring of hashes of notified mails, a pointer into it, a one-level
 * undo record written by add() and consumed by rollback(), and the copy of
 * the ring kept in storage.
 *
 * The pointer marks the slot written by the LAST add(): add() first moves
 * it forward and then writes. rollback() restores the slot at the pointer's
 * previous position, which add() did not touch, so it only moves the
 * pointer back and the hash just added stays in the ring.
 */
module Tracker {
  import opened Optional
  import opened RingSlots

  /** The undo record `{ hash, pointer }`: the slot content at the old pointer and that pointer. */
  datatype Backup = Backup(hash: Slot, pointer: nat)

  /** The tracker's value: its in-memory fields plus what storage holds under its two keys. */
  datatype TrackerState = TrackerState(slots: seq<Slot>, pointer: nat, backup: Option<Backup>, stored: Option<Snapshot>)

  predicate ValidState(t: TrackerState) {
    && |t.slots| == SIZE
    && t.pointer < SIZE
    && (t.backup.Some? ==> t.backup.value.pointer < SIZE)
    && ValidStored(t.stored)
  }

  /** The state of a newly constructed tracker, with storage as it already is. */
  function Initial(stored: Option<Snapshot>): (t: TrackerState)
    requires ValidStored(stored)
    ensures ValidState(t) && t.pointer == 0 && t.backup.None?
    ensures forall i :: 0 <= i < SIZE ==> t.slots[i].None?
  {
    TrackerState(seq(SIZE, _ => None), 0, None, stored)
  }

  /**
   * The undo record names the slot content it would restore: rolling back
   * then rewrites no slot.
   */
  predicate BackupMatches(t: TrackerState)
    requires ValidState(t)
  {
    t.backup.Some? ==> t.slots[t.backup.value.pointer] == t.backup.value.hash
  }

  /** contains(hash): some slot holds the hash. */
  predicate InCache(t: TrackerState, h: string) {
    Some(h) in t.slots
  }

  /** add(hash): record the undo information, advance the pointer, write the hash there. */
  function Added(t: TrackerState, h: string): (r: TrackerState)
    requires ValidState(t)
    ensures ValidState(r) && r.stored == t.stored
    ensures r.pointer == (t.pointer + 1) % SIZE
    ensures r.backup == Some(Backup(t.slots[t.pointer], t.pointer)) && BackupMatches(r)
    ensures r.slots[r.pointer] == Some(h) && InCache(r, h)
    ensures forall i {:trigger r.slots[i]} :: 0 <= i < SIZE && i != r.pointer ==> r.slots[i] == t.slots[i]
  {
    var p := (t.pointer + 1) % SIZE;
    TrackerState(t.slots[p := Some(h)], p, Some(Backup(t.slots[t.pointer], t.pointer)), t.stored)
  }

  /** rollback(): with an undo record, restore its slot and pointer and drop it; otherwise nothing. */
  function RolledBack(t: TrackerState): (r: TrackerState)
    requires ValidState(t)
    ensures ValidState(r) && r.backup.None? && r.stored == t.stored
    ensures t.backup.None? ==> r == t
    ensures t.backup.Some? ==> r.pointer == t.backup.value.pointer
    ensures t.backup.Some? ==> r.slots[t.backup.value.pointer] == t.backup.value.hash
    ensures BackupMatches(t) ==> r.slots == t.slots
    ensures forall i {:trigger r.slots[i]} :: 0 <= i < SIZE && (t.backup.None? || i != t.backup.value.pointer) ==> r.slots[i] == t.slots[i]
  {
    match t.backup
    case None => t
    case Some(b) => TrackerState(t.slots[b.pointer := b.hash], b.pointer, None, t.stored)
  }

  /** save(): on success storage holds the cache and the pointer; on failure it is unchanged. */
  function Saved(t: TrackerState, ok: bool): (r: TrackerState)
    requires ValidState(t)
    ensures ValidState(r) && r.slots == t.slots && r.pointer == t.pointer && r.backup == t.backup
    ensures ok ==> r.stored == Some(Snapshot(t.slots, t.pointer))
    ensures !ok ==> r == t
  {
    if ok then t.(stored := Some(Snapshot(t.slots, t.pointer))) else t
  }

  /** load() that succeeded: each field is replaced by the stored value unless that value is falsy. */
  function Loaded(t: TrackerState): (r: TrackerState)
    requires ValidState(t)
    ensures ValidState(r) && r.backup == t.backup && r.stored == t.stored
    ensures t.stored.None? ==> r == t
    ensures t.stored.Some? ==> r.slots == t.stored.value.slots
    ensures t.stored.Some? && t.stored.value.pointer != 0 ==> r.pointer == t.stored.value.pointer
    ensures t.stored.None? || t.stored.value.pointer == 0 ==> r.pointer == t.pointer
  {
    TrackerState(LoadedSlots(t.stored, t.slots), LoadedPointer(t.stored, t.pointer), t.backup, t.stored)
  }

  /** Loading right after a successful save gives back exactly the state in memory. */
  lemma SaveThenLoad(t: TrackerState)
    requires ValidState(t)
    ensures Loaded(Saved(t, true)) == Saved(t, true)
  {
  }

  /**
   * A stored pointer of 0 is falsy, so loading keeps the in-memory pointer
   * even though the stored cache replaces the in-memory one.
   */
  lemma StoredZeroPointerIgnored(t: TrackerState)
    requires ValidState(t) && t.stored.Some? && t.stored.value.pointer == 0
    ensures Loaded(t).slots == t.stored.value.slots
    ensures Loaded(t).pointer == t.pointer
  {
  }

  /** rollback() twice in a row is the same as once. */
  lemma RollbackIdempotent(t: TrackerState)
    requires ValidState(t)
    ensures RolledBack(RolledBack(t)) == RolledBack(t)
  {
  }

  /**
   * add(h) then rollback(): the pointer is back where it was and the undo
   * record is gone, but every slot keeps its post-add content, so the ring
   * still contains h.
   */
  lemma RollbackAfterAdd(t: TrackerState, h: string)
    requires ValidState(t)
    ensures RolledBack(Added(t, h)).slots == Added(t, h).slots
    ensures RolledBack(Added(t, h)).pointer == t.pointer
    ensures RolledBack(Added(t, h)).backup.None?
    ensures InCache(RolledBack(Added(t, h)), h)
  {
    var a := Added(t, h);
    assert a.backup == Some(Backup(t.slots[t.pointer], t.pointer));
    assert a.slots[t.pointer] == t.slots[t.pointer] by {
      DifferentSlots(t.pointer, t.pointer + 1);
    }
    assert a.slots[t.pointer := t.slots[t.pointer]] == a.slots;
  }

  /**
   * The state after add(hs[0]), add(hs[1]), ... with no rollback in
   * between, in closed form: the hashes are written to the slots after the
   * pointer in turn, the pointer has moved |hs| slots on, and the undo
   * record is the last add's: the slot at the previous pointer held the
   * hash added before it (or its original content, after a single add).
   * AddedAllStep shows that this is add() applied one hash at a time.
   */
  function AddedAll(t: TrackerState, hs: seq<string>): (r: TrackerState)
    requires ValidState(t)
    ensures ValidState(r) && r.stored == t.stored
  {
    if hs == [] then t
    else
      var n := |hs|;
      TrackerState(Writes(t.slots, t.pointer + 1, hs), (t.pointer + n) % SIZE,
                   Some(Backup(if n == 1 then t.slots[t.pointer] else Some(hs[n - 2]), (t.pointer + n - 1) % SIZE)),
                   t.stored)
  }

  /** One more add() after a run of adds is the longer run. */
  lemma AddedAllStep(t: TrackerState, hs: seq<string>, h: string)
    requires ValidState(t)
    ensures AddedAll(t, hs + [h]) == Added(AddedAll(t, hs), h)
  {
    var n := |hs|;
    var hs' := hs + [h];
    var before := AddedAll(t, hs);
    var r := AddedAll(t, hs');
    var a := Added(before, h);
    assert before.pointer == (t.pointer + n) % SIZE;
    assert r.pointer == a.pointer by {
      NextSlot(t.pointer + n);
    }
    assert r.slots == a.slots by {
      assert hs'[..n] == hs;
    }
    assert r.backup == a.backup by {
      if n > 0 {
        WritesAt(t.slots, t.pointer + 1, hs, n - 1);
        assert t.pointer + 1 + (n - 1) == t.pointer + n;
      }
    }
  }

  /** The k-th of fewer than SIZE + 1 consecutive adds is still in its slot. */
  lemma AddedAllSlot(t: TrackerState, hs: seq<string>, k: nat)
    requires ValidState(t) && k < |hs| <= k + SIZE
    ensures AddedAll(t, hs).slots[(t.pointer + 1 + k) % SIZE] == Some(hs[k])
  {
    WritesAt(t.slots, t.pointer + 1, hs, k);
  }

  /**
   * After a run of adds the pointer marks the NEWEST slot, the one written
   * last, despite the storage key name oldestNotifiedMailPointer.
   */
  lemma PointerNamesNewest(t: TrackerState, hs: seq<string>)
    requires ValidState(t) && hs != []
    ensures var r := AddedAll(t, hs); r.slots[r.pointer] == Some(hs[|hs| - 1])
  {
    var n := |hs|;
    AddedAllSlot(t, hs, n - 1);
    assert t.pointer + 1 + (n - 1) == t.pointer + n;
  }

  /** Once the ring is full, the oldest retained hash sits in the slot after the pointer. */
  lemma OldestFollowsPointer(t: TrackerState, hs: seq<string>)
    requires ValidState(t) && SIZE <= |hs|
    ensures var r := AddedAll(t, hs); r.slots[(r.pointer + 1) % SIZE] == Some(hs[|hs| - SIZE])
  {
    WritesOldestAfterLast(t.slots, t.pointer + 1, hs, AddedAll(t, hs).pointer);
  }

  /**
   * Ring eviction: after more than SIZE adds of distinct hashes, the first
   * ones are no longer contained and the last SIZE all are. With SIZE + 1
   * adds, exactly the first one has been evicted.
   */
  lemma AddedAllRetainsLast(t: TrackerState, hs: seq<string>)
    requires ValidState(t) && SIZE < |hs| && Distinct(hs)
    ensures forall k :: 0 <= k < |hs| - SIZE ==> !InCache(AddedAll(t, hs), hs[k])
    ensures forall k :: |hs| - SIZE <= k < |hs| ==> InCache(AddedAll(t, hs), hs[k])
  {
    WritesRetainLast(t.slots, t.pointer + 1, hs);
  }

  /** While fewer than SIZE adds have been made, every hash added is still contained. */
  lemma AddedAllContains(t: TrackerState, hs: seq<string>, k: nat)
    requires ValidState(t) && k < |hs| <= SIZE
    ensures InCache(AddedAll(t, hs), hs[k])
  {
    AddedAllSlot(t, hs, k);
  }

  /** The tracker object; State() is its value. */
  class NotifiedMailTracker {
    var cache: array<Slot>
    var pointer: nat
    var backup: Option<Backup>
    /** The value stored under notifiedMailHashes / oldestNotifiedMailPointer, None if never saved. */
    var stored: Option<Snapshot>

    ghost function State(): TrackerState
      reads this, cache
    {
      TrackerState(cache[..], pointer, backup, stored)
    }

    ghost predicate Valid()
      reads this, cache
    {
      cache.Length == SIZE && ValidState(State())
    }

    /** A fresh tracker: SIZE null slots, pointer 0, no undo record. */
    constructor(stored: Option<Snapshot>)
      requires ValidStored(stored)
      ensures Valid() && fresh(cache) && State() == Initial(stored)
    {
      cache := new Slot[SIZE](_ => None);
      pointer := 0;
      backup := None;
      this.stored := stored;
      new;
      assert cache[..] == Initial(stored).slots;
    }

    method Add(h: string)
      requires Valid()
      modifies this, cache
      ensures Valid() && cache == old(cache)
      ensures State() == Added(old(State()), h)
    {
      backup := Some(Backup(cache[pointer], pointer));
      pointer := (pointer + 1) % SIZE;
      cache[pointer] := Some(h);
    }

    method Rollback()
      requires Valid()
      modifies this, cache
      ensures Valid() && cache == old(cache)
      ensures State() == RolledBack(old(State()))
    {
      if backup.Some? {
        cache[backup.value.pointer] := backup.value.hash;
        pointer := backup.value.pointer;
        backup := None;
      }
    }

    method Contains(h: string) returns (found: bool)
      requires Valid()
      ensures found <==> InCache(State(), h)
    {
      found := Includes(cache, h);
    }

    /** save(): `ok` is whether chrome.storage accepted the write. */
    method Save(ok: bool) returns (saved: bool)
      requires Valid()
      modifies this
      ensures Valid() && cache == old(cache) && saved == ok
      ensures State() == Saved(old(State()), ok)
    {
      saved := ok;
      if ok {
        stored := Some(Snapshot(cache[..], pointer));
      }
    }

    /**
     * load() (also what prepare() and loadNotifiedMailList() run): `readOk`
     * is whether chrome.storage answered without error; on error the
     * tracker is unchanged and the error is passed on.
     */
    method Load(readOk: bool) returns (ok: bool)
      requires Valid()
      modifies this
      ensures Valid() && ok == readOk
      ensures State() == if readOk then Loaded(old(State())) else old(State())
      ensures cache == old(cache) || fresh(cache)
    {
      ok := readOk;
      if readOk {
        if stored.Some? {
          var s := stored.value.slots;
          cache := new Slot[SIZE](i requires 0 <= i < SIZE => s[i]);
          assert cache[..] == s;
        }
        pointer := LoadedPointer(stored, pointer);
      }
    }
  }
}
