/**
 * The service worker of the current version (src/scripts/background.js):
 * the MailNotificationService with its new-mail callback, its lifecycle
 * flags, the onWatcherStateChanged handler and the startup block.
 *
 * The new-mail callback runs its forEach body synchronously for every mail
 * (key, hash, format gate, contains, add) and launches one un-awaited
 * notify-then-save block per added mail. All contains / add calls of a
 * batch therefore happen before any delivery outcome is applied; the model
 * has the two phases Collect and Deliver, and applies outcomes in launch
 * order. Whether notify, save and the storage reads succeed are inputs:
 * `notifyOk(i)` and `saveOk(i)` for mail i of the batch.
 */
module Background {
  import opened Optional
  import opened Mails
  import opened RingSlots
  import opened Tracker
  import opened Utils

  /** A mail that passed contains and was added: its index in the batch, its text and its hash. */
  datatype Pending = Pending(index: nat, text: string, hash: string)

  /** The tracker after the synchronous phase, and the notify blocks it launched, in order. */
  datatype Collected = Collected(tracker: TrackerState, pending: seq<Pending>)

  function Hashes(ps: seq<Pending>): (hs: seq<string>)
    ensures |hs| == |ps| && forall k :: 0 <= k < |ps| ==> hs[k] == ps[k].hash
  {
    seq(|ps|, k requires 0 <= k < |ps| => ps[k].hash)
  }

  /**
   * Every launched notify is for a mail of the batch, with that mail's
   * fingerprint and formatted text, and they are launched in batch order.
   */
  predicate FromBatch(md5: string -> string, mails: seq<Mail>, ps: seq<Pending>) {
    && (forall k :: 0 <= k < |ps| ==>
          && ps[k].index < |mails|
          && ps[k].hash == Fingerprint(md5, mails[ps[k].index])
          && FormatMail(mails[ps[k].index]) == Some(ps[k].text))
    && (forall j, k :: 0 <= j < k < |ps| ==> ps[j].index < ps[k].index)
  }

  /**
   * The forEach body for mail i: compute the hash, drop the mail if
   * formatMail rejects it, skip it if the hash is contained, otherwise add
   * the hash and launch its notify block.
   */
  function Step(md5: string -> string, c: Collected, mails: seq<Mail>, i: nat): (r: Collected)
    requires ValidState(c.tracker) && i < |mails|
    ensures ValidState(r.tracker) && r.tracker.stored == c.tracker.stored
  {
    var h := Fingerprint(md5, mails[i]);
    match FormatMail(mails[i])
    case None => c
    case Some(text) =>
      if InCache(c.tracker, h) then c
      else Collected(Added(c.tracker, h), c.pending + [Pending(i, text, h)])
  }

  /** The synchronous phase over the whole batch. */
  function Collect(md5: string -> string, t: TrackerState, mails: seq<Mail>): (c: Collected)
    requires ValidState(t)
    ensures ValidState(c.tracker) && c.tracker.stored == t.stored
    ensures |c.pending| <= |mails|
    decreases |mails|
  {
    if mails == [] then Collected(t, [])
    else Step(md5, Collect(md5, t, mails[..|mails| - 1]), mails, |mails| - 1)
  }

  /** The last mail of a non-empty batch either changes nothing or is added and launched. */
  lemma CollectLast(md5: string -> string, t: TrackerState, mails: seq<Mail>)
    requires ValidState(t) && mails != []
    ensures var n := |mails|;
            var c := Collect(md5, t, mails[..n - 1]);
            var r := Collect(md5, t, mails);
            var h := Fingerprint(md5, mails[n - 1]);
            || r == c
            || (&& !InCache(c.tracker, h) && FormatMail(mails[n - 1]).Some?
                && r == Collected(Added(c.tracker, h), c.pending + [Pending(n - 1, FormatMail(mails[n - 1]).value, h)]))
  {
  }

  /** Each launched notify carries the hash and text of a distinct mail of the batch, in batch order. */
  lemma {:induction false} CollectFromBatch(md5: string -> string, t: TrackerState, mails: seq<Mail>)
    requires ValidState(t)
    ensures FromBatch(md5, mails, Collect(md5, t, mails).pending)
    decreases |mails|
  {
    if mails != [] {
      var n := |mails|;
      var c := Collect(md5, t, mails[..n - 1]);
      CollectFromBatch(md5, t, mails[..n - 1]);
      CollectLast(md5, t, mails);
      FromBatchExtends(md5, mails, c.pending);
      var r := Collect(md5, t, mails);
      if r != c {
        FromBatchSnoc(md5, mails, c.pending, r.pending[|r.pending| - 1]);
      }
    }
  }

  /** A launch for a later mail of the batch, with its hash and text, extends the launches in order. */
  lemma FromBatchSnoc(md5: string -> string, mails: seq<Mail>, ps: seq<Pending>, p: Pending)
    requires FromBatch(md5, mails, ps) && forall k :: 0 <= k < |ps| ==> ps[k].index < p.index
    requires p.index < |mails| && p.hash == Fingerprint(md5, mails[p.index])
    requires FormatMail(mails[p.index]) == Some(p.text)
    ensures FromBatch(md5, mails, ps + [p])
  {
  }

  /** Launched notifies drawn from a batch's prefix are drawn from the batch, all before its last mail. */
  lemma FromBatchExtends(md5: string -> string, mails: seq<Mail>, ps: seq<Pending>)
    requires mails != [] && FromBatch(md5, mails[..|mails| - 1], ps)
    ensures FromBatch(md5, mails, ps)
    ensures forall k :: 0 <= k < |ps| ==> ps[k].index < |mails| - 1
  {
    forall k | 0 <= k < |ps|
      ensures mails[..|mails| - 1][ps[k].index] == mails[ps[k].index]
    {
    }
  }

  /** The tracker after the synchronous phase is the one add() of each launched hash, in order. */
  lemma {:induction false} CollectIsAddAll(md5: string -> string, t: TrackerState, mails: seq<Mail>)
    requires ValidState(t)
    ensures Collect(md5, t, mails).tracker == AddedAll(t, Hashes(Collect(md5, t, mails).pending))
    decreases |mails|
  {
    if mails != [] {
      CollectIsAddAll(md5, t, mails[..|mails| - 1]);
      CollectIsAddAllStep(md5, t, mails);
    }
  }

  /** The inductive step of CollectIsAddAll: the last mail adds its hash exactly when it is launched. */
  lemma {:induction false} CollectIsAddAllStep(md5: string -> string, t: TrackerState, mails: seq<Mail>)
    requires ValidState(t) && mails != []
    requires var c := Collect(md5, t, mails[..|mails| - 1]); c.tracker == AddedAll(t, Hashes(c.pending))
    ensures Collect(md5, t, mails).tracker == AddedAll(t, Hashes(Collect(md5, t, mails).pending))
  {
    var c := Collect(md5, t, mails[..|mails| - 1]);
    var r := Collect(md5, t, mails);
    CollectLast(md5, t, mails);
    if r != c {
      AddedAllSnoc(t, c.pending, r.pending[|r.pending| - 1]);
    }
  }

  /** Adding the hashes of one more launch is one more add(). */
  lemma AddedAllSnoc(t: TrackerState, ps: seq<Pending>, p: Pending)
    requires ValidState(t)
    ensures AddedAll(t, Hashes(ps + [p])) == Added(AddedAll(t, Hashes(ps)), p.hash)
  {
    assert Hashes(ps + [p]) == Hashes(ps) + [p.hash];
    AddedAllStep(t, Hashes(ps), p.hash);
  }

  /**
   * A mail whose fingerprint is contained when its turn comes is not added
   * again, and every hash added earlier in the batch is still contained while
   * the batch has at most SIZE mails: so each fingerprint is notified at most
   * once per batch.
   */
  lemma {:induction false} NotifiesEachHashOnce(md5: string -> string, t: TrackerState, mails: seq<Mail>)
    requires ValidState(t) && |mails| <= SIZE
    ensures Distinct(Hashes(Collect(md5, t, mails).pending))
    decreases |mails|
  {
    if mails != [] {
      NotifiesEachHashOnce(md5, t, mails[..|mails| - 1]);
      NotifiesEachHashOnceStep(md5, t, mails);
    }
  }

  /** The inductive step of NotifiesEachHashOnce: a launched last mail's hash is not among the earlier ones. */
  lemma {:induction false} NotifiesEachHashOnceStep(md5: string -> string, t: TrackerState, mails: seq<Mail>)
    requires ValidState(t) && mails != [] && |mails| <= SIZE
    requires Distinct(Hashes(Collect(md5, t, mails[..|mails| - 1]).pending))
    ensures Distinct(Hashes(Collect(md5, t, mails).pending))
  {
    var n := |mails|;
    var c := Collect(md5, t, mails[..n - 1]);
    var r := Collect(md5, t, mails);
    CollectedMarked(md5, t, mails[..n - 1]);
    CollectLast(md5, t, mails);
    if r.pending != c.pending {
      DistinctSnoc(c.pending, r.pending, Fingerprint(md5, mails[n - 1]));
    }
  }

  /** With at most SIZE mails, every hash launched by the synchronous phase is contained at its end. */
  lemma {:induction false} CollectedMarked(md5: string -> string, t: TrackerState, mails: seq<Mail>)
    requires ValidState(t) && |mails| <= SIZE
    ensures forall k :: 0 <= k < |Collect(md5, t, mails).pending|
                        ==> InCache(Collect(md5, t, mails).tracker, Collect(md5, t, mails).pending[k].hash)
  {
    var c := Collect(md5, t, mails);
    CollectIsAddAll(md5, t, mails);
    forall k | 0 <= k < |c.pending|
      ensures InCache(c.tracker, c.pending[k].hash)
    {
      AddedAllContains(t, Hashes(c.pending), k);
    }
  }

  /** Appending one launch whose hash is new keeps the launched hashes distinct. */
  lemma DistinctSnoc(ps: seq<Pending>, qs: seq<Pending>, h: string)
    requires Distinct(Hashes(ps)) && h !in Hashes(ps)
    requires |qs| == |ps| + 1 && qs[..|ps|] == ps && qs[|ps|].hash == h
    ensures Distinct(Hashes(qs))
  {
    assert Hashes(qs) == Hashes(ps) + [h];
  }

  /**
   * The same mail twice in one batch is notified exactly once when its
   * fingerprint is new, for its first copy, and not at all when it is known:
   * the first copy's add happens before the second copy's contains.
   */
  lemma SameMailTwiceOnce(md5: string -> string, t: TrackerState, m: Mail)
    requires ValidState(t)
    ensures var h := Fingerprint(md5, m);
            Collect(md5, t, [m, m]).pending == if InCache(t, h) then [] else [Pending(0, FormatMail(m).value, h)]
  {
    var h := Fingerprint(md5, m);
    SingleMail(md5, t, m);
    assert [m, m][..1] == [m];
    var c := Collect(md5, t, [m]);
    assert InCache(c.tracker, h) by {
      if !InCache(t, h) {
        assert c.tracker == Added(t, h);
      }
    }
  }

  /** A batch whose every fingerprint is already contained adds nothing and notifies nothing. */
  lemma {:induction false} KnownBatchIsSilent(md5: string -> string, t: TrackerState, mails: seq<Mail>)
    requires ValidState(t)
    requires forall i :: 0 <= i < |mails| ==> InCache(t, Fingerprint(md5, mails[i]))
    ensures Collect(md5, t, mails) == Collected(t, [])
    decreases |mails|
  {
    if mails != [] {
      var n := |mails|;
      KnownBatchIsSilent(md5, t, mails[..n - 1]);
      assert InCache(t, Fingerprint(md5, mails[n - 1]));
    }
  }

  /** A single mail is notified exactly when its fingerprint is not contained. */
  lemma SingleMail(md5: string -> string, t: TrackerState, m: Mail)
    requires ValidState(t)
    ensures var h := Fingerprint(md5, m);
            Collect(md5, t, [m]).pending == if InCache(t, h) then [] else [Pending(0, FormatMail(m).value, h)]
  {
    assert [m][..0] == [];
  }

  /** Some launched notify fails. */
  predicate AnyFailed(ps: seq<Pending>, notifyOk: nat -> bool) {
    exists k :: 0 <= k < |ps| && !notifyOk(ps[k].index)
  }

  /** Some launched notify succeeds and so does the save that follows it. */
  predicate AnySaved(ps: seq<Pending>, notifyOk: nat -> bool, saveOk: nat -> bool) {
    exists k :: 0 <= k < |ps| && notifyOk(ps[k].index) && saveOk(ps[k].index)
  }

  /**
   * The notify blocks complete in launch order: a failed notify calls
   * rollback(), a successful one calls save().
   */
  function Deliver(t: TrackerState, ps: seq<Pending>, notifyOk: nat -> bool, saveOk: nat -> bool): (r: TrackerState)
    requires ValidState(t)
    ensures ValidState(r) && (t.stored.Some? ==> r.stored.Some?)
    decreases |ps|
  {
    if ps == [] then t
    else
      var n := |ps|;
      var r := Deliver(t, ps[..n - 1], notifyOk, saveOk);
      if notifyOk(ps[n - 1].index) then Saved(r, saveOk(ps[n - 1].index)) else RolledBack(r)
  }

  /**
   * However many deliveries fail, at most one rollback takes effect: it
   * moves the pointer back to where the batch's last add found it, drops the
   * undo record and rewrites no slot. Storage is untouched unless some
   * notify and the save after it succeed, since a failed notify rolls back
   * and does not save; when one does, storage holds a copy of the slots
   * with every hash of the batch.
   */
  lemma {:induction false} DeliverEffect(t: TrackerState, ps: seq<Pending>, notifyOk: nat -> bool, saveOk: nat -> bool)
    requires ValidState(t) && BackupMatches(t) && (ps != [] ==> t.backup.Some?)
    ensures var r := Deliver(t, ps, notifyOk, saveOk);
            && r.slots == t.slots
            && BackupMatches(r)
            && (AnyFailed(ps, notifyOk) ==> r.pointer == t.backup.value.pointer && r.backup.None?)
            && (!AnyFailed(ps, notifyOk) ==> r.pointer == t.pointer && r.backup == t.backup)
            && (!AnySaved(ps, notifyOk, saveOk) ==> r.stored == t.stored)
            && (AnySaved(ps, notifyOk, saveOk) ==> r.stored.Some? && r.stored.value.slots == t.slots)
    decreases |ps|
  {
    if ps != [] {
      var n := |ps|;
      DeliverEffect(t, ps[..n - 1], notifyOk, saveOk);
      if AnySaved(ps[..n - 1], notifyOk, saveOk) {
        var k :| 0 <= k < n - 1 && notifyOk(ps[..n - 1][k].index) && saveOk(ps[..n - 1][k].index);
        assert ps[k] == ps[..n - 1][k];
      }
      if notifyOk(ps[n - 1].index) && saveOk(ps[n - 1].index) {
        assert AnySaved(ps, notifyOk, saveOk);
      } else if AnySaved(ps, notifyOk, saveOk) {
        var k :| 0 <= k < n && notifyOk(ps[k].index) && saveOk(ps[k].index);
        assert ps[..n - 1][k] == ps[k];
      }
      if AnyFailed(ps[..n - 1], notifyOk) {
        var k :| 0 <= k < n - 1 && !notifyOk(ps[..n - 1][k].index);
        assert ps[k] == ps[..n - 1][k];
      }
      if !notifyOk(ps[n - 1].index) {
        assert AnyFailed(ps, notifyOk);
      } else if AnyFailed(ps, notifyOk) {
        var k :| 0 <= k < n && !notifyOk(ps[k].index);
        assert ps[..n - 1][k] == ps[k];
      }
    }
  }

  /** What one new-mail message leaves behind: the tracker, and the notifies launched. */
  datatype Outcome = Outcome(tracker: TrackerState, notified: seq<Pending>)

  /**
   * The new-mail callback: nothing without a notifier, for null or empty
   * data, or when reloading the list from storage fails (the error
   * abandons the callback); otherwise reload, collect, deliver.
   */
  function OnNewMails(md5: string -> string, t: TrackerState, data: Option<seq<Mail>>, hasNotifier: bool,
                      readOk: bool, notifyOk: nat -> bool, saveOk: nat -> bool): (o: Outcome)
    requires ValidState(t)
    ensures ValidState(o.tracker) && (t.stored.Some? ==> o.tracker.stored.Some?)
    ensures !hasNotifier || data.None? || data.value == [] || !readOk ==> o == Outcome(t, [])
    ensures hasNotifier && data.Some? && readOk ==> o.notified == Collect(md5, Loaded(t), data.value).pending
  {
    if !hasNotifier || data.None? || data.value == [] || !readOk then Outcome(t, [])
    else
      var c := Collect(md5, Loaded(t), data.value);
      Outcome(Deliver(c.tracker, c.pending, notifyOk, saveOk), c.pending)
  }

  /**
   * A failed notify does not un-mark its mail: with at most SIZE mails in
   * the batch, every hash whose notify was launched is still contained
   * afterwards, whatever the notify and save outcomes.
   */
  lemma LaunchedStaysMarked(md5: string -> string, t: TrackerState, mails: seq<Mail>,
                            notifyOk: nat -> bool, saveOk: nat -> bool)
    requires ValidState(t) && |mails| <= SIZE
    ensures var o := OnNewMails(md5, t, Some(mails), true, true, notifyOk, saveOk);
            forall k :: 0 <= k < |o.notified| ==> InCache(o.tracker, o.notified[k].hash)
  {
    if mails != [] {
      var c := Collect(md5, Loaded(t), mails);
      CollectIsAddAll(md5, Loaded(t), mails);
      CollectedMarked(md5, Loaded(t), mails);
      if c.pending != [] {
        AddedAllLast(Loaded(t), Hashes(c.pending));
        DeliverEffect(c.tracker, c.pending, notifyOk, saveOk);
      }
      var r := Deliver(c.tracker, c.pending, notifyOk, saveOk);
      forall k | 0 <= k < |c.pending|
        ensures InCache(r, c.pending[k].hash)
      {
        assert InCache(c.tracker, c.pending[k].hash);
      }
    }
  }

  /** After a non-empty run of adds the undo record is the last add's and matches its slot. */
  lemma AddedAllLast(t: TrackerState, hs: seq<string>)
    requires ValidState(t) && hs != []
    ensures var r := AddedAll(t, hs);
            r.backup.Some? && BackupMatches(r) && (r.backup.value.pointer + 1) % SIZE == r.pointer
  {
    var n := |hs|;
    assert hs[..n - 1] + [hs[n - 1]] == hs;
    AddedAllStep(t, hs[..n - 1], hs[n - 1]);
  }

  /**
   * When a notify fails, the pointer ends one slot behind where the batch's
   * adds left it, and the undo record is gone.
   */
  lemma {:induction false} FailedNotifyMovesPointerBack(md5: string -> string, t: TrackerState, mails: seq<Mail>,
                                     notifyOk: nat -> bool, saveOk: nat -> bool)
    requires ValidState(t) && mails != []
    requires AnyFailed(Collect(md5, Loaded(t), mails).pending, notifyOk)
    ensures var c := Collect(md5, Loaded(t), mails);
            var o := OnNewMails(md5, t, Some(mails), true, true, notifyOk, saveOk);
            && o.tracker.slots == c.tracker.slots
            && (o.tracker.pointer + 1) % SIZE == c.tracker.pointer
            && o.tracker.backup.None?
  {
    var c := Collect(md5, Loaded(t), mails);
    assert OnNewMails(md5, t, Some(mails), true, true, notifyOk, saveOk).tracker
           == Deliver(c.tracker, c.pending, notifyOk, saveOk);
    FailedBatchMovesPointerBack(md5, Loaded(t), mails, notifyOk, saveOk);
  }

  /** The same for a batch collected on any tracker and then delivered. */
  lemma {:induction false} FailedBatchMovesPointerBack(md5: string -> string, t0: TrackerState, mails: seq<Mail>,
                                                       notifyOk: nat -> bool, saveOk: nat -> bool)
    requires ValidState(t0)
    requires AnyFailed(Collect(md5, t0, mails).pending, notifyOk)
    ensures var c := Collect(md5, t0, mails);
            var r := Deliver(c.tracker, c.pending, notifyOk, saveOk);
            && r.slots == c.tracker.slots
            && (r.pointer + 1) % SIZE == c.tracker.pointer
            && r.backup.None?
  {
    var c := Collect(md5, t0, mails);
    CollectIsAddAll(md5, t0, mails);
    var hs := Hashes(c.pending);
    assert |hs| > 0;
    AddedAllLast(t0, hs);
    DeliverEffect(c.tracker, c.pending, notifyOk, saveOk);
  }

  /** The same, for the deliveries that follow the adds of a batch's hashes. */
  lemma FailedDeliveryMovesPointerBack(t: TrackerState, ps: seq<Pending>, notifyOk: nat -> bool, saveOk: nat -> bool)
    requires ValidState(t) && AnyFailed(ps, notifyOk)
    ensures var before := AddedAll(t, Hashes(ps));
            var r := Deliver(before, ps, notifyOk, saveOk);
            && r.slots == before.slots
            && (r.pointer + 1) % SIZE == before.pointer
            && r.backup.None?
  {
    AddedAllLast(t, Hashes(ps));
    DeliverEffect(AddedAll(t, Hashes(ps)), ps, notifyOk, saveOk);
  }

  /**
   * Re-notification is decided by storage, not by memory: when nothing has
   * been saved yet, a mail whose hash is in memory is not notified again.
   */
  lemma RetrySuppressedWhenNothingStored(md5: string -> string, t: TrackerState, m: Mail,
                                         notifyOk: nat -> bool, saveOk: nat -> bool)
    requires ValidState(t) && t.stored.None? && InCache(t, Fingerprint(md5, m))
    ensures OnNewMails(md5, t, Some([m]), true, true, notifyOk, saveOk).notified == []
  {
    SingleMail(md5, Loaded(t), m);
  }

  /**
   * ... and when storage holds a list without the mail's hash, the reload
   * replaces the cache and the mail is notified again, even though memory
   * still holds its hash.
   */
  lemma RetryRenotifiedWhenStoredLacksIt(md5: string -> string, t: TrackerState, m: Mail,
                                         notifyOk: nat -> bool, saveOk: nat -> bool)
    requires ValidState(t) && t.stored.Some? && Some(Fingerprint(md5, m)) !in t.stored.value.slots
    ensures OnNewMails(md5, t, Some([m]), true, true, notifyOk, saveOk).notified
            == [Pending(0, FormatMail(m).value, Fingerprint(md5, m))]
  {
    SingleMail(md5, Loaded(t), m);
  }

  /** ... and when storage holds a list with the mail's hash, it is not notified again. */
  lemma RetrySuppressedWhenStoredHasIt(md5: string -> string, t: TrackerState, m: Mail,
                                       notifyOk: nat -> bool, saveOk: nat -> bool)
    requires ValidState(t) && t.stored.Some? && Some(Fingerprint(md5, m)) in t.stored.value.slots
    ensures OnNewMails(md5, t, Some([m]), true, true, notifyOk, saveOk).notified == []
  {
    SingleMail(md5, Loaded(t), m);
  }

  /**
   * The service's lifecycle flags and the new-mail listeners it has attached
   * to chrome.runtime.onMessage (each callback an identifier).
   */
  datatype Lifecycle = Lifecycle(callback: Option<nat>, attached: multiset<nat>, nextCallback: nat, isPrepared: bool, isRunning: bool)

  /** At most one listener is attached: the one held in newMailCallback, exactly while running. */
  predicate SingleListener(l: Lifecycle) {
    && (l.isRunning <==> l.callback.Some?)
    && l.attached == (if l.callback.Some? then multiset{l.callback.value} else multiset{})
  }

  /** A new service: no callback, nothing attached, neither prepared nor running. */
  const InitialLife := Lifecycle(None, multiset{}, 0, false, false)

  /** prepare(): on success isPrepared becomes true; on failure nothing changes. */
  function Prepared(l: Lifecycle, ok: bool): (r: Lifecycle)
    ensures r.isPrepared == (l.isPrepared || ok)
    ensures r.callback == l.callback && r.attached == l.attached && r.isRunning == l.isRunning
  {
    if ok then l.(isPrepared := true) else l
  }

  /** run(): a new callback is created and attached, whatever was attached before; isRunning becomes true. */
  function Ran(l: Lifecycle): (r: Lifecycle)
    ensures r.isRunning && r.callback == Some(l.nextCallback) && r.isPrepared == l.isPrepared
    ensures r.attached == l.attached + multiset{l.nextCallback}
  {
    Lifecycle(Some(l.nextCallback), l.attached + multiset{l.nextCallback}, l.nextCallback + 1, l.isPrepared, true)
  }

  /** suspend(): with a callback, detach and drop it and clear isRunning; otherwise nothing. */
  function Suspended(l: Lifecycle): (r: Lifecycle)
    ensures l.callback.None? ==> r == l
    ensures l.callback.Some? ==> r.attached == l.attached - multiset{l.callback.value}
                                 && r.callback.None? && !r.isRunning
    ensures r.isPrepared == l.isPrepared
  {
    match l.callback
    case None => l
    case Some(cb) => l.(callback := None, attached := l.attached - multiset{cb}, isRunning := false)
  }

  /**
   * The onWatcherStateChanged handler on an existing service: ok:false and
   * no change when unprepared; when asked to watch, run() unless already
   * running; otherwise suspend(). The boolean is the `ok` of the reply.
   */
  function WatcherStateChanged(l: Lifecycle, isWatching: bool): (r: (Lifecycle, bool))
    ensures !l.isPrepared ==> r == (l, false)
    ensures l.isPrepared ==> r.1
    ensures SingleListener(l) ==> SingleListener(r.0)
    ensures l.isPrepared && isWatching ==> r.0.isRunning
    ensures l.isPrepared && !isWatching && SingleListener(l) ==> r.0.attached == multiset{}
  {
    if !l.isPrepared then (l, false)
    else if isWatching then (if l.isRunning then (l, true) else (Ran(l), true))
    else (Suspended(l), true)
  }

  /** suspend() twice in a row is the same as once. */
  lemma SuspendIdempotent(l: Lifecycle)
    ensures Suspended(Suspended(l)) == Suspended(l)
  {
  }

  /**
   * run() itself has no guard: on a running service it attaches a second
   * listener, which is why the handler checks isRunning first.
   */
  lemma RunWhileRunningAttachesTwo(l: Lifecycle)
    requires SingleListener(l) && l.isRunning
    ensures |Ran(l).attached| == 2
  {
  }

  /** Asking to watch twice has the effect of asking once. */
  lemma WatchTwiceIsWatchOnce(l: Lifecycle)
    requires SingleListener(l)
    ensures WatcherStateChanged(WatcherStateChanged(l, true).0, true) == WatcherStateChanged(l, true)
  {
  }

  /** MailNotificationService. */
  class MailNotificationService {
    const tracker: NotifiedMailTracker
    /** Whether a notifier object was passed (it is null for an unknown notifierType). */
    const hasNotifier: bool
    var callback: Option<nat>
    var attached: multiset<nat>
    var nextCallback: nat
    var isPrepared: bool
    var isRunning: bool

    ghost function Life(): Lifecycle
      reads this
    {
      Lifecycle(callback, attached, nextCallback, isPrepared, isRunning)
    }

    ghost predicate Valid()
      reads this, tracker, tracker.cache
    {
      tracker.Valid()
    }

    constructor(hasNotifier: bool, tracker: NotifiedMailTracker)
      ensures this.tracker == tracker && this.hasNotifier == hasNotifier
      ensures Life() == InitialLife
    {
      this.tracker := tracker;
      this.hasNotifier := hasNotifier;
      callback := None;
      attached := multiset{};
      nextCallback := 0;
      isPrepared := false;
      isRunning := false;
    }

    /**
     * prepare(): the notifier's and the tracker's prepare run together (the
     * tracker's is a load); isPrepared is set only if both succeed. Without
     * a notifier the call fails before the tracker is asked.
     */
    method Prepare(notifierOk: bool, readOk: bool) returns (ok: bool)
      requires Valid()
      modifies this, tracker
      ensures Valid() && ok == (hasNotifier && notifierOk && readOk)
      ensures Life() == Prepared(old(Life()), ok)
      ensures tracker.State() == if hasNotifier && readOk then Loaded(old(tracker.State())) else old(tracker.State())
      ensures tracker.cache == old(tracker.cache) || fresh(tracker.cache)
    {
      if !hasNotifier {
        return false;
      }
      var loaded := tracker.Load(readOk);
      ok := notifierOk && loaded;
      if ok {
        isPrepared := true;
      }
    }

    method Run()
      modifies this
      ensures Life() == Ran(old(Life()))
    {
      var cb := nextCallback;
      nextCallback := nextCallback + 1;
      callback := Some(cb);
      attached := attached + multiset{cb};
      isRunning := true;
    }

    method Suspend()
      modifies this
      ensures Life() == Suspended(old(Life()))
    {
      if callback.Some? {
        attached := attached - multiset{callback.value};
        callback := None;
        isRunning := false;
      }
    }

    /**
     * The body of newMailCallback for one onNewMailsReceived message:
     * returns the notifies launched, in order.
     */
    method OnNewMailsReceived(md5: string -> string, data: Option<seq<Mail>>, readOk: bool,
                              notifyOk: nat -> bool, saveOk: nat -> bool) returns (notified: seq<Pending>)
      requires Valid()
      modifies tracker, tracker.cache
      ensures Valid()
      ensures var o := OnNewMails(md5, old(tracker.State()), data, hasNotifier, readOk, notifyOk, saveOk);
              tracker.State() == o.tracker && notified == o.notified
    {
      if !hasNotifier || data.None? || data.value == [] {
        return [];
      }
      var loaded := tracker.Load(readOk);
      if !loaded {
        return [];
      }
      notified := CollectBatch(md5, data.value);
      DeliverBatch(notified, notifyOk, saveOk);
    }

    /** The forEach loop: contains / add for every mail, launching the notifies. */
    method CollectBatch(md5: string -> string, mails: seq<Mail>) returns (notified: seq<Pending>)
      requires Valid()
      modifies tracker, tracker.cache
      ensures Valid() && tracker.cache == old(tracker.cache)
      ensures Collected(tracker.State(), notified) == Collect(md5, old(tracker.State()), mails)
    {
      ghost var t0 := tracker.State();
      notified := [];
      var i := 0;
      while i < |mails|
        invariant 0 <= i <= |mails|
        invariant tracker.Valid() && tracker.cache == old(tracker.cache)
        invariant Collected(tracker.State(), notified) == Collect(md5, t0, mails[..i])
      {
        assert mails[..i + 1][..i] == mails[..i];
        ghost var c := Collected(tracker.State(), notified);
        var m := mails[i];
        var h := md5(Stringified(m));
        var text := FormatMail(m);
        if text.Some? {
          var seen := tracker.Contains(h);
          if !seen {
            tracker.Add(h);
            notified := notified + [Pending(i, text.value, h)];
          }
        }
        assert Collected(tracker.State(), notified) == Step(md5, c, mails[..i + 1], i);
        i := i + 1;
      }
      assert mails[..i] == mails;
    }

    /** The launched notify blocks completing in launch order: rollback on failure, else save. */
    method DeliverBatch(notified: seq<Pending>, notifyOk: nat -> bool, saveOk: nat -> bool)
      requires Valid()
      modifies tracker, tracker.cache
      ensures Valid() && tracker.cache == old(tracker.cache)
      ensures tracker.State() == Deliver(old(tracker.State()), notified, notifyOk, saveOk)
    {
      ghost var t0 := tracker.State();
      var k := 0;
      while k < |notified|
        invariant 0 <= k <= |notified|
        invariant tracker.Valid() && tracker.cache == old(tracker.cache)
        invariant tracker.State() == Deliver(t0, notified[..k], notifyOk, saveOk)
      {
        assert notified[..k + 1][..k] == notified[..k];
        var p := notified[k];
        if notifyOk(p.index) {
          var _ := tracker.Save(saveOk(p.index));
        } else {
          tracker.Rollback();
        }
        k := k + 1;
      }
      assert notified[..k] == notified;
    }
  }

  /** The service worker's global `service` and the handlers that use it. */
  class BackgroundWorker {
    var service: MailNotificationService?

    ghost predicate Valid()
      reads this, service
      reads if service != null then {service.tracker, service.tracker.cache} else {}
    {
      service != null ==> service.Valid() && SingleListener(service.Life())
    }

    constructor()
      ensures Valid() && service == null
    {
      service := null;
    }

    /**
     * The onWatcherStateChanged handler: ok:false and no change without a
     * prepared service; the listener count stays at most one.
     */
    method OnWatcherStateChanged(isWatching: bool) returns (ok: bool)
      requires Valid()
      modifies service
      ensures Valid() && service == old(service)
      ensures service == null ==> !ok
      ensures service != null ==> (service.Life(), ok) == WatcherStateChanged(old(service.Life()), isWatching)
    {
      if service == null || !service.isPrepared {
        return false;
      }
      if isWatching {
        if service.isRunning {
          return true;
        }
        service.Run();
      } else {
        service.Suspend();
      }
      ok := true;
    }

    /**
     * The startup block: read the three settings (missing ones take the
     * defaults "chrome", false, false); without saved settings do nothing.
     * For "chrome" the block calls `new ChromeNotifier()`, a class no loaded
     * script defines, so the ReferenceError ends the block before a tracker
     * or service is built. Otherwise build a new tracker and service (with
     * a notifier only for "slack": for any other type the global `notifier`
     * is still undefined), suspend, prepare, and run when watching. A
     * failure in prepare ends the block.
     */
    method Startup(notifierType: Option<string>, hasSavedNotifierSettings: Option<bool>, isWatching: Option<bool>,
                   stored: Option<Snapshot>, notifierOk: bool, readOk: bool)
      requires Valid() && ValidStored(stored)
      modifies this
      ensures Valid()
      ensures !hasSavedNotifierSettings.GetOr(false) || notifierType.GetOr("chrome") == "chrome" ==> service == old(service)
      ensures hasSavedNotifierSettings.GetOr(false) && notifierType.GetOr("chrome") != "chrome" ==>
                && service != null && fresh(service)
                && service.hasNotifier == (notifierType.GetOr("chrome") == "slack")
                && service.isPrepared == (service.hasNotifier && notifierOk && readOk)
                && service.isRunning == (service.isPrepared && isWatching.GetOr(false))
    {
      var kind := notifierType.GetOr("chrome");
      var watching := isWatching.GetOr(false);
      if !hasSavedNotifierSettings.GetOr(false) {
        return;
      }
      if kind == "chrome" {
        // new ChromeNotifier() throws: the block ends here
        return;
      }
      var tracker := new NotifiedMailTracker(stored);
      var s := new MailNotificationService(kind == "slack", tracker);
      service := s;
      if !s.isPrepared {
        s.Suspend();
        var ok := s.Prepare(notifierOk, readOk);
        if !ok {
          return;
        }
      }
      if watching && !s.isRunning {
        s.Run();
      }
    }
  }
}
