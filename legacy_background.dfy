/**
 * The service worker of the legacy version (scripts/background.js): a
 * singleton MailNotificationService with the same per-mail forEach body
 * as the current version, the onWatcherStateChanged and onSaveButtonClicked
 * handlers and the startup block, on top of the legacy tracker.
 *
 * The legacy tracker defines neither prepare() nor rollback(). Calling the
 * missing prepare() throws inside the service's prepare(), so preparation
 * never succeeds; calling the missing rollback() after a failed notify
 * throws inside the notify block, so the hash stays cached and nothing is
 * saved for that mail. The service runs only through the watcher-state
 * handler, which does not look at isPrepared.
 *
 * As in the current version the forEach body runs synchronously for every
 * mail and launches un-awaited notify-then-save blocks, so the model has a
 * collection phase and a delivery phase, with outcomes applied in launch
 * order; `notifyOk(i)` and `saveOk(i)` are the outcomes for mail i.
 */
module LegacyBackground {
  import opened Optional
  import opened Mails
  import opened RingSlots
  import opened LegacyTracker
  import opened LegacyUtils
  import Background

  /** The tracker after the synchronous phase, and the notify blocks it launched, in order. */
  datatype Collected = Collected(tracker: LegacyState, pending: seq<Background.Pending>)

  /**
   * Every launched notify is for a mail of the batch, with that mail's
   * fingerprint and formatted text, and they are launched in batch order.
   */
  predicate FromBatch(md5: string -> string, mails: seq<Mail>, ps: seq<Background.Pending>) {
    && (forall k :: 0 <= k < |ps| ==>
          && ps[k].index < |mails|
          && ps[k].hash == Fingerprint(md5, mails[ps[k].index])
          && FormatMail(mails[ps[k].index]) == Some(ps[k].text))
    && (forall j, k :: 0 <= j < k < |ps| ==> ps[j].index < ps[k].index)
  }

  /**
   * The forEach body for mail i: compute the hash, drop the mail if
   * formatMail rejects it, skip it if the hash is contained, otherwise add
   * the hash and launch its notify block.
   */
  function Step(md5: string -> string, c: Collected, mails: seq<Mail>, i: nat): (r: Collected)
    requires ValidState(c.tracker) && i < |mails|
    ensures ValidState(r.tracker) && r.tracker.stored == c.tracker.stored
  {
    var h := Fingerprint(md5, mails[i]);
    match FormatMail(mails[i])
    case None => c
    case Some(text) =>
      if InCache(c.tracker, h) then c
      else Collected(Added(c.tracker, h), c.pending + [Background.Pending(i, text, h)])
  }

  /** The synchronous phase over the whole batch. */
  function Collect(md5: string -> string, t: LegacyState, mails: seq<Mail>): (c: Collected)
    requires ValidState(t)
    ensures ValidState(c.tracker) && c.tracker.stored == t.stored
    ensures |c.pending| <= |mails|
    decreases |mails|
  {
    if mails == [] then Collected(t, [])
    else Step(md5, Collect(md5, t, mails[..|mails| - 1]), mails, |mails| - 1)
  }

  /** The last mail of a non-empty batch either changes nothing or is added and launched. */
  lemma CollectLast(md5: string -> string, t: LegacyState, mails: seq<Mail>)
    requires ValidState(t) && mails != []
    ensures var n := |mails|;
            var c := Collect(md5, t, mails[..n - 1]);
            var r := Collect(md5, t, mails);
            var h := Fingerprint(md5, mails[n - 1]);
            || r == c
            || (&& !InCache(c.tracker, h) && FormatMail(mails[n - 1]).Some?
                && r == Collected(Added(c.tracker, h), c.pending + [Background.Pending(n - 1, FormatMail(mails[n - 1]).value, h)]))
  {
  }

  /** Launched notifies drawn from a batch's prefix are drawn from the batch, all before its last mail. */
  lemma FromBatchExtends(md5: string -> string, mails: seq<Mail>, ps: seq<Background.Pending>)
    requires mails != [] && FromBatch(md5, mails[..|mails| - 1], ps)
    ensures FromBatch(md5, mails, ps)
    ensures forall k :: 0 <= k < |ps| ==> ps[k].index < |mails| - 1
  {
    forall k | 0 <= k < |ps|
      ensures mails[..|mails| - 1][ps[k].index] == mails[ps[k].index]
    {
    }
  }

  /** Each launched notify carries the hash and text of a distinct mail of the batch, in batch order. */
  lemma {:induction false} CollectFromBatch(md5: string -> string, t: LegacyState, mails: seq<Mail>)
    requires ValidState(t)
    ensures FromBatch(md5, mails, Collect(md5, t, mails).pending)
    decreases |mails|
  {
    if mails != [] {
      var n := |mails|;
      var c := Collect(md5, t, mails[..n - 1]);
      CollectFromBatch(md5, t, mails[..n - 1]);
      CollectLast(md5, t, mails);
      FromBatchExtends(md5, mails, c.pending);
      var r := Collect(md5, t, mails);
      if r != c {
        FromBatchSnoc(md5, mails, c.pending, r.pending[|r.pending| - 1]);
      }
    }
  }

  /** A launch for a later mail of the batch, with its hash and text, extends the launches in order. */
  lemma FromBatchSnoc(md5: string -> string, mails: seq<Mail>, ps: seq<Background.Pending>, p: Background.Pending)
    requires FromBatch(md5, mails, ps) && forall k :: 0 <= k < |ps| ==> ps[k].index < p.index
    requires p.index < |mails| && p.hash == Fingerprint(md5, mails[p.index])
    requires FormatMail(mails[p.index]) == Some(p.text)
    ensures FromBatch(md5, mails, ps + [p])
  {
  }

  /** The tracker after the synchronous phase is the one add() of each launched hash, in order. */
  lemma {:induction false} CollectIsAddAll(md5: string -> string, t: LegacyState, mails: seq<Mail>)
    requires ValidState(t)
    ensures Collect(md5, t, mails).tracker == AddedAll(t, Background.Hashes(Collect(md5, t, mails).pending))
    decreases |mails|
  {
    if mails != [] {
      CollectIsAddAll(md5, t, mails[..|mails| - 1]);
      CollectIsAddAllStep(md5, t, mails);
    }
  }

  /** The inductive step of CollectIsAddAll: the last mail adds its hash exactly when it is launched. */
  lemma {:induction false} CollectIsAddAllStep(md5: string -> string, t: LegacyState, mails: seq<Mail>)
    requires ValidState(t) && mails != []
    requires var c := Collect(md5, t, mails[..|mails| - 1]); c.tracker == AddedAll(t, Background.Hashes(c.pending))
    ensures Collect(md5, t, mails).tracker == AddedAll(t, Background.Hashes(Collect(md5, t, mails).pending))
  {
    var c := Collect(md5, t, mails[..|mails| - 1]);
    var r := Collect(md5, t, mails);
    CollectLast(md5, t, mails);
    if r != c {
      AddedAllSnoc(t, c.pending, r.pending[|r.pending| - 1]);
    }
  }

  /** Adding the hashes of one more launch is one more add(). */
  lemma AddedAllSnoc(t: LegacyState, ps: seq<Background.Pending>, p: Background.Pending)
    requires ValidState(t)
    ensures AddedAll(t, Background.Hashes(ps + [p])) == Added(AddedAll(t, Background.Hashes(ps)), p.hash)
  {
    assert Background.Hashes(ps + [p]) == Background.Hashes(ps) + [p.hash];
    AddedAllStep(t, Background.Hashes(ps), p.hash);
  }

  /** Appending one launch whose hash is new keeps the launched hashes distinct. */
  lemma DistinctSnoc(ps: seq<Background.Pending>, qs: seq<Background.Pending>, h: string)
    requires Distinct(Background.Hashes(ps)) && h !in Background.Hashes(ps)
    requires |qs| == |ps| + 1 && qs[..|ps|] == ps && qs[|ps|].hash == h
    ensures Distinct(Background.Hashes(qs))
  {
    assert Background.Hashes(qs) == Background.Hashes(ps) + [h];
  }

  /**
   * As in the current version, a batch of at most SIZE mails notifies each
   * fingerprint at most once: the add of a first copy happens before the
   * contains of a second.
   */
  lemma {:induction false} NotifiesEachHashOnce(md5: string -> string, t: LegacyState, mails: seq<Mail>)
    requires ValidState(t) && |mails| <= SIZE
    ensures Distinct(Background.Hashes(Collect(md5, t, mails).pending))
    decreases |mails|
  {
    if mails != [] {
      NotifiesEachHashOnce(md5, t, mails[..|mails| - 1]);
      NotifiesEachHashOnceStep(md5, t, mails);
    }
  }

  /** The inductive step of NotifiesEachHashOnce: a launched last mail's hash is not among the earlier ones. */
  lemma {:induction false} NotifiesEachHashOnceStep(md5: string -> string, t: LegacyState, mails: seq<Mail>)
    requires ValidState(t) && mails != [] && |mails| <= SIZE
    requires Distinct(Background.Hashes(Collect(md5, t, mails[..|mails| - 1]).pending))
    ensures Distinct(Background.Hashes(Collect(md5, t, mails).pending))
  {
    var n := |mails|;
    var c := Collect(md5, t, mails[..n - 1]);
    var r := Collect(md5, t, mails);
    CollectedMarked(md5, t, mails[..n - 1]);
    CollectLast(md5, t, mails);
    if r.pending != c.pending {
      DistinctSnoc(c.pending, r.pending, Fingerprint(md5, mails[n - 1]));
    }
  }

  /** With at most SIZE mails, every hash launched by the synchronous phase is contained at its end. */
  lemma {:induction false} CollectedMarked(md5: string -> string, t: LegacyState, mails: seq<Mail>)
    requires ValidState(t) && |mails| <= SIZE
    ensures forall k :: 0 <= k < |Collect(md5, t, mails).pending|
                        ==> InCache(Collect(md5, t, mails).tracker, Collect(md5, t, mails).pending[k].hash)
  {
    var c := Collect(md5, t, mails);
    CollectIsAddAll(md5, t, mails);
    forall k | 0 <= k < |c.pending|
      ensures InCache(c.tracker, c.pending[k].hash)
    {
      AddedAllContains(t, Background.Hashes(c.pending), k);
    }
  }

  /** A batch whose every fingerprint is already contained adds nothing and notifies nothing. */
  lemma {:induction false} KnownBatchIsSilent(md5: string -> string, t: LegacyState, mails: seq<Mail>)
    requires ValidState(t)
    requires forall i :: 0 <= i < |mails| ==> InCache(t, Fingerprint(md5, mails[i]))
    ensures Collect(md5, t, mails) == Collected(t, [])
    decreases |mails|
  {
    if mails != [] {
      var n := |mails|;
      KnownBatchIsSilent(md5, t, mails[..n - 1]);
      assert InCache(t, Fingerprint(md5, mails[n - 1]));
    }
  }

  /**
   * The notify blocks complete in launch order: a successful notify calls
   * saveNotifiedMailList(); a failed one calls the missing rollback(),
   * which throws, so nothing at all happens for it.
   */
  function Deliver(t: LegacyState, ps: seq<Background.Pending>, notifyOk: nat -> bool, saveOk: nat -> bool): (r: LegacyState)
    requires ValidState(t)
    ensures ValidState(r) && r.slots == t.slots && r.pointer == t.pointer
    ensures r.stored == t.stored || r.stored == Some(Snapshot(t.slots, t.pointer))
    decreases |ps|
  {
    if ps == [] then t
    else
      var n := |ps|;
      var r := Deliver(t, ps[..n - 1], notifyOk, saveOk);
      if notifyOk(ps[n - 1].index) then Saved(r, saveOk(ps[n - 1].index)) else r
  }

  /**
   * Storage after the delivery phase holds the collected state exactly when
   * some notify and the save after it succeeded; otherwise it is untouched.
   */
  lemma {:induction false} DeliverStores(t: LegacyState, ps: seq<Background.Pending>, notifyOk: nat -> bool, saveOk: nat -> bool)
    requires ValidState(t)
    ensures Deliver(t, ps, notifyOk, saveOk).stored
            == if Background.AnySaved(ps, notifyOk, saveOk) then Some(Snapshot(t.slots, t.pointer)) else t.stored
    decreases |ps|
  {
    if ps != [] {
      var n := |ps|;
      DeliverStores(t, ps[..n - 1], notifyOk, saveOk);
      if Background.AnySaved(ps[..n - 1], notifyOk, saveOk) {
        var k :| 0 <= k < n - 1 && notifyOk(ps[..n - 1][k].index) && saveOk(ps[..n - 1][k].index);
        assert ps[k] == ps[..n - 1][k];
      }
      if notifyOk(ps[n - 1].index) && saveOk(ps[n - 1].index) {
        assert Background.AnySaved(ps, notifyOk, saveOk);
      } else if Background.AnySaved(ps, notifyOk, saveOk) {
        var k :| 0 <= k < n && notifyOk(ps[k].index) && saveOk(ps[k].index);
        assert ps[..n - 1][k] == ps[k];
      }
    }
  }

  /** What one new-mail message leaves behind: the tracker, and the notifies launched. */
  datatype Outcome = Outcome(tracker: LegacyState, notified: seq<Background.Pending>)

  /**
   * The new-mail callback: nothing for null or empty data; otherwise
   * loadNotifiedMailList() (whose storage errors are logged and dropped, so
   * a failed read leaves memory as it is and the batch goes on), collect,
   * deliver.
   */
  function OnNewMails(md5: string -> string, t: LegacyState, data: Option<seq<Mail>>,
                      readOk: bool, notifyOk: nat -> bool, saveOk: nat -> bool): (o: Outcome)
    requires ValidState(t)
    ensures ValidState(o.tracker)
    ensures data.None? || data.value == [] ==> o == Outcome(t, [])
    ensures data.Some? ==> o.notified == Collect(md5, if readOk then Loaded(t) else t, data.value).pending
  {
    if data.None? || data.value == [] then Outcome(t, [])
    else
      var c := Collect(md5, if readOk then Loaded(t) else t, data.value);
      Outcome(Deliver(c.tracker, c.pending, notifyOk, saveOk), c.pending)
  }

  /**
   * A failed notify leaves its mail marked: with at most SIZE mails in the
   * batch, every hash whose notify was launched is still contained
   * afterwards, and the pointer is where the adds left it.
   */
  lemma {:induction false} LaunchedStaysMarked(md5: string -> string, t: LegacyState, mails: seq<Mail>, readOk: bool,
                            notifyOk: nat -> bool, saveOk: nat -> bool)
    requires ValidState(t) && |mails| <= SIZE
    ensures var o := OnNewMails(md5, t, Some(mails), readOk, notifyOk, saveOk);
            forall k :: 0 <= k < |o.notified| ==> InCache(o.tracker, o.notified[k].hash)
  {
    if mails != [] {
      var t0 := if readOk then Loaded(t) else t;
      var c := Collect(md5, t0, mails);
      CollectedMarked(md5, t0, mails);
      var r := Deliver(c.tracker, c.pending, notifyOk, saveOk);
      assert OnNewMails(md5, t, Some(mails), readOk, notifyOk, saveOk) == Outcome(r, c.pending);
      forall k | 0 <= k < |c.pending|
        ensures InCache(r, c.pending[k].hash)
      {
        assert InCache(c.tracker, c.pending[k].hash);
      }
    }
  }

  /**
   * Once any notify of the batch and its save succeed, storage holds every
   * hash launched in the batch, including those whose notify failed.
   */
  lemma {:induction false} SavedBatchStoresAllLaunched(md5: string -> string, t: LegacyState, mails: seq<Mail>, readOk: bool,
                                    notifyOk: nat -> bool, saveOk: nat -> bool)
    requires ValidState(t) && |mails| <= SIZE
    requires Background.AnySaved(Collect(md5, if readOk then Loaded(t) else t, mails).pending, notifyOk, saveOk)
    ensures var o := OnNewMails(md5, t, Some(mails), readOk, notifyOk, saveOk);
            && o.tracker.stored == Some(Snapshot(o.tracker.slots, o.tracker.pointer))
            && forall k :: 0 <= k < |o.notified| ==> Some(o.notified[k].hash) in o.tracker.stored.value.slots
  {
    var t0 := if readOk then Loaded(t) else t;
    var c := Collect(md5, t0, mails);
    DeliverStores(c.tracker, c.pending, notifyOk, saveOk);
    LaunchedStaysMarked(md5, t, mails, readOk, notifyOk, saveOk);
  }

  /**
   * A failed read of the stored list does not stop the batch: it is
   * deduplicated against memory alone.
   */
  lemma ReadFailureUsesMemory(md5: string -> string, t: LegacyState, mails: seq<Mail>,
                              notifyOk: nat -> bool, saveOk: nat -> bool)
    requires ValidState(t) && mails != []
    ensures OnNewMails(md5, t, Some(mails), false, notifyOk, saveOk).notified == Collect(md5, t, mails).pending
  {
  }

  /**
   * The service's flags and the new-mail listeners it has attached to
   * chrome.runtime.onMessage (each callback an identifier). There is no
   * isRunning flag.
   */
  datatype Lifecycle = Lifecycle(callback: Option<nat>, attached: multiset<nat>, nextCallback: nat, isPrepared: bool)

  /** The attached listeners are exactly the one held in newMailCallback, if any. */
  predicate NoLeak(l: Lifecycle) {
    l.attached == if l.callback.Some? then multiset{l.callback.value} else multiset{}
  }

  /** A new service: no callback, nothing attached, not prepared. */
  const InitialLife := Lifecycle(None, multiset{}, 0, false)

  /** run(): a new callback is created, attached and stored, replacing the reference to any earlier one. */
  function Ran(l: Lifecycle): (r: Lifecycle)
    ensures r.callback == Some(l.nextCallback) && r.isPrepared == l.isPrepared
    ensures r.attached == l.attached + multiset{l.nextCallback}
  {
    Lifecycle(Some(l.nextCallback), l.attached + multiset{l.nextCallback}, l.nextCallback + 1, l.isPrepared)
  }

  /** suspend(): with a callback, detach and drop it; otherwise nothing. */
  function Suspended(l: Lifecycle): (r: Lifecycle)
    ensures l.callback.None? ==> r == l
    ensures l.callback.Some? ==> r.attached == l.attached - multiset{l.callback.value} && r.callback.None?
    ensures r.isPrepared == l.isPrepared
  {
    match l.callback
    case None => l
    case Some(cb) => l.(callback := None, attached := l.attached - multiset{cb})
  }

  /**
   * run(); run(); suspend() from a service with nothing attached: the first
   * listener is left attached and the service no longer holds it.
   */
  lemma RunTwiceThenSuspendLeaksOne(l: Lifecycle)
    requires NoLeak(l) && l.callback.None?
    ensures var r := Suspended(Ran(Ran(l)));
            r.callback.None? && r.attached == multiset{l.nextCallback} && !NoLeak(r)
  {
  }

  /**
   * The onWatcherStateChanged handler: run() on a truthy state, suspend()
   * on a falsy one, and always reply ok:true; isPrepared is not consulted.
   */
  function WatcherStateChanged(l: Lifecycle, isWatching: bool): (r: (Lifecycle, bool))
    ensures r.1
    ensures r.0.isPrepared == l.isPrepared
    ensures isWatching ==> r.0.callback.Some?
    ensures !isWatching ==> r.0.callback.None?
  {
    if isWatching then (Ran(l), true) else (Suspended(l), true)
  }

  /**
   * From a state without leaked listeners, a stop message keeps it so and
   * a start message keeps it so exactly when no listener was attached.
   */
  lemma WatcherStateLeaksIffRunning(l: Lifecycle, isWatching: bool)
    requires NoLeak(l) && l.nextCallback !in l.attached
    ensures !isWatching ==> NoLeak(WatcherStateChanged(l, false).0)
    ensures isWatching ==> (NoLeak(WatcherStateChanged(l, true).0) <==> l.callback.None?)
  {
    if isWatching && l.callback.Some? {
      var r := WatcherStateChanged(l, true).0;
      assert l.callback.value in r.attached;
    }
  }

  /** The stored settings the save handler writes and clears: None for a missing key. */
  datatype Settings = Settings(slackAPIToken: Option<string>, slackChannelID: Option<string>, hasSavedSettings: Option<bool>)

  /** A setting is truthy when present and not the empty string. */
  predicate Truthy(s: Option<string>) {
    s.Some? && s.value != ""
  }

  /**
   * The onSaveButtonClicked handler on the stored settings. With an empty
   * token or channel id there is no reply and nothing is written. Otherwise
   * the three settings are written (`setOk`), then suspend() and prepare(),
   * which always throws; so the settings are removed again (`removeOk`) and
   * the reply is ok:false either way. The result is the new settings,
   * whether suspend() was reached, and the reply's `ok`, if any.
   */
  function SaveButtonClicked(s: Settings, token: Option<string>, channel: Option<string>,
                             setOk: bool, removeOk: bool): (r: (Settings, bool, Option<bool>))
    ensures !Truthy(token) || !Truthy(channel) ==> r == (s, false, None)
    ensures Truthy(token) && Truthy(channel) ==> r.2 == Some(false)
    ensures r.1 <==> Truthy(token) && Truthy(channel) && setOk
    ensures Truthy(token) && Truthy(channel) && removeOk ==> r.0 == Settings(None, None, None)
  {
    if !Truthy(token) || !Truthy(channel) then (s, false, None)
    else
      var written := if setOk then Settings(token, channel, Some(true)) else s;
      var cleared := if removeOk then Settings(None, None, None) else written;
      (cleared, setOk, Some(false))
  }

  /** The save button never reports success, and never leaves hasSavedSettings set when removal works. */
  lemma SaveNeverSucceeds(s: Settings, token: Option<string>, channel: Option<string>, setOk: bool, removeOk: bool)
    requires removeOk
    ensures var r := SaveButtonClicked(s, token, channel, setOk, removeOk);
            r.2 != Some(true) && (r.0.hasSavedSettings == Some(true) ==> s.hasSavedSettings == Some(true))
  {
  }

  /** The legacy MailNotificationService. */
  class LegacyMailNotificationService {
    const tracker: LegacyNotifiedMailTracker
    var callback: Option<nat>
    var attached: multiset<nat>
    var nextCallback: nat
    var isPrepared: bool

    ghost function Life(): Lifecycle
      reads this
    {
      Lifecycle(callback, attached, nextCallback, isPrepared)
    }

    ghost predicate Valid()
      reads this, tracker, tracker.cache
    {
      tracker.Valid()
    }

    /** The body that runs when no instance exists yet. */
    constructor(tracker: LegacyNotifiedMailTracker)
      ensures this.tracker == tracker && Life() == InitialLife
    {
      this.tracker := tracker;
      callback := None;
      attached := multiset{};
      nextCallback := 0;
      isPrepared := false;
    }

    /**
     * prepare(): the tracker has no prepare(), so building the Promise.all
     * argument throws, the error is rethrown and isPrepared stays false.
     */
    method Prepare() returns (ok: bool)
      ensures !ok
    {
      ok := false;
    }

    method Run()
      modifies this
      ensures Life() == Ran(old(Life()))
    {
      var cb := nextCallback;
      nextCallback := nextCallback + 1;
      callback := Some(cb);
      attached := attached + multiset{cb};
    }

    method Suspend()
      modifies this
      ensures Life() == Suspended(old(Life()))
    {
      if callback.Some? {
        attached := attached - multiset{callback.value};
        callback := None;
      }
    }

    /** The body of newMailCallback for one onNewMailsReceived message: returns the notifies launched. */
    method OnNewMailsReceived(md5: string -> string, data: Option<seq<Mail>>, readOk: bool,
                              notifyOk: nat -> bool, saveOk: nat -> bool) returns (notified: seq<Background.Pending>)
      requires Valid()
      modifies tracker, tracker.cache
      ensures Valid()
      ensures var o := OnNewMails(md5, old(tracker.State()), data, readOk, notifyOk, saveOk);
              tracker.State() == o.tracker && notified == o.notified
    {
      if data.None? || data.value == [] {
        return [];
      }
      tracker.LoadNotifiedMailList(readOk);
      notified := CollectBatch(md5, data.value);
      DeliverBatch(notified, notifyOk, saveOk);
    }

    /** The forEach loop: contains / add for every mail, launching the notifies. */
    method CollectBatch(md5: string -> string, mails: seq<Mail>) returns (notified: seq<Background.Pending>)
      requires Valid()
      modifies tracker, tracker.cache
      ensures Valid() && tracker.cache == old(tracker.cache)
      ensures Collected(tracker.State(), notified) == Collect(md5, old(tracker.State()), mails)
    {
      ghost var t0 := tracker.State();
      notified := [];
      var i := 0;
      while i < |mails|
        invariant 0 <= i <= |mails|
        invariant tracker.Valid() && tracker.cache == old(tracker.cache)
        invariant Collected(tracker.State(), notified) == Collect(md5, t0, mails[..i])
      {
        assert mails[..i + 1][..i] == mails[..i];
        ghost var c := Collected(tracker.State(), notified);
        var m := mails[i];
        var h := md5(Stringified(m));
        var text := FormatMail(m);
        if text.Some? {
          var seen := tracker.Contains(h);
          if !seen {
            tracker.Add(h);
            notified := notified + [Background.Pending(i, text.value, h)];
          }
        }
        assert Collected(tracker.State(), notified) == Step(md5, c, mails[..i + 1], i);
        i := i + 1;
      }
      assert mails[..i] == mails;
    }

    /** The launched notify blocks completing in launch order: save after a success, nothing after a failure. */
    method DeliverBatch(notified: seq<Background.Pending>, notifyOk: nat -> bool, saveOk: nat -> bool)
      requires Valid()
      modifies tracker
      ensures Valid() && tracker.cache == old(tracker.cache)
      ensures tracker.State() == Deliver(old(tracker.State()), notified, notifyOk, saveOk)
    {
      ghost var t0 := tracker.State();
      var k := 0;
      while k < |notified|
        invariant 0 <= k <= |notified|
        invariant tracker.Valid() && tracker.cache == old(tracker.cache)
        invariant tracker.State() == Deliver(t0, notified[..k], notifyOk, saveOk)
      {
        assert notified[..k + 1][..k] == notified[..k];
        var p := notified[k];
        if notifyOk(p.index) {
          tracker.SaveNotifiedMailList(saveOk(p.index));
        }
        k := k + 1;
      }
      assert notified[..k] == notified;
    }
  }

  /** The static `instance` field of MailNotificationService. */
  class ServiceInstance {
    var instance: LegacyMailNotificationService?

    constructor()
      ensures instance == null
    {
      instance := null;
    }

    /**
     * new MailNotificationService(notifier, tracker): the first call builds
     * and records an instance; every later call returns that instance and
     * ignores its arguments.
     */
    method New(tracker: LegacyNotifiedMailTracker) returns (s: LegacyMailNotificationService)
      modifies this
      ensures old(instance) != null ==> s == old(instance) && instance == old(instance)
      ensures old(instance) == null ==> fresh(s) && s.tracker == tracker && s.Life() == InitialLife && instance == s
    {
      if instance != null {
        return instance;
      }
      s := new LegacyMailNotificationService(tracker);
      instance := s;
    }
  }

  /** The service worker's globals and the handlers that use them. */
  class LegacyBackgroundWorker {
    const service: LegacyMailNotificationService
    var settings: Settings

    ghost predicate Valid()
      reads this, service, service.tracker, service.tracker.cache
    {
      service.Valid()
    }

    /** The top level: a tracker and the service built through the singleton constructor. */
    constructor(registry: ServiceInstance, settings: Settings, stored: Option<Snapshot>)
      requires registry.instance == null && ValidStored(stored)
      modifies registry
      ensures Valid() && fresh(service) && fresh(service.tracker)
      ensures service.Life() == InitialLife && service.tracker.State() == Initial(stored)
      ensures this.settings == settings && registry.instance == service
    {
      var tracker := new LegacyNotifiedMailTracker(stored);
      var s := registry.New(tracker);
      service := s;
      this.settings := settings;
    }

    /**
     * The startup block: when hasSavedSettings (false if missing) is set
     * and the service is not prepared, suspend() and prepare(); prepare()
     * throws, so run() is never reached. The service ends without a callback.
     */
    method Startup()
      modifies service
      ensures !(settings.hasSavedSettings.GetOr(false) && !old(service.isPrepared)) ==> service.Life() == old(service.Life())
      ensures settings.hasSavedSettings.GetOr(false) && !old(service.isPrepared) ==>
                service.Life() == Suspended(old(service.Life()))
    {
      if settings.hasSavedSettings.GetOr(false) && !service.isPrepared {
        service.Suspend();
        var ok := service.Prepare();
        // prepare() has thrown: the block ends here and run() is not called.
      }
    }

    /** The onWatcherStateChanged handler. */
    method OnWatcherStateChanged(isWatching: bool) returns (ok: bool)
      modifies service
      ensures (service.Life(), ok) == WatcherStateChanged(old(service.Life()), isWatching)
    {
      if isWatching {
        service.Run();
      } else {
        service.Suspend();
      }
      ok := true;
    }

    /** The onSaveButtonClicked handler: returns the reply's `ok`, None when there is no reply. */
    method OnSaveButtonClicked(token: Option<string>, channel: Option<string>, setOk: bool, removeOk: bool)
      returns (reply: Option<bool>)
      modifies this, service
      ensures var r := SaveButtonClicked(old(settings), token, channel, setOk, removeOk);
              settings == r.0 && reply == r.2
              && service.Life() == if r.1 then Suspended(old(service.Life())) else old(service.Life())
    {
      if !Truthy(token) || !Truthy(channel) {
        return None;
      }
      if setOk {
        settings := Settings(token, channel, Some(true));
        service.Suspend();
        var ok := service.Prepare();
      }
      if removeOk {
        settings := Settings(None, None, None);
      }
      reply := Some(false);
    }
  }
}
