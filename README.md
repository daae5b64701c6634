# Mailnara-Notifier: the notified-mail deduplication pipeline in Dafny

Mailnara-Notifier is a browser extension. A content script (the watcher)
scrapes unread rows from a webmail inbox page. It sends them to a service
worker, which announces each mail once through a notifier. The only
notifier the scripts define posts a Slack message; the current version's
default type "chrome" names a `ChromeNotifier` class that no script
defines. To avoid announcing a mail twice, the
service keeps the MD5 fingerprints of announced mails in a 500-slot ring,
`NotifiedMailTracker`. The ring is persisted in `chrome.storage` under
`notifiedMailHashes` and `oldestNotifiedMailPointer`.

The repository holds two versions of this pipeline, and both are modelled,
one Dafny module per source file:

| source file | module | form |
|---|---|---|
| src/scripts/tracker.js | `Tracker` | class `NotifiedMailTracker` over an `array<Slot>`, specified by functions on `TrackerState` |
| scripts/tracker.js | `LegacyTracker` | class `LegacyNotifiedMailTracker`, specified by functions on `LegacyState` |
| both trackers | `RingSlots` | the ring size, consecutive writes round the ring, the `includes` scan, the `load` fallback rule |
| src/scripts/background.js | `Background` | class `MailNotificationService` with the new-mail callback, lifecycle functions, the watcher-state handler and startup |
| scripts/background.js | `LegacyBackground` | the singleton service, the watcher-state and save-button handlers, startup |
| src/scripts/utils.js, scripts/utils.js | `Utils`, `LegacyUtils` | `verify`, `formatMail`, and a reader that parses the text back |
| src/scripts/watcher.js, scripts/watcher.js | `Watcher`, `LegacyWatcher` | URL target test, unread-row filter, title building, observer bookkeeping |
| both watchers | `Mails` | the `Mail` record and the fingerprint key |

How the model is organised:

- **Trackers.** Each tracker's value is a datatype: the slots, the pointer, the undo record (current version only) and what storage holds.
  - Pure functions (`Added`, `RolledBack`, `Saved`, `Loaded`) give the new value.
  - Each class method is proved to move its object from `State()` to that function of the old state.
  - `AddedAll` is a closed form for a run of adds. `AddedAllStep` proves it equal to adding the hashes one at a time.
  - The ring properties (eviction, where the pointer points, what stays contained) are lemmas about `AddedAll`.
- **New-mail callback.** The callback's `forEach` runs synchronously for every mail, and each added mail launches an un-awaited notify-then-save block. So every `contains`/`add` of a batch happens before any notify outcome is applied.
  - The model has two phases, `Collect` (the loop) and `Deliver` (outcomes applied in launch order).
  - The service's `CollectBatch` and `DeliverBatch` are loops proved equal to those functions.
- **Parameters.**
  - MD5 and `encodeURIComponent` are function parameters (`md5`, `encode`).
  - The success of storage reads, storage writes, `notify` and the notifier's `prepare` is a boolean parameter. Per-mail outcomes are `notifyOk(i)` and `saveOk(i)` for mail `i` of the batch.
  - The page is passed in as the current URL and an optional sequence of rows.

## Where the code does not do what it evidently intends

The model follows the code. Each point below is proved.

- **Rollback does not un-mark a mail.** After a failed notify the code calls `this.tracker.rollback()` and logs "rollback added hash" (src/scripts/background.js:85-86), so the intent is to un-mark the mail so that a later batch announces it again. In the current tracker, `add` saves the slot at the *old* pointer and writes the hash one slot further on. `rollback` therefore only moves the pointer back, and the hash stays contained (`Tracker.RollbackAfterAdd`, `Background.LaunchedStaysMarked`).
  - Whether a failed mail is announced again is decided by the reload from storage at the start of the next batch: it is announced again exactly when storage holds a list without its hash (`Background.RetryRenotifiedWhenStoredLacksIt`), and not when storage holds nothing (`Background.RetrySuppressedWhenNothingStored`) or a list with its hash (`Background.RetrySuppressedWhenStoredHasIt`).
- **Only one rollback takes effect per batch.** The notify blocks are launched without being awaited, so all adds of a batch come first and every rollback runs afterwards against the same single undo record. However many notifies fail, only one rollback takes effect. It moves the pointer back by one slot from where the batch left it (`Background.DeliverEffect`, `Background.FailedNotifyMovesPointerBack`).
- **The pointer marks the newest slot.** In the current version the pointer marks the slot written last, despite the storage key `oldestNotifiedMailPointer` (`Tracker.PointerNamesNewest`). In the legacy version it names the oldest slot (`LegacyTracker.PointerNamesOldest`).
- **A stored pointer of 0 is ignored.** `load` uses `||`, so a stored pointer of 0 keeps the pointer that is in memory (`Tracker.StoredZeroPointerIgnored`).
- **`run()` has no guard of its own.** The code means to keep one listener at a time: the comment "Must call suspend() before preare() not to refer old listener" (src/scripts/background.js:341, 402, 463) and the `isRunning` checks before `run()` (src/scripts/background.js:303, 469). `run()` itself, however, always attaches a new listener (`Background.RunWhileRunningAttachesTwo`). The current version's watcher-state handler checks `isRunning` first. The legacy handler does not, and leaks a listener (`LegacyBackground.RunTwiceThenSuspendLeaksOne`).
- **The current watcher leaks its observer.** `startWatching` while already watching loses the running observer without disconnecting it (`Watcher.RestartLeaksObserver`).
- **The legacy version never finishes preparing.** The legacy tracker defines neither `prepare()` nor `rollback()`.
  - So the legacy service's `prepare()` always throws. Startup never reaches `run()`, and the save button always answers `ok: false` (`LegacyBackground.LegacyMailNotificationService.Prepare`, `LegacyBackground.SaveNeverSucceeds`).
  - The service runs only through the watcher-state handler.
  - A failed notify throws inside its `catch`, so the hash stays and nothing is saved for that mail (`LegacyBackground.Deliver`).
- **The default notifier does not exist.** The current startup block defaults the notifier type to "chrome" and then calls `new ChromeNotifier()`, which no loaded script defines. The ReferenceError ends the block, so with the default type no service is built and nothing runs (`Background.BackgroundWorker.Startup`).
- **The key can collide.** The fingerprint key joins the five fields with no separator, so different mails can share a key (`Mails.BoundaryShiftCollides`).

## Model

| member | source | states |
|---|---|---|
| Mails.Stringified | src/scripts/background.js:53-58 | the key is as long as the five fields together and starts with the sender |
| Mails.BoundaryShiftCollides | src/scripts/background.js:53-60 | moving the sender's last character to the title gives a different mail with the same key |
| Mails.KeyCollision | scripts/background.js:58-65 | an illustrative witness of the general collision: two concrete different mails share one key |
| RingSlots.Includes | src/scripts/tracker.js:99-101 | the array scan finds the hash exactly when some slot holds it |
| RingSlots.LoadedPointer | src/scripts/tracker.js:56-57 | the loaded pointer stays in range; a missing or zero stored pointer keeps the one in memory, and any other stored pointer is taken |
| RingSlots.WritesAt | src/scripts/tracker.js:83-88 | a written hash stays in its slot until SIZE later writes have gone round the ring |
| RingSlots.WritesCover | src/scripts/tracker.js:83-88 | after SIZE writes every slot holds one of the last SIZE hashes |
| RingSlots.WritesRetainLast | scripts/tracker.js:75-82 | after more than SIZE distinct writes, exactly the last SIZE hashes are in the ring |
| Utils.FormatMail | src/scripts/utils.js:7-19 | the text is present exactly when verify accepts, verify accepts every mail, and the text starts with "Title: " |
| Utils.FormatRoundTrip | src/scripts/utils.js:13 | with newline-free title and sender, parsing the text gives back title, sender and content |
| Utils.FormatInjective | src/scripts/utils.js:13 | with newline-free title and sender, equal texts mean equal title, sender and content |
| Utils.FormatIgnoresTimestampAndSize | src/scripts/utils.js:13 | the text does not depend on timestamp or size |
| Utils.NewlineInTitleIsAmbiguous | src/scripts/utils.js:13 | two different mails whose titles contain a newline give the same text |
| LegacyUtils.FormatMail | scripts/utils.js:7-19 | the text is present exactly when verify accepts, verify accepts every mail, and the text starts with "Title: " |
| LegacyUtils.FormatRoundTrip | scripts/utils.js:13 | with the first four fields newline-free, parsing the text gives back the whole mail |
| LegacyUtils.FormatInjective | scripts/utils.js:13 | with the first four fields newline-free, equal texts mean equal mails |
| Tracker.Initial | src/scripts/tracker.js:10-14 | a new tracker has SIZE null slots, pointer 0 and no undo record |
| Tracker.Added | src/scripts/tracker.js:83-88 | add advances the pointer, writes the hash there, records the old pointer and its slot as the undo record, and leaves every other slot alone |
| Tracker.RolledBack | src/scripts/tracker.js:90-96 | rollback writes the record's hash back into the record's slot, restores its pointer, clears the record and leaves every other slot alone; without a record it changes nothing; when the record matches its slot no slot changes |
| Tracker.Saved | src/scripts/tracker.js:65-81 | a successful save stores the slots and pointer; a failed one changes nothing |
| Tracker.Loaded | src/scripts/tracker.js:47-63 | with a stored snapshot, load takes its slots and takes its pointer unless that is 0; with nothing stored it changes nothing; the undo record is kept |
| Tracker.SaveThenLoad | src/scripts/tracker.js:47-81 | load right after a successful save gives back the state in memory |
| Tracker.StoredZeroPointerIgnored | src/scripts/tracker.js:55-57 | with a stored pointer of 0, load takes the stored slots but keeps the pointer in memory |
| Tracker.RollbackIdempotent | src/scripts/tracker.js:90-96 | rollback twice equals rollback once |
| Tracker.RollbackAfterAdd | src/scripts/tracker.js:83-96 | add then rollback restores the pointer and drops the record, but the slots are as after the add and the hash is still contained |
| Tracker.AddedAllStep | src/scripts/tracker.js:83-88 | the closed form of a run of adds, extended by one hash, is one more add |
| Tracker.AddedAllSlot | src/scripts/tracker.js:83-88 | the k-th of at most k + SIZE adds is in the k-th slot after the starting pointer |
| Tracker.PointerNamesNewest | src/scripts/tracker.js:83-88 | after a run of adds the pointer's slot holds the newest hash |
| Tracker.OldestFollowsPointer | src/scripts/tracker.js:83-88 | once the ring is full, the slot after the pointer holds the oldest retained hash |
| Tracker.AddedAllRetainsLast | src/scripts/tracker.js:83-101 | after more than SIZE distinct adds, the earlier hashes are not contained and the last SIZE all are |
| Tracker.AddedAllContains | src/scripts/tracker.js:83-101 | after at most SIZE adds every added hash is contained |
| Tracker.NotifiedMailTracker.constructor | src/scripts/tracker.js:10-14 | a fresh array and the initial state |
| Tracker.NotifiedMailTracker.Add | src/scripts/tracker.js:83-88 | the new state is Added of the old, in the same array |
| Tracker.NotifiedMailTracker.Rollback | src/scripts/tracker.js:90-96 | the new state is RolledBack of the old |
| Tracker.NotifiedMailTracker.Contains | src/scripts/tracker.js:99-101 | true exactly when some slot holds the hash |
| Tracker.NotifiedMailTracker.Save | src/scripts/tracker.js:65-81 | the new state is Saved of the old; reports the write's success |
| Tracker.NotifiedMailTracker.Load | src/scripts/tracker.js:47-63 | a successful read gives Loaded of the old state; a failed read changes nothing and is reported |
| LegacyTracker.Initial | scripts/tracker.js:9-12 | a new tracker has SIZE null slots and pointer 0 |
| LegacyTracker.Added | scripts/tracker.js:75-78 | add writes the hash at the old pointer, then advances the pointer; no other slot changes |
| LegacyTracker.Saved | scripts/tracker.js:57-73 | a successful save stores the slots and pointer; a failed one changes nothing |
| LegacyTracker.Loaded | scripts/tracker.js:39-55 | with a stored snapshot, load takes its slots and takes its pointer unless that is 0; with nothing stored it changes nothing |
| LegacyTracker.SaveThenLoad | scripts/tracker.js:39-73 | load right after a successful save gives back the state in memory |
| LegacyTracker.AddedAllStep | scripts/tracker.js:75-78 | the closed form of a run of adds, extended by one hash, is one more add |
| LegacyTracker.AddedAllSlot | scripts/tracker.js:75-78 | the k-th of at most k + SIZE adds is in the k-th slot from the starting pointer |
| LegacyTracker.PointerNamesOldest | scripts/tracker.js:75-78 | once the ring is full, the pointer's slot holds the oldest retained hash, the next to be overwritten |
| LegacyTracker.NewestPrecedesPointer | scripts/tracker.js:75-78 | the slot before the pointer holds the newest hash |
| LegacyTracker.AddedAllRetainsLast | scripts/tracker.js:75-82 | after more than SIZE distinct adds, the earlier hashes are not contained and the last SIZE all are |
| LegacyTracker.AddedAllContains | scripts/tracker.js:75-82 | after at most SIZE adds every added hash is contained |
| LegacyTracker.LegacyNotifiedMailTracker.constructor | scripts/tracker.js:9-12 | a fresh array and the initial state |
| LegacyTracker.LegacyNotifiedMailTracker.Add | scripts/tracker.js:75-78 | the new state is Added of the old, in the same array |
| LegacyTracker.LegacyNotifiedMailTracker.Contains | scripts/tracker.js:80-82 | true exactly when some slot holds the hash |
| LegacyTracker.LegacyNotifiedMailTracker.Save | scripts/tracker.js:57-73 | the new state is Saved of the old; reports the write's success |
| LegacyTracker.LegacyNotifiedMailTracker.Load | scripts/tracker.js:39-55 | a successful read gives Loaded of the old state; a failed read changes nothing and is reported |
| LegacyTracker.LegacyNotifiedMailTracker.LoadNotifiedMailList | scripts/tracker.js:14-25 | as Load, with the error dropped |
| LegacyTracker.LegacyNotifiedMailTracker.SaveNotifiedMailList | scripts/tracker.js:27-37 | as Save, with the error dropped |
| Watcher.Suffix | src/scripts/watcher.js:153-156 | the suffix starts with "/" and is three characters long exactly for first-page-only |
| Watcher.TargetURL | src/scripts/watcher.js:159-161 | the target URL starts with the base followed by the encoded mailbox, and is as long as those and the suffix together |
| Watcher.SomeMailboxMatches | src/scripts/watcher.js:158-166 | true exactly when the URL starts with some mailbox's target URL |
| Watcher.CheckCurrentUrlIsTarget | src/scripts/watcher.js:147-171 | false without a config or with no mailboxes; otherwise true exactly when some mailbox's target URL prefixes the URL |
| Watcher.FirstPageImpliesAnyPage | src/scripts/watcher.js:153-166 | a URL accepted for first-page-only is accepted for every page |
| Watcher.DefaultConfigTargets | src/scripts/watcher.js:32-40 | with the default config, a URL is a target exactly when it starts with "/0/" |
| Watcher.ReducedTitle | src/scripts/watcher.js:202-204 | no spans give ""; otherwise the title starts with the first span |
| Watcher.ReducedTitleJoins | src/scripts/watcher.js:202-204 | the reduced title is the spans joined by single spaces |
| Watcher.UnreadRows | src/scripts/watcher.js:187-192 | a row is kept exactly when it is a row of the page marked unread |
| Watcher.UnreadRowsConcat | src/scripts/watcher.js:187-192 | the filter works piecewise, so kept rows stay in page order |
| Watcher.UnreadRowsIdempotent | src/scripts/watcher.js:187-192 | filtering twice equals filtering once |
| Watcher.GetMailRows | src/scripts/watcher.js:173-195 | null exactly when the list box is missing or has no rows; otherwise exactly its unread rows |
| Watcher.CreateMail | src/scripts/watcher.js:197-210 | the mail has the row's fields, its title the spans joined by spaces |
| Watcher.NewMailsToSend | src/scripts/watcher.js:65-106 | mails are sent exactly when the page is a target with unread rows and the service runs; one mail per unread row, in order |
| Watcher.Started | src/scripts/watcher.js:58-111 | a new observer is attached and held; earlier observers stay attached |
| Watcher.Stopped | src/scripts/watcher.js:113-119 | the held observer is detached and dropped; without one nothing changes |
| Watcher.StopIdempotent | src/scripts/watcher.js:113-119 | stopWatching twice equals once |
| Watcher.StartThenStop | src/scripts/watcher.js:58-119 | start then stop leaves exactly the observers attached before, and not watching |
| Watcher.RestartLeaksObserver | src/scripts/watcher.js:58-119 | starting twice then stopping leaves the first observer attached while not watching |
| Watcher.MailWatcher.constructor | src/scripts/watcher.js:51-56 | not watching, no observer, the given config |
| Watcher.MailWatcher.StartWatching | src/scripts/watcher.js:58-111 | the new state is Started of the old |
| Watcher.MailWatcher.StopWatching | src/scripts/watcher.js:113-119 | the new state is Stopped of the old |
| Watcher.MailWatcher.CheckTarget | src/scripts/watcher.js:147-171 | false without a config; otherwise true exactly when some mailbox's target URL prefixes the URL |
| LegacyWatcher.LegacyTargetURL | scripts/watcher.js:89-95 | the target URL starts with base, "/", mailbox, "/" and is two characters longer for first-page-only |
| LegacyWatcher.SomeLegacyMailboxMatches | scripts/watcher.js:94-97 | true exactly when the URL starts with some mailbox's target URL |
| LegacyWatcher.CheckCurrentUrlIsTarget | scripts/watcher.js:87-100 | true exactly when some mailbox's target URL prefixes the URL; false with no mailboxes |
| LegacyWatcher.FirstPageImpliesAnyPage | scripts/watcher.js:89-97 | a URL accepted for first-page-only is accepted for every page |
| LegacyWatcher.LegacyIsCurrentWithSlashedBase | scripts/watcher.js:87-100 | the legacy test is the current one with "/" appended to the base and no encoding |
| LegacyWatcher.CreateMail | scripts/watcher.js:128-136 | with no title span reading it throws; otherwise the title is the first span and the other fields are the row's |
| LegacyWatcher.LegacyTitleStartsCurrentTitle | scripts/watcher.js:130 | the legacy title prefixes the current one and equals it for a single span |
| LegacyWatcher.NewMailsToSend | scripts/watcher.js:43-64 | nothing is sent unless the page is a target with unread rows (no running check); one mail per unread row, in order; a row without a title span throws |
| LegacyWatcher.LoadedWatcherState | scripts/watcher.js:69-75 | the flag becomes the stored value, false when missing; a failed read changes nothing |
| LegacyWatcher.LegacyMailWatcher.constructor | scripts/watcher.js:38-67 | not watching, observer not attached |
| LegacyWatcher.LegacyMailWatcher.StartWatching | scripts/watcher.js:77-80 | attached and watching, whatever the state before |
| LegacyWatcher.LegacyMailWatcher.StopWatching | scripts/watcher.js:82-85 | detached and not watching, whatever the state before |
| LegacyWatcher.LegacyMailWatcher.LoadWatcherState | scripts/watcher.js:69-75 | the new state is LoadedWatcherState of the old |
| LegacyWatcher.LegacyMailWatcher.CheckTarget | scripts/watcher.js:87-100 | true exactly when some mailbox's target URL prefixes the URL |
| Background.CollectLast | src/scripts/background.js:52-75 | the last mail changes nothing, or its hash was not contained, its text exists, and it is added and launched with that text and hash |
| Background.CollectFromBatch | src/scripts/background.js:52-74 | each launch carries the fingerprint and formatted text of a mail of the batch, in strictly increasing batch order |
| Background.CollectIsAddAll | src/scripts/background.js:52-74 | the tracker after the loop is the start state with each launched hash added, in order |
| Background.NotifiesEachHashOnce | src/scripts/background.js:52-74 | in a batch of at most SIZE mails, no fingerprint is launched twice |
| Background.CollectedMarked | src/scripts/background.js:68-74 | in a batch of at most SIZE mails, every launched hash is contained after the loop |
| Background.SameMailTwiceOnce | src/scripts/background.js:52-74 | the same mail twice in a batch is launched exactly once, for its first copy, when its fingerprint is new, and not at all when it is known |
| Background.KnownBatchIsSilent | src/scripts/background.js:68-72 | a batch whose fingerprints are all contained changes nothing and launches nothing |
| Background.SingleMail | src/scripts/background.js:52-74 | a single mail is launched exactly when its fingerprint is not contained |
| Background.DeliverEffect | src/scripts/background.js:74-95 | delivery rewrites no slot; any failure leaves the pointer at the last undo record's and drops it; otherwise pointer and record are kept; storage is untouched unless some notify and the save after it succeed, and then holds the slots |
| Background.OnNewMails | src/scripts/background.js:35-100 | nothing happens without a notifier, for null or empty data, or when the reload fails; otherwise the launches are those of the loop on the reloaded tracker |
| Background.LaunchedStaysMarked | src/scripts/background.js:74-95 | with at most SIZE mails, every launched hash is contained after delivery, whatever the outcomes |
| Background.AddedAllLast | src/scripts/tracker.js:83-88 | after a non-empty run of adds, the undo record exists, matches its slot and is one slot behind the pointer |
| Background.FailedNotifyMovesPointerBack | src/scripts/background.js:82-88 | when a notify fails, the slots are as after the loop, the pointer is one slot behind and the record is gone |
| Background.FailedBatchMovesPointerBack | src/scripts/background.js:74-95 | for a batch collected on any tracker, a failed notify leaves the collected slots, the pointer one slot behind and no record |
| Background.FailedDeliveryMovesPointerBack | src/scripts/background.js:77-95 | the same for delivery after any run of adds |
| Background.RetrySuppressedWhenNothingStored | src/scripts/background.js:50 | with nothing stored, a mail whose hash is in memory is not launched again |
| Background.RetryRenotifiedWhenStoredLacksIt | src/scripts/background.js:50 | when storage holds a list without the hash, the reload replaces memory and the mail is launched again |
| Background.RetrySuppressedWhenStoredHasIt | src/scripts/background.js:50 | when storage holds a list with the hash, the reload keeps it marked and the mail is not launched again |
| Background.Prepared | src/scripts/background.js:22-32 | isPrepared becomes true on success and is otherwise unchanged; callback, listeners and running are unchanged |
| Background.Ran | src/scripts/background.js:34-104 | a new callback is attached and held on top of what was attached; running |
| Background.Suspended | src/scripts/background.js:106-112 | the held callback is detached and dropped and running cleared; without one nothing changes |
| Background.WatcherStateChanged | src/scripts/background.js:290-316 | unprepared: reply false and no change; otherwise reply true, running after a start, nothing attached after a stop; at most one listener is kept |
| Background.SuspendIdempotent | src/scripts/background.js:106-112 | suspend twice equals once |
| Background.RunWhileRunningAttachesTwo | src/scripts/background.js:102-103 | run on a running service leaves two listeners attached |
| Background.WatchTwiceIsWatchOnce | src/scripts/background.js:302-308 | two start messages have the effect of one |
| Background.MailNotificationService.constructor | src/scripts/background.js:14-20 | no callback, nothing attached, neither prepared nor running |
| Background.MailNotificationService.Prepare | src/scripts/background.js:22-32 | success exactly when there is a notifier and both prepares succeed; the tracker is loaded when it is asked and the read succeeds |
| Background.MailNotificationService.Run | src/scripts/background.js:34-104 | the new lifecycle is Ran of the old |
| Background.MailNotificationService.Suspend | src/scripts/background.js:106-112 | the new lifecycle is Suspended of the old |
| Background.MailNotificationService.OnNewMailsReceived | src/scripts/background.js:35-100 | the tracker and the launches are those of OnNewMails |
| Background.MailNotificationService.CollectBatch | src/scripts/background.js:52-96 | the loop leaves the tracker and launches of Collect |
| Background.MailNotificationService.DeliverBatch | src/scripts/background.js:77-95 | the blocks leave the tracker of Deliver |
| Background.BackgroundWorker.OnWatcherStateChanged | src/scripts/background.js:290-316 | no service: reply false; otherwise the lifecycle and reply of WatcherStateChanged |
| Background.BackgroundWorker.Startup | src/scripts/background.js:436-476 | without saved settings, or for the type "chrome" (also the default), the service is unchanged; otherwise a new service with a notifier exactly for "slack", prepared exactly when both prepares succeed, running exactly when prepared and watching |
| LegacyBackground.CollectLast | scripts/background.js:57-80 | the last mail changes nothing, or its hash was not contained, its text exists, and it is added and launched |
| LegacyBackground.CollectFromBatch | scripts/background.js:57-79 | each launch carries the fingerprint and formatted text of a mail of the batch, in strictly increasing batch order |
| LegacyBackground.CollectIsAddAll | scripts/background.js:57-79 | the tracker after the loop is the start state with each launched hash added, in order |
| LegacyBackground.NotifiesEachHashOnce | scripts/background.js:57-79 | in a batch of at most SIZE mails, no fingerprint is launched twice |
| LegacyBackground.CollectedMarked | scripts/background.js:73-79 | in a batch of at most SIZE mails, every launched hash is contained after the loop |
| LegacyBackground.KnownBatchIsSilent | scripts/background.js:73-77 | a batch whose fingerprints are all contained changes nothing and launches nothing |
| LegacyBackground.Deliver | scripts/background.js:82-99 | delivery changes neither slots nor pointer; storage is untouched or holds the slots and pointer |
| LegacyBackground.DeliverStores | scripts/background.js:82-99 | storage holds the state exactly when some notify and its save succeed; otherwise it is untouched |
| LegacyBackground.OnNewMails | scripts/background.js:40-102 | nothing happens for null or empty data; otherwise the launches are those of the loop on the reloaded tracker, or on memory when the read fails |
| LegacyBackground.LaunchedStaysMarked | scripts/background.js:82-99 | with at most SIZE mails, every launched hash is contained after delivery, whatever the outcomes |
| LegacyBackground.SavedBatchStoresAllLaunched | scripts/background.js:94-98 | once one notify and its save succeed, storage holds every launched hash, including failed ones |
| LegacyBackground.ReadFailureUsesMemory | scripts/background.js:55 | a failed read does not stop the batch; it is checked against memory |
| LegacyBackground.Ran | scripts/background.js:39-105 | a new callback is attached and held on top of what was attached |
| LegacyBackground.Suspended | scripts/background.js:107-112 | the held callback is detached and dropped; without one nothing changes |
| LegacyBackground.RunTwiceThenSuspendLeaksOne | scripts/background.js:39-112 | run, run, suspend leaves the first listener attached and not held |
| LegacyBackground.WatcherStateChanged | scripts/background.js:144-158 | always reply true; a callback is held after a start and none after a stop; isPrepared is unchanged |
| LegacyBackground.WatcherStateLeaksIffRunning | scripts/background.js:144-158 | a stop keeps the state leak-free; a start does exactly when no callback was held |
| LegacyBackground.SaveButtonClicked | scripts/background.js:160-210 | an empty token or channel: no reply, nothing written; otherwise reply false, suspend exactly when the writes succeed, settings cleared when removal succeeds |
| LegacyBackground.SaveNeverSucceeds | scripts/background.js:174-205 | when the removals succeed, the reply is never true and hasSavedSettings is not newly left set |
| LegacyBackground.LegacyMailNotificationService.constructor | scripts/background.js:15-26 | the given tracker, no callback, nothing attached, not prepared |
| LegacyBackground.LegacyMailNotificationService.Prepare | scripts/background.js:28-37 | preparation always fails |
| LegacyBackground.LegacyMailNotificationService.Run | scripts/background.js:39-105 | the new lifecycle is Ran of the old |
| LegacyBackground.LegacyMailNotificationService.Suspend | scripts/background.js:107-112 | the new lifecycle is Suspended of the old |
| LegacyBackground.LegacyMailNotificationService.OnNewMailsReceived | scripts/background.js:40-102 | the tracker and the launches are those of OnNewMails |
| LegacyBackground.LegacyMailNotificationService.CollectBatch | scripts/background.js:57-100 | the loop leaves the tracker and launches of Collect |
| LegacyBackground.LegacyMailNotificationService.DeliverBatch | scripts/background.js:82-99 | the blocks leave the tracker of Deliver |
| LegacyBackground.ServiceInstance.constructor | scripts/background.js:8 | no instance recorded |
| LegacyBackground.ServiceInstance.New | scripts/background.js:15-26 | the first call builds and records a fresh instance; later calls return it and ignore their arguments |
| LegacyBackground.LegacyBackgroundWorker.constructor | scripts/background.js:117-119 | a fresh tracker and the singleton service built on it |
| LegacyBackground.LegacyBackgroundWorker.Startup | scripts/background.js:121-142 | with saved settings and an unprepared service, the service is suspended and prepare fails; otherwise nothing changes |
| LegacyBackground.LegacyBackgroundWorker.OnWatcherStateChanged | scripts/background.js:144-158 | the lifecycle and reply of WatcherStateChanged |
| LegacyBackground.LegacyBackgroundWorker.OnSaveButtonClicked | scripts/background.js:160-210 | the settings, suspension and reply of SaveButtonClicked |

## Left out

- Keep-alive heartbeat, tab injection, `executeScriptsInTab`, and the install and tab-update listeners (src/scripts/background.js:115-288 and the rest of both background scripts): browser plumbing with ports and timers.
- The src save-notifier-settings handler (src/scripts/background.js:318-434), which replaces the running service without suspending it and so leaves the old listener attached: it builds notifiers and writes settings through browser APIs outside the dedup pipeline.
- The notifiers (src/scripts/notifier.js, scripts/notifier.js): Slack HTTP calls, and `chrome.notifications` on the Slack notifier's error path. `notify` and `prepare` are success flags. Two facts are not modelled:
  - the Slack notifier's `isPrepared` is never set, so its early return never fires (src/scripts/notifier.js:20, 24-27);
  - its empty-credential branch refers to an undefined `result` (src/scripts/notifier.js:37).
- MD5: `lib/hash.js` is not part of this model. `md5` is any function, so it is deterministic but otherwise unconstrained. `encodeURIComponent` is the `encode` parameter in the same way.
- Asynchronous interleaving: notify blocks complete in launch order, and overlapping batches are not modelled. The `await` of the reload is treated as completing before the batch.
- `chrome.storage` wrappers and messaging. A storage read or write is a success flag, and the tracker's two keys are the `stored` field. Storage is assumed to hold only what a tracker's save wrote (`ValidStored`: SIZE slots and an in-range pointer).
- `MutationObserver`, the debounce timer and the `isServiceRunning` request (src/scripts/watcher.js:58-111, 121-145): the observer is an identifier, and whether the service runs is a boolean.
- DOM queries that throw on a missing element, except the legacy title span: rows are given with their fields already read.
- The popups (src/popups/popup.js, popups/popup.js), scripts/inject.js, scripts/logger.js and the build files: UI and message wiring, logging and tooling.
- The `storage` object used by the legacy startup block and save handler (scripts/background.js:123, 176-180, 189-193) is defined by none of the scripts the legacy worker imports, unless `lib/hash.js` defines it; `lib/hash.js` is not part of this model. The model assumes it exists. If it does not, every such call throws, which the model covers only as failed reads and writes (`readOk`, `setOk`, `removeOk` false); startup's throw before suspend is not modelled.
- LegacyWatcher.CreateMail and LegacyWatcher.LegacyTitleStartsCurrentTitle: a row's `spans` are assumed to be direct children of the title link. The legacy selector `td.tit_box > a > span` (scripts/watcher.js:130) takes the first direct-child span, while the current code joins every descendant span of the link (src/scripts/watcher.js:199-201). When a span is nested deeper, for example `<a><b><span>x</span></b><span>y</span></a>`, the legacy title is "y" but the model gives "x", and the prefix relation between the two titles need not hold.
- LegacyBackground.SaveButtonClicked: the three writes and the three removals are each all-or-nothing (`setOk`, `removeOk`). A partly applied `Promise.all` is not modelled.
- The legacy check for a missing notifier or tracker (scripts/background.js:44-47): both are always constructed at the top level, so it never fires.
- LegacyBackground.LegacyBackgroundWorker.Startup: `run()` after a successful prepare is not modelled, because legacy prepare always throws first.
- Tracker.NotifiedMailTracker.Load: the tracker's `prepare()` and `loadNotifiedMailList()` (src/scripts/tracker.js:16-34) are this call with the error passed on. Their log output and reworded error message are not modelled.
