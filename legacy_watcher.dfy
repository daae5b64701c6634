/**
 * The content-script side of the legacy version (scripts/watcher.js): the
 * same Config and unread-row filter as the current one (Watcher.Config,
 * Watcher.GetMailRows), a URL test that puts "/" around the mailbox and does not encode it, a
 * title that is the first span only, and a MailWatcher that owns a single
 * observer from construction and attaches or detaches it unconditionally.
 */
module LegacyWatcher {
  import opened Optional
  import opened Mails
  import Watcher

  /** The URL prefix that marks mailbox `box` as being shown: base/box/ then "0/" or "". */
  function LegacyTargetURL(c: Watcher.Config, box: string): (u: string)
    ensures c.targetBaseURL + "/" + box + "/" <= u
    ensures |u| == |c.targetBaseURL| + |box| + 2 + (if c.watchFirstPageOnly then 2 else 0)
  {
    c.targetBaseURL + "/" + box + "/" + (if c.watchFirstPageOnly then "0/" else "")
  }

  /** `boxes.some(...)` over the legacy target URLs. */
  function SomeLegacyMailboxMatches(c: Watcher.Config, url: string, boxes: seq<string>): (r: bool)
    ensures r <==> exists i :: 0 <= i < |boxes| && LegacyTargetURL(c, boxes[i]) <= url
    decreases |boxes|
  {
    if boxes == [] then false
    else LegacyTargetURL(c, boxes[0]) <= url || SomeLegacyMailboxMatches(c, url, boxes[1..])
  }

  /** checkCurrentUrlIsTarget(config): whether some watched mailbox is shown. */
  function CheckCurrentUrlIsTarget(c: Watcher.Config, url: string): (r: bool)
    ensures r <==> exists i :: 0 <= i < |c.targetMailboxes| && LegacyTargetURL(c, c.targetMailboxes[i]) <= url
    ensures c.targetMailboxes == [] ==> !r
  {
    SomeLegacyMailboxMatches(c, url, c.targetMailboxes)
  }

  /** A page accepted when only the first page is watched is also accepted when every page is. */
  lemma FirstPageImpliesAnyPage(c: Watcher.Config, url: string)
    requires CheckCurrentUrlIsTarget(c.(watchFirstPageOnly := true), url)
    ensures CheckCurrentUrlIsTarget(c.(watchFirstPageOnly := false), url)
  {
    var first := c.(watchFirstPageOnly := true);
    var any := c.(watchFirstPageOnly := false);
    var i :| 0 <= i < |c.targetMailboxes| && LegacyTargetURL(first, c.targetMailboxes[i]) <= url;
    var prefix := c.targetBaseURL + "/" + c.targetMailboxes[i] + "/";
    assert LegacyTargetURL(any, c.targetMailboxes[i]) == prefix;
    assert LegacyTargetURL(any, c.targetMailboxes[i]) <= url;
  }

  /**
   * The legacy test is the current one applied to the base URL with a "/"
   * appended and with no encoding of the mailbox name.
   */
  lemma LegacyIsCurrentWithSlashedBase(c: Watcher.Config, url: string)
    ensures CheckCurrentUrlIsTarget(c, url)
            == Watcher.CheckCurrentUrlIsTarget(Some(c.(targetBaseURL := c.targetBaseURL + "/")), s => s, url)
  {
    var c' := c.(targetBaseURL := c.targetBaseURL + "/");
    forall i | 0 <= i < |c.targetMailboxes|
      ensures LegacyTargetURL(c, c.targetMailboxes[i]) == Watcher.TargetURL(c', s => s, c.targetMailboxes[i])
    {
      var b := c.targetMailboxes[i];
      if c.watchFirstPageOnly {
        assert c.targetBaseURL + "/" + b + "/" + "0/" == c.targetBaseURL + "/" + b + "/0/";
      } else {
        assert c.targetBaseURL + "/" + b + "/" + "" == c.targetBaseURL + "/" + b + "/";
      }
    }
  }

  /**
   * createMail(row): the title is the text of the first title span; with no
   * span the lookup yields null and reading its text throws (None).
   */
  function CreateMail(row: Watcher.Row): (r: Option<Mail>)
    ensures r.Some? <==> row.spans != []
    ensures r.Some? ==> r.value.title == row.spans[0]
    ensures r.Some? ==> r.value.sender == row.sender && r.value.content == row.content
                        && r.value.timestamp == row.timestamp && r.value.size == row.size
  {
    if row.spans == [] then None
    else Some(Mail(row.sender, row.spans[0], row.content, row.timestamp, row.size))
  }

  /**
   * The legacy title is where the current one starts, and the two agree
   * exactly when the title has a single span.
   */
  lemma LegacyTitleStartsCurrentTitle(row: Watcher.Row)
    requires row.spans != []
    ensures CreateMail(row).value.title <= Watcher.CreateMail(row).title
    ensures |row.spans| == 1 ==> CreateMail(row).value == Watcher.CreateMail(row)
  {
    Watcher.ReducedTitleJoins(row.spans);
  }

  /**
   * What one observer callback sends as onNewMailsReceived: nothing unless a
   * watched mailbox is shown and it has unread rows (there is no debounce and
   * no check that the service runs); then one mail per unread row, in page
   * order. None of the outer option means createMail threw on some row.
   */
  function NewMailsToSend(c: Watcher.Config, url: string, listBox: Option<seq<Watcher.Row>>): (r: Option<Option<seq<Mail>>>)
    ensures r.None? <==> (CheckCurrentUrlIsTarget(c, url) && Watcher.GetMailRows(listBox).Some?
                          && exists i :: 0 <= i < |Watcher.GetMailRows(listBox).value|
                                         && Watcher.GetMailRows(listBox).value[i].spans == [])
    ensures r == Some(None) <==> !CheckCurrentUrlIsTarget(c, url) || Watcher.GetMailRows(listBox).None? || Watcher.GetMailRows(listBox).value == []
    ensures r.Some? && r.value.Some? ==>
              |r.value.value| == |Watcher.GetMailRows(listBox).value|
              && forall i :: 0 <= i < |r.value.value| ==> Some(r.value.value[i]) == CreateMail(Watcher.GetMailRows(listBox).value[i])
  {
    if !CheckCurrentUrlIsTarget(c, url) then Some(None)
    else
      match Watcher.GetMailRows(listBox)
      case None => Some(None)
      case Some(rows) =>
        if rows == [] then Some(None)
        else if exists i :: 0 <= i < |rows| && rows[i].spans == [] then None
        else Some(Some(seq(|rows|, i requires 0 <= i < |rows| => CreateMail(rows[i]).value)))
  }

  /** The legacy watcher's observer bookkeeping: the single observer is attached or not. */
  datatype LegacyWatcherState = LegacyWatcherState(isWatching: bool, attached: bool)

  /** loadWatcherState(): the stored flag, false when none is stored; unchanged when the read throws. */
  function LoadedWatcherState(w: LegacyWatcherState, readOk: bool, stored: Option<bool>): (r: LegacyWatcherState)
    ensures r.attached == w.attached
    ensures !readOk ==> r == w
    ensures readOk ==> (r.isWatching <==> stored == Some(true))
  {
    if readOk then w.(isWatching := stored.GetOr(false)) else w
  }

  /** The MailWatcher object of the legacy version. */
  class LegacyMailWatcher {
    const config: Watcher.Config
    var isWatching: bool
    /** Whether the observer created by the constructor is attached to document.body. */
    var attached: bool

    ghost function State(): LegacyWatcherState
      reads this
    {
      LegacyWatcherState(isWatching, attached)
    }

    /** new MailWatcher(config): the observer is created but not attached. */
    constructor(config: Watcher.Config)
      ensures State() == LegacyWatcherState(false, false) && this.config == config
    {
      this.config := config;
      isWatching := false;
      attached := false;
    }

    /** startWatching(): attach the observer and set the flag, whatever the state. */
    method StartWatching()
      modifies this
      ensures State() == LegacyWatcherState(true, true)
    {
      attached := true;
      isWatching := true;
    }

    /** stopWatching(): detach the observer and clear the flag, whatever the state. */
    method StopWatching()
      modifies this
      ensures State() == LegacyWatcherState(false, false)
    {
      attached := false;
      isWatching := false;
    }

    method LoadWatcherState(readOk: bool, stored: Option<bool>)
      modifies this
      ensures State() == LoadedWatcherState(old(State()), readOk, stored)
    {
      if readOk {
        isWatching := stored.GetOr(false);
      }
    }

    /** checkCurrentUrlIsTarget(config) on the page at `url`. */
    method CheckTarget(url: string) returns (r: bool)
      ensures r <==> exists i :: 0 <= i < |config.targetMailboxes|
                                 && LegacyTargetURL(config, config.targetMailboxes[i]) <= url
    {
      r := CheckCurrentUrlIsTarget(config, url);
    }
  }
}
