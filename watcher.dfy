/**
 * The content-script side of the current version (src/scripts/watcher.js):
 * the watcher configuration, the test whether the page shown is a watched
 * mailbox, the unread-row filter, the title built from the title spans, and
 * the MailWatcher object whose startWatching / stopWatching attach and
 * detach a DOM observer.
 *
 * The page is passed in: the current URL as a string, the mail list as an
 * optional sequence of rows, and encodeURIComponent as the function
 * parameter `encode`.
 */
module Watcher {
  import opened Optional
  import opened Mails

  /** class Config. */
  datatype Config = Config(targetBaseURL: string, targetMailboxes: seq<string>, watchFirstPageOnly: bool)

  /** new Config() with every argument left out. */
  const DefaultConfig := Config("", [""], true)

  /** The pagination path that must follow the mailbox: "/0/" for the first page only, else "/". */
  function Suffix(watchFirstPageOnly: bool): (s: string)
    ensures "/" <= s
    ensures watchFirstPageOnly <==> |s| == 3
  {
    if watchFirstPageOnly then "/0/" else "/"
  }

  /** The URL prefix that marks mailbox `box` as being shown. */
  function TargetURL(c: Config, encode: string -> string, box: string): (u: string)
    ensures c.targetBaseURL + encode(box) <= u
    ensures |u| == |c.targetBaseURL| + |encode(box)| + |Suffix(c.watchFirstPageOnly)|
  {
    c.targetBaseURL + encode(box) + Suffix(c.watchFirstPageOnly)
  }

  /** `boxes.some(...)`: whether the URL starts with the target URL of one of the boxes. */
  function SomeMailboxMatches(c: Config, encode: string -> string, url: string, boxes: seq<string>): (r: bool)
    ensures r <==> exists i :: 0 <= i < |boxes| && TargetURL(c, encode, boxes[i]) <= url
    decreases |boxes|
  {
    if boxes == [] then false
    else TargetURL(c, encode, boxes[0]) <= url || SomeMailboxMatches(c, encode, url, boxes[1..])
  }

  /** checkCurrentUrlIsTarget(): false without a config, else whether some watched mailbox is shown. */
  function CheckCurrentUrlIsTarget(config: Option<Config>, encode: string -> string, url: string): (r: bool)
    ensures config.None? ==> !r
    ensures config.Some? ==>
              (r <==> exists i :: 0 <= i < |config.value.targetMailboxes|
                                  && TargetURL(config.value, encode, config.value.targetMailboxes[i]) <= url)
    ensures config.Some? && config.value.targetMailboxes == [] ==> !r
  {
    match config
    case None => false
    case Some(c) => SomeMailboxMatches(c, encode, url, c.targetMailboxes)
  }

  /** A page accepted when only the first page is watched is also accepted when every page is. */
  lemma FirstPageImpliesAnyPage(c: Config, encode: string -> string, url: string)
    requires CheckCurrentUrlIsTarget(Some(c.(watchFirstPageOnly := true)), encode, url)
    ensures CheckCurrentUrlIsTarget(Some(c.(watchFirstPageOnly := false)), encode, url)
  {
    var first := c.(watchFirstPageOnly := true);
    var any := c.(watchFirstPageOnly := false);
    var i :| 0 <= i < |c.targetMailboxes| && TargetURL(first, encode, c.targetMailboxes[i]) <= url;
    var prefix := c.targetBaseURL + encode(c.targetMailboxes[i]);
    assert TargetURL(any, encode, c.targetMailboxes[i]) == prefix + "/";
    assert TargetURL(first, encode, c.targetMailboxes[i]) == prefix + "/" + "0/";
    assert TargetURL(any, encode, c.targetMailboxes[i]) <= url;
  }

  /**
   * With the default config (and encode("") == "" as encodeURIComponent
   * gives), a page is a target exactly when its URL starts with "/0/", which
   * no absolute URL does.
   */
  lemma DefaultConfigTargets(encode: string -> string, url: string)
    requires encode("") == ""
    ensures CheckCurrentUrlIsTarget(Some(DefaultConfig), encode, url) <==> "/0/" <= url
  {
    assert TargetURL(DefaultConfig, encode, "") == "/0/";
  }

  /**
   * The `reduce` in createMail: each span's text is appended, preceded by a
   * space except for the first one.
   */
  function ReducedTitle(spans: seq<string>): (t: string)
    ensures spans == [] ==> t == ""
    ensures spans != [] ==> spans[0] <= t
    decreases |spans|
  {
    if spans == [] then ""
    else
      var n := |spans|;
      ReducedTitle(spans[..n - 1]) + (if n - 1 > 0 then " " else "") + spans[n - 1]
  }

  /** The span texts joined by single spaces, read from the front. */
  function JoinWithSpaces(spans: seq<string>): string
    decreases |spans|
  {
    if spans == [] then ""
    else if |spans| == 1 then spans[0]
    else spans[0] + " " + JoinWithSpaces(spans[1..])
  }

  /** Appending one more span to a joined title adds a space and its text. */
  lemma {:induction false} JoinWithSpacesSnoc(spans: seq<string>, s: string)
    requires spans != []
    ensures JoinWithSpaces(spans + [s]) == JoinWithSpaces(spans) + " " + s
    decreases |spans|
  {
    if |spans| == 1 {
      assert spans + [s] == [spans[0], s];
      assert [spans[0], s][1..] == [s];
    } else {
      assert (spans + [s])[1..] == spans[1..] + [s];
      JoinWithSpacesSnoc(spans[1..], s);
    }
  }

  /**
   * The title createMail builds is the span texts joined by single spaces:
   * no leading or doubled space, and "" when there are no spans.
   */
  lemma {:induction false} ReducedTitleJoins(spans: seq<string>)
    ensures ReducedTitle(spans) == JoinWithSpaces(spans)
    decreases |spans|
  {
    var n := |spans|;
    if n > 1 {
      ReducedTitleJoins(spans[..n - 1]);
      JoinWithSpacesSnoc(spans[..n - 1], spans[n - 1]);
      assert spans[..n - 1] + [spans[n - 1]] == spans;
    }
  }

  /** The unread marker that the mail list puts in the title attribute of a row's status span. */
  const UNREAD := "안읽음"

  /**
   * One row of the mail list: the title attribute of its status span (null
   * when absent) and the texts createMail reads. `spans` are the texts of the
   * title link's spans in document order, taken to be direct children of the
   * link, so that both versions' selectors see the same list.
   */
  datatype Row = Row(status: Option<string>, sender: string, spans: seq<string>, content: string, timestamp: string, size: string)

  predicate IsUnread(row: Row) {
    row.status == Some(UNREAD)
  }

  /** The `filter` in getMailRows: the unread rows, in page order. */
  function UnreadRows(rows: seq<Row>): (r: seq<Row>)
    ensures |r| <= |rows|
    ensures forall row :: row in r <==> row in rows && IsUnread(row)
    decreases |rows|
  {
    if rows == [] then []
    else (if IsUnread(rows[0]) then [rows[0]] else []) + UnreadRows(rows[1..])
  }

  /** Filtering works piecewise, so the rows kept stay in their page order. */
  lemma {:induction false} UnreadRowsConcat(a: seq<Row>, b: seq<Row>)
    ensures UnreadRows(a + b) == UnreadRows(a) + UnreadRows(b)
    decreases |a|
  {
    if a == [] {
      assert a + b == b;
    } else {
      assert (a + b)[1..] == a[1..] + b;
      UnreadRowsConcat(a[1..], b);
    }
  }

  /** Filtering twice keeps the same rows as filtering once. */
  lemma {:induction false} UnreadRowsIdempotent(rows: seq<Row>)
    ensures UnreadRows(UnreadRows(rows)) == UnreadRows(rows)
    decreases |rows|
  {
    if rows != [] {
      UnreadRowsIdempotent(rows[1..]);
      var head := if IsUnread(rows[0]) then [rows[0]] else [];
      UnreadRowsConcat(head, UnreadRows(rows[1..]));
    }
  }

  /**
   * getMailRows(): null when the mail list box is missing or has no rows,
   * otherwise the unread rows (possibly none).
   */
  function GetMailRows(listBox: Option<seq<Row>>): (r: Option<seq<Row>>)
    ensures r.Some? <==> listBox.Some? && listBox.value != []
    ensures r.Some? ==> forall row :: row in r.value <==> row in listBox.value && IsUnread(row)
  {
    if listBox.None? || listBox.value == [] then None else Some(UnreadRows(listBox.value))
  }

  /** createMail(row): the five fields, the title being the spans joined by spaces. */
  function CreateMail(row: Row): (m: Mail)
    ensures m.title == JoinWithSpaces(row.spans)
    ensures m.sender == row.sender && m.content == row.content
    ensures m.timestamp == row.timestamp && m.size == row.size
  {
    ReducedTitleJoins(row.spans);
    Mail(row.sender, ReducedTitle(row.spans), row.content, row.timestamp, row.size)
  }

  /**
   * What one debounced observer callback sends as onNewMailsReceived: nothing
   * unless a watched mailbox is shown, it has unread rows, and the service
   * reports that it is running; then one mail per unread row, in page order.
   */
  function NewMailsToSend(config: Option<Config>, encode: string -> string, url: string,
                          listBox: Option<seq<Row>>, serviceRunning: bool): (r: Option<seq<Mail>>)
    ensures r.Some? <==> CheckCurrentUrlIsTarget(config, encode, url) && GetMailRows(listBox).Some?
                         && GetMailRows(listBox).value != [] && serviceRunning
    ensures r.Some? ==> r.value != []
    ensures r.Some? ==> |r.value| == |GetMailRows(listBox).value|
                        && forall i :: 0 <= i < |r.value| ==> r.value[i] == CreateMail(GetMailRows(listBox).value[i])
  {
    if !CheckCurrentUrlIsTarget(config, encode, url) then None
    else
      match GetMailRows(listBox)
      case None => None
      case Some(rows) =>
        if rows == [] || !serviceRunning then None
        else Some(seq(|rows|, i requires 0 <= i < |rows| => CreateMail(rows[i])))
  }

  /**
   * The watcher's observer bookkeeping: whether it is watching, the observer
   * it holds (an identifier, None for null), the observers attached to the
   * page, and the identifier the next MutationObserver gets.
   */
  datatype WatcherState = WatcherState(isWatching: bool, observer: Option<nat>, attached: set<nat>, nextObserver: nat)

  predicate ValidWatcher(w: WatcherState) {
    && (w.isWatching <==> w.observer.Some?)
    && (w.observer.Some? ==> w.observer.value in w.attached)
    && (forall o :: o in w.attached ==> o < w.nextObserver)
  }

  /** A new MailWatcher: not watching, no observer. */
  const InitialWatcher := WatcherState(false, None, {}, 0)

  /**
   * startWatching(): a new observer is created and attached and becomes the
   * one held; an observer held before is neither disconnected nor kept.
   */
  function Started(w: WatcherState): (r: WatcherState)
    requires ValidWatcher(w)
    ensures ValidWatcher(r) && r.isWatching
    ensures r.observer == Some(w.nextObserver) && w.nextObserver !in w.attached
    ensures r.attached == w.attached + {w.nextObserver}
  {
    WatcherState(true, Some(w.nextObserver), w.attached + {w.nextObserver}, w.nextObserver + 1)
  }

  /** stopWatching(): with an observer held, disconnect and drop it; otherwise nothing. */
  function Stopped(w: WatcherState): (r: WatcherState)
    requires ValidWatcher(w)
    ensures ValidWatcher(r) && !r.isWatching && r.observer.None?
    ensures w.observer.None? ==> r == w
    ensures w.observer.Some? ==> r.attached == w.attached - {w.observer.value}
  {
    match w.observer
    case None => w
    case Some(o) => WatcherState(false, None, w.attached - {o}, w.nextObserver)
  }

  /** stopWatching() twice in a row is the same as once. */
  lemma StopIdempotent(w: WatcherState)
    requires ValidWatcher(w)
    ensures Stopped(Stopped(w)) == Stopped(w)
  {
  }

  /** startWatching() then stopWatching() leaves exactly the observers attached before. */
  lemma StartThenStop(w: WatcherState)
    requires ValidWatcher(w)
    ensures Stopped(Started(w)).attached == w.attached
    ensures !Stopped(Started(w)).isWatching
  {
    assert Started(w).attached - {w.nextObserver} == w.attached;
  }

  /**
   * startWatching() while already watching forgets the running observer
   * without disconnecting it: after a later stopWatching() it is still
   * attached although isWatching is false.
   */
  lemma RestartLeaksObserver(w: WatcherState)
    requires ValidWatcher(w) && w.isWatching
    ensures var r := Stopped(Started(w)); !r.isWatching && w.observer.value in r.attached
  {
    StartThenStop(w);
  }

  /** The MailWatcher object; State() is its observer bookkeeping. */
  class MailWatcher {
    var config: Option<Config>
    var isWatching: bool
    var observer: Option<nat>
    /** The observers attached to document.body. */
    var attached: set<nat>
    var nextObserver: nat

    ghost function State(): WatcherState
      reads this
    {
      WatcherState(isWatching, observer, attached, nextObserver)
    }

    ghost predicate Valid()
      reads this
    {
      ValidWatcher(State())
    }

    constructor(config: Option<Config>)
      ensures Valid() && State() == InitialWatcher && this.config == config
    {
      this.config := config;
      isWatching := false;
      observer := None;
      attached := {};
      nextObserver := 0;
    }

    method StartWatching()
      requires Valid()
      modifies this
      ensures Valid() && config == old(config)
      ensures State() == Started(old(State()))
    {
      var o := nextObserver;
      nextObserver := nextObserver + 1;
      observer := Some(o);
      attached := attached + {o};
      isWatching := true;
    }

    method StopWatching()
      requires Valid()
      modifies this
      ensures Valid() && config == old(config)
      ensures State() == Stopped(old(State()))
    {
      if observer.Some? {
        attached := attached - {observer.value};
        observer := None;
        isWatching := false;
      }
    }

    /** checkCurrentUrlIsTarget() on the page at `url`. */
    method CheckTarget(encode: string -> string, url: string) returns (r: bool)
      ensures config.None? ==> !r
      ensures config.Some? ==>
                (r <==> exists i :: 0 <= i < |config.value.targetMailboxes|
                                    && TargetURL(config.value, encode, config.value.targetMailboxes[i]) <= url)
    {
      r := CheckCurrentUrlIsTarget(config, encode, url);
    }
  }
}
