/**
 * The mail record the watchers scrape (class Mail in both watcher.js files)
 * and the deduplication key both background scripts derive from it.
 */
module Mails {

  /** One mail row: five text fields, immutable once scraped. */
  datatype Mail = Mail(sender: string, title: string, content: string, timestamp: string, size: string)

  /**
   * The text that is hashed: the five fields concatenated in the order
   * sender, title, content, timestamp, size, with no separator.
   */
  function Stringified(m: Mail): (s: string)
    ensures |s| == |m.sender| + |m.title| + |m.content| + |m.timestamp| + |m.size|
    ensures m.sender <= s
  {
    m.sender + m.title + m.content + m.timestamp + m.size
  }

  /**
   * The fingerprint kept in the tracker: generateMD5Hash of the key.
   * MD5 itself is not modelled; `md5` is any deterministic string function.
   */
  function Fingerprint(md5: string -> string, m: Mail): string {
    md5(Stringified(m))
  }

  /**
   * Because the fields are joined without a separator, moving the last
   * character of the sender to the front of the title keeps the key, so two
   * different mails share one fingerprint.
   */
  lemma BoundaryShiftCollides(m: Mail)
    requires |m.sender| > 0
    ensures var n := |m.sender|;
            var m' := m.(sender := m.sender[..n - 1], title := [m.sender[n - 1]] + m.title);
            m' != m && Stringified(m') == Stringified(m)
  {
    var n := |m.sender|;
    var m' := m.(sender := m.sender[..n - 1], title := [m.sender[n - 1]] + m.title);
    assert m.sender == m.sender[..n - 1] + [m.sender[n - 1]];
    assert |m'.sender| != |m.sender|;
  }

  /**
   * An illustrative witness of BoundaryShiftCollides: ("ab", "c") and
   * ("a", "bc") as sender and title collide.
   */
  lemma KeyCollision() returns (m1: Mail, m2: Mail)
    ensures m1 != m2 && Stringified(m1) == Stringified(m2)
  {
    m1 := Mail("ab", "c", "", "", "");
    m2 := Mail("a", "bc", "", "", "");
    assert Stringified(m1) == "abc" == Stringified(m2);
  }
}
