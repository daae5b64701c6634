/**
 * The mail helpers of the current version (src/scripts/utils.js): the
 * always-passing `verify` gate and `formatMail`, which renders a mail as
 * three "Tag: value" lines. generateMD5Hash is the `md5` parameter of
 * Mails.Fingerprint.
 */
module Utils {
  import opened Optional
  import opened Mails
  import opened Lines

  /** verify(mail): no check is implemented yet, every mail passes. */
  predicate Verify(m: Mail) {
    true
  }

  /** formatMail(mail): null when verify rejects, else the Title, Sender and Content lines. */
  function FormatMail(m: Mail): (r: Option<string>)
    ensures r.Some? <==> Verify(m)
    ensures r.Some?
    ensures r.Some? ==> "Title: " <= r.value
  {
    if !Verify(m) then None
    else Some("Title: " + m.title + "\nSender: " + m.sender + "\nContent: " + m.content)
  }

  /** What a reader of the notification sees of a mail. */
  datatype Shown = Shown(title: string, sender: string, content: string)

  /** Reads a formatted notification back into its three fields. */
  function ParseFormatted(f: string): (r: Option<Shown>)
    ensures r.Some? ==> "Title: " <= f
  {
    match AfterTag("Title: ", f)
    case None => None
    case Some(a) =>
      match AfterTag("Sender: ", AfterFirstLine(a))
      case None => None
      case Some(b) =>
        match AfterTag("Content: ", AfterFirstLine(b))
        case None => None
        case Some(c) => Some(Shown(FirstLine(a), FirstLine(b), c))
  }

  /**
   * The three fields appear once each, in the order Title, Sender, Content:
   * while title and sender hold no newline the text is read back exactly.
   */
  lemma FormatRoundTrip(m: Mail)
    requires '\n' !in m.title && '\n' !in m.sender
    ensures ParseFormatted(FormatMail(m).value) == Some(Shown(m.title, m.sender, m.content))
  {
    var c := "Content: " + m.content;
    var b := "Sender: " + m.sender + "\n" + c;
    var f := FormatMail(m).value;
    assert f == "Title: " + (m.title + "\n" + b);
    assert "Sender: " + m.sender + "\n" + c == "Sender: " + (m.sender + "\n" + c);
    SplitLine(m.title, b);
    SplitLine(m.sender, c);
  }

  /** Two mails with newline-free titles and senders and equal texts agree on all three fields. */
  lemma FormatInjective(m1: Mail, m2: Mail)
    requires '\n' !in m1.title && '\n' !in m1.sender
    requires '\n' !in m2.title && '\n' !in m2.sender
    requires FormatMail(m1) == FormatMail(m2)
    ensures m1.title == m2.title && m1.sender == m2.sender && m1.content == m2.content
  {
    FormatRoundTrip(m1);
    FormatRoundTrip(m2);
  }

  /** The text does not show timestamp or size: mails differing only there look the same. */
  lemma FormatIgnoresTimestampAndSize(m: Mail, timestamp: string, size: string)
    ensures FormatMail(m.(timestamp := timestamp, size := size)) == FormatMail(m)
  {
  }

  /** A newline inside a title can imitate the Sender line, so two different mails read the same. */
  lemma NewlineInTitleIsAmbiguous() returns (m1: Mail, m2: Mail)
    ensures m1 != m2 && FormatMail(m1) == FormatMail(m2)
  {
    var tag := "\nSender: ";
    m1 := Mail("b", "a" + tag, "c", "", "");
    m2 := Mail(tag + "b", "a", "c", "", "");
    assert m1.sender != m2.sender by {
      assert |m1.sender| != |m2.sender|;
    }
    var head := "Title: " + "a" + tag;
    assert "Title: " + ("a" + tag) == head;
    assert head + (tag + "b") == head + tag + "b";
    assert FormatMail(m1).value == head + tag + "b" + "\nContent: " + "c";
    assert FormatMail(m2).value == head + tag + "b" + "\nContent: " + "c";
  }
}
