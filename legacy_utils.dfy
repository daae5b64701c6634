/**
 * The mail helpers of the legacy version (scripts/utils.js): the same
 * always-passing `verify` gate, and a `formatMail` that renders all five
 * fields, one "Tag: value" line each.
 */
module LegacyUtils {
  import opened Optional
  import opened Mails
  import opened Lines

  /** verify(mail): no check is implemented yet, every mail passes. */
  predicate Verify(m: Mail) {
    true
  }

  /** formatMail(mail): null when verify rejects, else the Title, Sender, Content, Timestamp and Size lines. */
  function FormatMail(m: Mail): (r: Option<string>)
    ensures r.Some? <==> Verify(m)
    ensures r.Some?
    ensures r.Some? ==> "Title: " <= r.value
  {
    if !Verify(m) then None
    else Some("Title: " + m.title + "\nSender: " + m.sender + "\nContent: " + m.content
              + "\nTimestamp: " + m.timestamp + "\nSize: " + m.size)
  }

  /** Reads the text after one "Tag: " and up to the next newline, and what follows that newline. */
  function Field(tag: string, s: string): (r: Option<(string, string)>)
    ensures r.Some? ==> tag <= s
  {
    match AfterTag(tag, s)
    case None => None
    case Some(a) => Some((FirstLine(a), AfterFirstLine(a)))
  }

  /** Reads a formatted notification back into a mail. */
  function ParseFormatted(f: string): (r: Option<Mail>)
    ensures r.Some? ==> "Title: " <= f
  {
    match Field("Title: ", f)
    case None => None
    case Some((title, f1)) =>
      match Field("Sender: ", f1)
      case None => None
      case Some((sender, f2)) =>
        match Field("Content: ", f2)
        case None => None
        case Some((content, f3)) =>
          match Field("Timestamp: ", f3)
          case None => None
          case Some((timestamp, f4)) =>
            match AfterTag("Size: ", f4)
            case None => None
            case Some(size) => Some(Mail(sender, title, content, timestamp, size))
  }

  /** One "Tag: value" line followed by the rest is read back by Field. */
  lemma FieldOfLine(tag: string, v: string, rest: string)
    requires '\n' !in v
    ensures Field(tag, tag + v + "\n" + rest) == Some((v, rest))
  {
    assert tag + v + "\n" + rest == tag + (v + "\n" + rest);
    SplitLine(v, rest);
  }

  /** The formatted text as its first line followed by the rest, line by line. */
  lemma FormattedLines(m: Mail)
    ensures FormatMail(m).value
            == "Title: " + m.title + "\n" + ("Sender: " + m.sender + "\n" + ("Content: " + m.content + "\n"
               + ("Timestamp: " + m.timestamp + "\n" + ("Size: " + m.size))))
  {
  }

  /**
   * The five fields appear once each, in the order Title, Sender, Content,
   * Timestamp, Size: while the first four hold no newline the text is read
   * back into exactly the mail that was formatted.
   */
  lemma FormatRoundTrip(m: Mail)
    requires '\n' !in m.title && '\n' !in m.sender && '\n' !in m.content && '\n' !in m.timestamp
    ensures ParseFormatted(FormatMail(m).value) == Some(m)
  {
    var f5 := "Size: " + m.size;
    var f4 := "Timestamp: " + m.timestamp + "\n" + f5;
    var f3 := "Content: " + m.content + "\n" + f4;
    var f2 := "Sender: " + m.sender + "\n" + f3;
    FormattedLines(m);
    FieldOfLine("Title: ", m.title, f2);
    FieldOfLine("Sender: ", m.sender, f3);
    FieldOfLine("Content: ", m.content, f4);
    FieldOfLine("Timestamp: ", m.timestamp, f5);
  }

  /** Two mails with newline-free leading fields and equal texts are the same mail. */
  lemma FormatInjective(m1: Mail, m2: Mail)
    requires '\n' !in m1.title && '\n' !in m1.sender && '\n' !in m1.content && '\n' !in m1.timestamp
    requires '\n' !in m2.title && '\n' !in m2.sender && '\n' !in m2.content && '\n' !in m2.timestamp
    requires FormatMail(m1) == FormatMail(m2)
    ensures m1 == m2
  {
    FormatRoundTrip(m1);
    FormatRoundTrip(m2);
  }
}
