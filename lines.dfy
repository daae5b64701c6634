/**
 * Reading back the line-per-field text that formatMail produces: the text
 * up to the first newline, and what follows that newline.
 */
module Lines {
  import opened Optional

  /** The characters before the first '\n' (all of s if it has none). */
  function FirstLine(s: string): (r: string)
    ensures r <= s && '\n' !in r
    decreases |s|
  {
    if s == [] || s[0] == '\n' then [] else [s[0]] + FirstLine(s[1..])
  }

  /** The characters after the first '\n' (empty if s has none). */
  function AfterFirstLine(s: string): (r: string)
    ensures |r| <= |s|
    decreases |s|
  {
    if s == [] then [] else if s[0] == '\n' then s[1..] else AfterFirstLine(s[1..])
  }

  /** A line with no newline of its own, followed by a newline, is read back exactly. */
  lemma {:induction false} SplitLine(a: string, b: string)
    requires '\n' !in a
    ensures FirstLine(a + "\n" + b) == a
    ensures AfterFirstLine(a + "\n" + b) == b
    decreases |a|
  {
    if a != [] {
      assert (a + "\n" + b)[1..] == a[1..] + "\n" + b;
      SplitLine(a[1..], b);
    }
  }

  /** The text after a known tag, if the text starts with it. */
  function AfterTag(tag: string, s: string): (r: Option<string>)
    ensures r.Some? <==> tag <= s
    ensures r.Some? ==> s == tag + r.value
  {
    if tag <= s then Some(s[|tag|..]) else None
  }
}
