/** The text of a job notification (the `fmt.Sprintf` in `main`), and a reader
    for it that shows how much of the job the text really conveys. */
module Message {
  import opened Wrappers

  const Prefix := "Download of \""
  const Infix := "\" completed.\nStatus: "

  /** Two lines: the job name in double quotes, then the raw status. Both are
      inserted verbatim; nothing is escaped: the name and the status sit
      unchanged at fixed positions between the fixed prefix and middle. */
  function JobMessage(name: string, status: string): (msg: string)
    ensures |msg| == |Prefix| + |name| + |Infix| + |status|
    ensures msg[..|Prefix|] == Prefix
    ensures msg[|Prefix|..|Prefix| + |name|] == name
    ensures msg[|Prefix| + |name|..|Prefix| + |name| + |Infix|] == Infix
    ensures msg[|Prefix| + |name| + |Infix|..] == status
  {
    Prefix + name + Infix + status
  }

  /** The position of the first `c` in `s`, if any. */
  function IndexOf(s: string, c: char): (r: Option<nat>)
    ensures r.None? ==> c !in s
    ensures r.Some? ==> r.value < |s| && s[r.value] == c && c !in s[..r.value]
  {
    if s == [] then None
    else if s[0] == c then Some(0)
    else
      match IndexOf(s[1..], c)
      case None => None
      case Some(i) =>
        assert s[1..][..i] == s[1..i + 1];
        Some(i + 1)
  }

  /** Reads a job notification back: the name runs up to the first double
      quote after the prefix, the status is everything after the infix. */
  function ParseJobMessage(msg: string): (r: Option<(string, string)>)
  {
    if |msg| < |Prefix| || msg[..|Prefix|] != Prefix then None
    else
      var rest := msg[|Prefix|..];
      match IndexOf(rest, '"')
      case None => None
      case Some(i) =>
        var tail := rest[i..];
        if |tail| < |Infix| || tail[..|Infix|] != Infix then None
        else Some((rest[..i], tail[|Infix|..]))
  }

  /** The reader inverts the formatter exactly on names without a double
      quote: a parse yields (name, status) if and only if the text is that
      pair's notification and the name is quote-free. */
  lemma {:induction false} ParseJobMessageExact(msg: string, name: string, status: string)
    ensures ParseJobMessage(msg) == Some((name, status)) <==> msg == JobMessage(name, status) && '"' !in name
  {
    if msg == JobMessage(name, status) && '"' !in name {
      var rest := msg[|Prefix|..];
      assert rest == name + Infix + status;
      assert rest[|name|] == '"';
      assert rest[..|name|] == name;
      assert rest[|name|..] == Infix + status;
    }
    if ParseJobMessage(msg) == Some((name, status)) {
      var rest := msg[|Prefix|..];
      var i := IndexOf(rest, '"').value;
      var tail := rest[i..];
      assert name == rest[..i];
      assert status == tail[|Infix|..];
      assert tail == tail[..|Infix|] + tail[|Infix|..];
      assert rest == rest[..i] + tail;
      assert msg == msg[..|Prefix|] + rest;
    }
  }

  /** Without escaping, a double quote in the name makes the text ambiguous:
      two different jobs can produce the same notification. */
  lemma QuotedNameIsAmbiguous()
    ensures JobMessage("a" + Infix + "b", "c") == JobMessage("a", "b" + Infix + "c")
    ensures ("a" + Infix + "b", "c") != ("a", "b" + Infix + "c")
  {
  }
}
