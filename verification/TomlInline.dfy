/** Forms that the reader accepts and the writer never prints: literal and multi-line strings
    and comments. */
module TomlInline {
  import opened TomlText
  import opened TomlLexer
  import opened TomlEscapes

  // ---------- literal strings

  /** Between single quotes every other character stands for itself. */
  lemma {:induction false} LiteralReads(mode: Mode, s: string, rest: string)
    requires mode.Ok() && s != "" && All(s, NotQuote)
    ensures NextToken(mode, "\'" + (s + ("\'" + rest))) == Lexed(StringToken(s), rest)
  {
    var body := s + ("\'" + rest);
    var text := "\'" + body;
    assert text[1..] == body && body[0] == s[0] && NotQuote(s[0]);
    RunOf(s, "\'" + rest, NotQuote);
    assert body[..|s|] == s && body[|s|..] == "\'" + rest && ("\'" + rest)[1..] == rest;
  }

  predicate HasTriple(s: string) { exists i :: 0 <= i < |s| - 2 && IsTriple(s, i) }

  predicate IsTriple(s: string, i: nat)
    requires i + 2 < |s|
  {
    s[i] == s[i + 1] == s[i + 2] == '\''
  }

  predicate EndsInQuote(s: string) { s != "" && s[|s| - 1] == '\'' }

  lemma TailOfPlain(s: string, n: nat)
    requires n <= |s| && !HasTriple(s) && !EndsInQuote(s)
    ensures !HasTriple(s[n..]) && !EndsInQuote(s[n..])
  {
    if HasTriple(s[n..]) {
      var i :| 0 <= i < |s[n..]| - 2 && IsTriple(s[n..], i);
      assert IsTriple(s, i + n);
    }
  }

  /** The body of a multi-line literal string, if it neither holds three quotes in a row nor
      ends in a quote. */
  lemma {:induction false} MultilineBodyReads(s: string, rest: string, got: string)
    requires !HasTriple(s) && !EndsInQuote(s)
    ensures SingleQuotedMultiline(s + ("\'\'\'" + rest), got) == Lexed(MultilineToken(got + s), rest)
    decreases |s|
  {
    var tail := "\'\'\'" + rest;
    var text := s + tail;
    if s == "" {
      assert text == tail && tail[3..] == rest && got + s == got;
    } else {
      var n := if s[0] == '\'' && s[1] == '\'' then 2 else 1;
      assert n == 2 ==> |s| > 2 && !IsTriple(s, 0);
      TailOfPlain(s, n);
      assert text[n..] == s[n..] + tail;
      assert forall i :: 0 <= i < |s| ==> text[i] == s[i];
      MultilineBodyReads(s[n..], rest, got + s[..n]);
      assert got + s[..n] + s[n..] == got + s;
      assert s[..1] == [s[0]] && (n == 2 ==> s[..2] == "\'\'");
    }
  }

  /** A multi-line literal string; a newline right after its opening is dropped. */
  lemma {:induction false} MultilineReads(mode: Mode, s: string, rest: string)
    requires mode.Ok() && !HasTriple(s) && !EndsInQuote(s)
    ensures NextToken(mode, "\'\'\'\n" + (s + ("\'\'\'" + rest))) == Lexed(MultilineToken(s), rest)
  {
    var body := s + ("\'\'\'" + rest);
    var text := "\'\'\'\n" + body;
    assert text[3..] == "\n" + body && ("\n" + body)[1..] == body;
    MultilineBodyReads(s, rest, "");
    assert "" + s == s;
    hide SingleQuotedMultiline, HasTriple, EndsInQuote;
    assert NextToken(mode, text) == SingleQuote(text) == SingleQuotedMultiline(SkipNewline("\n" + body), "");
  }

  // ---------- multi-line strings

  lemma {:induction false} MultilineEnds(rest: string, got: string)
    ensures DoubleQuoted("\"\"\"" + rest, true, got) == Lexed(MultilineToken(got), rest)
  {
    var tail := "\"\"\"" + rest;
    assert tail[0] == tail[1] == tail[2] == '\"' && tail[3..] == rest;
  }

  lemma {:induction false} MultilineEscapesRead(s: string, rest: string, got: string)
    ensures DoubleQuoted(EscapeString(s) + ("\"\"\"" + rest), true, got) == Lexed(MultilineToken(got + s), rest)
    decreases |s|
  {
    hide DoubleQuoted, EscapeChar;
    var tail := "\"\"\"" + rest;
    if s == "" {
      MultilineEnds(rest, got);
      assert EscapeString(s) + tail == tail && got + s == got;
    } else {
      var more := EscapeString(s[1..]) + tail;
      EscapedCharReads(s[0], more, true, got);
      MultilineEscapesRead(s[1..], rest, got + [s[0]]);
      assert EscapeString(s) + tail == EscapeChar(s[0]) + more;
      assert got + [s[0]] + s[1..] == got + s;
    }
  }

  /** A multi-line string of escaped text; a newline right after its opening is dropped. */
  lemma {:induction false} MultilineStringReads(mode: Mode, s: string, rest: string)
    requires mode.Ok()
    ensures NextToken(mode, "\"\"\"\n" + (EscapeString(s) + ("\"\"\"" + rest))) == Lexed(MultilineToken(s), rest)
  {
    var body := EscapeString(s) + ("\"\"\"" + rest);
    var text := "\"\"\"\n" + body;
    MultilineEscapesRead(s, rest, "");
    hide DoubleQuoted, EscapeString;
    assert text[3..] == "\n" + body && ("\n" + body)[1..] == body;
    assert SkipOpening("\n" + body) == body;
    assert "" + s == s;
  }

  /** A backslash at the end of a line joins it with the next text. */
  lemma {:induction false} LineJoins(spaces: string, s: string, multiline: bool, got: string)
    requires All(spaces, IsSpace) && Stops(s, IsSpace)
    ensures DoubleQuoted("\\\n" + (spaces + s), multiline, got) == DoubleQuoted(s, multiline, got)
  {
    var text := "\\\n" + (spaces + s);
    assert text[1..] == "\n" + (spaces + s) && text[1..][1..] == spaces + s;
    RunOf(spaces, s, IsSpace);
    assert (spaces + s)[|spaces|..] == s && got + "" == got;
  }

  // ---------- comments

  /** A comment reads as the end of its line. */
  lemma {:induction false} CommentReads(mode: Mode, comment: string, rest: string)
    requires mode.Ok() && All(comment, NotNewline)
    ensures NextToken(mode, "#" + (comment + ("\n" + rest))) == Lexed(EndOfLine, rest)
  {
    var line := "#" + comment;
    var text := "#" + (comment + ("\n" + rest));
    assert text == line + ("\n" + rest) && All(line, NotNewline);
    RunOf(line, "\n" + rest, NotNewline);
    assert SkipLine(text) == "\n" + rest && ("\n" + rest)[1..] == rest;
  }
}
