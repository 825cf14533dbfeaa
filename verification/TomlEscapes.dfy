/** The lexer undoes the escaping of the writer, and reads back numbers and Unicode escapes. */
module TomlEscapes {
  import opened Basics
  import opened TomlText
  import opened TomlNumbers
  import opened TomlUnicode
  import opened TomlLexer

  predicate IsQuote(c: char) { c == '\"' }

  // ---------- string literals

  lemma {:induction false} SimpleEscapeReads(c: char, s: string)
    requires |EscapeChar(c)| == 2
    ensures EscapeChar(c)[0] == '\\' && Escaped(EscapeChar(c)[1..] + s) == (Some([c]), s)
  {
    var text := EscapeChar(c)[1..] + s;
    assert text[0] == EscapeChar(c)[1] && text[1..] == s;
    assert SimpleEscape(text[0]) == Some(c);
  }

  lemma {:induction false} EscapedCharReads(c: char, s: string, multiline: bool, got: string)
    ensures DoubleQuoted(EscapeChar(c) + s, multiline, got) == DoubleQuoted(s, multiline, got + [c])
  {
    var text := EscapeChar(c) + s;
    if |EscapeChar(c)| == 2 {
      SimpleEscapeReads(c, s);
      hide Escaped, EscapeChar;
      assert text[1..] == EscapeChar(c)[1..] + s;
    } else {
      hide Escaped;
      assert text[1..] == s;
    }
  }

  lemma QuoteCloses(rest: string, got: string)
    ensures DoubleQuoted("\"" + rest, false, got) == Lexed(StringToken(got), rest)
  {
    assert ("\"" + rest)[1..] == rest;
  }

  lemma {:induction false} EscapedBodyReads(s: string, rest: string, got: string)
    ensures DoubleQuoted(EscapeString(s) + "\"" + rest, false, got) == Lexed(StringToken(got + s), rest)
    decreases |s|
  {
    hide EscapeChar, DoubleQuoted;
    if s == "" {
      assert EscapeString(s) + "\"" + rest == "\"" + rest && got + s == got;
      QuoteCloses(rest, got);
    } else {
      var more := EscapeString(s[1..]) + "\"" + rest;
      assert EscapeString(s) + "\"" + rest == EscapeChar(s[0]) + more;
      EscapedCharReads(s[0], more, false, got);
      EscapedBodyReads(s[1..], rest, got + [s[0]]);
      assert got + [s[0]] + s[1..] == got + s;
    }
  }

  lemma EscapeStart(s: string)
    ensures s != "" ==> EscapeString(s) != "" && EscapeString(s)[0] != '\"'
  {
  }

  lemma {:induction false} QuoteOpens(mode: Mode, body: string)
    requires mode.Ok() && body != "" && body[0] != '\"'
    ensures NextToken(mode, "\"" + body) == DoubleQuoted(body, false, "")
  {
    assert ("\"" + body)[1..] == body;
  }

  lemma {:induction false} EmptyReads(mode: Mode, rest: string)
    requires mode.Ok() && Stops(rest, IsQuote)
    ensures NextToken(mode, "\"\"" + rest) == Lexed(StringToken(""), rest)
  {
    assert ("\"\"" + rest)[2..] == rest;
  }

  /** A printed string literal reads as that string and leaves the rest. An empty literal
      must not be followed by another quote. */
  lemma {:induction false} StringReads(mode: Mode, s: string, rest: string)
    requires mode.Ok() && (s == "" ==> Stops(rest, IsQuote))
    ensures NextToken(mode, Quoted(s) + rest) == Lexed(StringToken(s), rest)
  {
    if s == "" {
      EmptyReads(mode, rest);
    } else {
      EscapeStart(s);
      var body := EscapeString(s) + "\"" + rest;
      assert Quoted(s) + rest == "\"" + body;
      QuoteOpens(mode, body);
      EscapedBodyReads(s, rest, "");
      assert "" + s == s;
    }
  }

  // ---------- keys

  lemma {:induction false} KeyBodyReads(s: string, rest: string, got: string)
    ensures DoubleQuoted(EscapeKeyBody(s) + "\"" + rest, false, got) == Lexed(StringToken(got + s), rest)
    decreases |s|
  {
    if s == "" {
      assert EscapeKeyBody(s) + "\"" + rest == "\"" + rest;
      assert ("\"" + rest)[1..] == rest && got + s == got;
    } else {
      var more := EscapeKeyBody(s[1..]) + "\"" + rest;
      KeyBodyReads(s[1..], rest, got + [s[0]]);
      assert got + [s[0]] + s[1..] == got + s;
      KeyCharReads(s[0], more, got);
      assert EscapeKeyBody(s) + "\"" + rest ==
             (if s[0] == '\\' || s[0] == '\"' then ['\\', s[0]] else [s[0]]) + more;
    }
  }

  lemma {:induction false} KeyCharReads(c: char, s: string, got: string)
    ensures DoubleQuoted((if c == '\\' || c == '\"' then ['\\', c] else [c]) + s, false, got)
            == DoubleQuoted(s, false, got + [c])
  {
    var text := (if c == '\\' || c == '\"' then ['\\', c] else [c]) + s;
    if c == '\\' || c == '\"' {
      assert text[1..][0] == c;
      assert text[1..][1..] == s;
    } else {
      assert text[1..] == s;
    }
  }

  lemma {:induction false} BareKeyReads(k: string, rest: string)
    requires IsBare(k) && Stops(rest, IsKeyChar)
    ensures NextToken(KeyMode, k + rest) == Lexed(Ident(k), rest)
  {
    RunOf(k, rest, IsKeyChar);
    assert IsKeyChar((k + rest)[0]);
  }

  lemma {:induction false} QuotedKeyReads(k: string, rest: string)
    requires !All(k, IsKeyChar)
    ensures NextToken(KeyMode, EscapeKey(k) + rest) == Lexed(StringToken(k), rest)
  {
    var body := EscapeKeyBody(k) + "\"" + rest;
    assert k != "";
    assert EscapeKey(k) + rest == "\"" + body;
    QuoteOpens(KeyMode, body);
    KeyBodyReads(k, rest, "");
    assert "" + k == k;
  }

  function KeyToken(k: string): Token {
    if All(k, IsKeyChar) then Ident(k) else StringToken(k)
  }

  /** A printed key reads as that key, unless the text goes on with a key character. */
  lemma {:induction false} KeyReads(k: string, rest: string)
    requires k != "" && Stops(rest, IsKeyChar)
    ensures NextToken(KeyMode, EscapeKey(k) + rest) == Lexed(KeyToken(k), rest)
  {
    if All(k, IsKeyChar) {
      BareKeyReads(k, rest);
    } else {
      QuotedKeyReads(k, rest);
    }
  }

  // ---------- words

  lemma {:induction false} WordReads(lib: Library, s: string, rest: string)
    requires lib.Ok() && s != "" && All(s, IsValueChar) && Stops(rest, IsValueChar)
    requires !IsAlpha(s[0]) && s[0] != '.'
    ensures NextToken(ValueMode(lib), s + rest) == Lexed(Word(lib, s), rest)
  {
    RunOf(s, rest, IsValueChar);
    assert (s + rest)[0] == s[0] && IsValueChar(s[0]);
  }

  /** An integer printed with any underscores between digits that the grammar allows reads as
      that integer. */
  lemma {:induction false} IntegerReads(lib: Library, i: int64, s: string, rest: string)
    requires lib.Ok() && InIntegerLanguage(s) && RemoveDelimiter(s) == IntText(i)
    requires Stops(rest, IsValueChar)
    ensures NextToken(ValueMode(lib), s + rest) == Lexed(IntToken(i), rest)
  {
    IntegerLanguage(s);
    IntegerChars(s);
    WordReads(lib, s, rest);
    IntTextReads(i);
  }

  lemma {:induction false} IntegerChars(s: string)
    requires InIntegerLanguage(s)
    ensures s != "" && All(s, IsValueChar) && !IsAlpha(s[0]) && s[0] != '.'
  {
    var sign, digits :| SignedGroups(sign, digits) && s == sign + digits;
    var groups :| groups != [] && AreDigitRuns(groups) && digits == Join(groups, "_");
    JoinChars(groups);
    JoinStart(groups);
  }

  lemma {:induction false} JoinChars(groups: seq<string>)
    requires AreDigitRuns(groups)
    ensures All(Join(groups, "_"), IsValueChar)
  {
    if |groups| == 1 {
      assert All(groups[0], IsDigit);
    } else if |groups| > 1 {
      JoinChars(groups[1..]);
      assert All(groups[0], IsDigit);
    }
  }

  lemma {:induction false} PlainIsInteger(i: int64)
    ensures InIntegerLanguage(IntText(i)) && RemoveDelimiter(IntText(i)) == IntText(i)
  {
    var n: int := i;
    var digits := NatText(if n < 0 then -n else n);
    assert Join([digits], "_") == digits && AreDigitRuns([digits]);
    var sign := if n < 0 then "-" else "";
    assert SignedGroups(sign, digits) && IntText(i) == sign + digits;
    NothingToRemove(IntText(i));
    IntTextShape(n);
    assert All(digits, IsDigit);
    assert forall k :: 0 <= k < |digits| ==> IntText(i)[k + |sign|] == digits[k];
  }

  lemma NothingToRemove(s: string)
    ensures (forall k :: 0 <= k < |s| ==> s[k] != '_') ==> RemoveDelimiter(s) == s
  {
    if s != "" && (forall k :: 0 <= k < |s| ==> s[k] != '_') {
      NothingToRemove(s[1..]);
      assert s == [s[0]] + s[1..];
    }
  }

  lemma {:induction false} BoolReads(lib: Library, b: bool, rest: string)
    requires lib.Ok() && Stops(rest, IsAlpha)
    ensures NextToken(ValueMode(lib), (if b then "true" else "false") + rest) == Lexed(BoolToken(b), rest)
  {
    RunOf(if b then "true" else "false", rest, IsAlpha);
  }

  // ---------- Unicode escapes

  /** A code point written with four digits or with eight, in either case. */
  datatype Code = Code(x: nat, short: bool, lower: bool) {
    predicate Ok() { if short then x <= 0xFFFF else x <= 0x10FFFF }

    function Text(): string {
      if short then "\\u" + HexText(x, 4, lower) else "\\U" + HexText(x, 8, lower)
    }
  }

  function Escapes(cs: seq<Code>): string {
    if cs == [] then "" else cs[0].Text() + Escapes(cs[1..])
  }

  function Points(cs: seq<Code>): seq<nat> { if cs == [] then [] else [cs[0].x] + Points(cs[1..]) }

  lemma {:induction false} EscapeReads(c: Code, s: string, multiline: bool, got: string)
    requires c.Ok()
    ensures DoubleQuoted(c.Text() + s, multiline, got) == DoubleQuoted(s, multiline, got + Encode(c.x))
  {
    var n := if c.short then 4 else 8;
    var digits := HexText(c.x, n, c.lower);
    var text := c.Text() + s;
    Power16Of8();
    HexTextReads(c.x, n, c.lower);
    var body := text[1..];
    assert body[0] == (if c.short then 'u' else 'U') && body[1..] == digits + s;
    AtLeast(digits, s);
    assert (digits + s)[..n] == digits && (digits + s)[n..] == s;
    assert Escaped(body) == (Some(Unescape(digits)), s);
  }

  lemma {:induction false} AtLeast(digits: string, s: string)
    requires All(digits, IsHex)
    ensures Run(digits + s, IsHex) >= |digits|
  {
  }

  lemma {:induction false} EscapesRead(cs: seq<Code>, rest: string, got: string)
    requires forall i :: 0 <= i < |cs| ==> cs[i].Ok()
    ensures DoubleQuoted(Escapes(cs) + "\"" + rest, false, got) == Lexed(StringToken(got + EncodeAll(Points(cs))), rest)
    decreases |cs|
  {
    hide Encode, Code.Text, DoubleQuoted;
    if cs == [] {
      assert Escapes(cs) + "\"" + rest == "\"" + rest && got + EncodeAll(Points(cs)) == got;
      QuoteCloses(rest, got);
    } else {
      var more := Escapes(cs[1..]) + "\"" + rest;
      assert Escapes(cs) + "\"" + rest == cs[0].Text() + more;
      EscapeReads(cs[0], more, false, got);
      EscapesRead(cs[1..], rest, got + Encode(cs[0].x));
      assert Points(cs)[1..] == Points(cs[1..]);
      assert got + Encode(cs[0].x) + EncodeAll(Points(cs[1..])) == got + EncodeAll(Points(cs));
    }
  }

  lemma {:induction false} PointsAt(cs: seq<Code>)
    ensures |Points(cs)| == |cs| && forall i :: 0 <= i < |cs| ==> Points(cs)[i] == cs[i].x
  {
    if cs != [] {
      PointsAt(cs[1..]);
    }
  }

  /** A literal of `\u` and `\U` escapes of any scalar values but zero reads as UTF-8 for those
      values. */
  lemma {:induction false} UnicodeReads(mode: Mode, cs: seq<Code>, rest: string)
    requires mode.Ok() && cs != []
    requires forall i :: 0 <= i < |cs| ==> cs[i].Ok() && IsScalar(cs[i].x) && cs[i].x != 0
    ensures var l := NextToken(mode, "\"" + Escapes(cs) + "\"" + rest);
            l.token.StringToken? && l.rest == rest && Decode(l.token.text) == Some(Points(cs))
  {
    var body := Escapes(cs) + "\"" + rest;
    assert "\"" + Escapes(cs) + "\"" + rest == "\"" + body;
    assert body[0] == '\\';
    QuoteOpens(mode, body);
    EscapesRead(cs, rest, "");
    PointsAt(cs);
    DecodeEncodes(Points(cs));
    assert "" + EncodeAll(Points(cs)) == EncodeAll(Points(cs));
  }
}
