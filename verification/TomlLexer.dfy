/** The tokens of a TOML text: what each lexing routine reads from the remaining text,
    and the stateful lexer that does so over an input with a position and a line number. */
module TomlLexer {
  import opened Basics
  import opened TomlText
  import opened TomlNumbers
  import opened TomlUnicode

  datatype Token =
    | ErrorToken(message: string)
    | EndOfFile
    | EndOfLine
    | Ident(text: string)
    | StringToken(text: string)
    | MultilineToken(text: string)
    | BoolToken(b: bool)
    | IntToken(i: int64)
    | DoubleToken(d: real)
    | TimeToken(t: int)
    | Comma | Dot | Equal | LBracket | RBracket | LBrace | RBrace
  {
    /** Every token but these two took at least one character. */
    predicate Live() { !EndOfFile? && !ErrorToken? }

    predicate IsKey() { Ident? || StringToken? }
  }

  /** The library conversions of a floating-point literal and of a time; a time is never
      read from the empty text. */
  datatype Library = Library(toDouble: string -> real, toTime: string -> Option<int>) {
    predicate Ok() { toTime("") == None }
  }

  /** Bare words are read as keys or as values. */
  datatype Mode = KeyMode | ValueMode(lib: Library) {
    predicate Ok() { ValueMode? ==> lib.Ok() }
  }

  /** A token and the text after it. */
  datatype Lexed = Lexed(token: Token, rest: string) {
    predicate ReadFrom(s: string) { |rest| <= |s| && (token.Live() ==> |rest| < |s|) }
  }

  const BAD_ESCAPE: string := "string has unknown escape sequence"

  // ---------- what the routines read

  predicate NotNewline(c: char) { c != '\n' }

  function SkipLine(s: string): (r: string)
    ensures |r| <= |s| && (s != "" && s[0] != '\n' ==> |r| < |s|)
  {
    s[Run(s, NotNewline)..]
  }

  /** Blanks and one newline after an opening `"""` are ignored. */
  function SkipOpening(s: string): (r: string)
    ensures |r| <= |s|
  {
    SkipNewline(s[Run(s, IsBlank)..])
  }

  function SkipNewline(s: string): (r: string)
    ensures |r| <= |s|
  {
    if s != "" && s[0] == '\n' then s[1..] else s
  }

  function SimpleEscape(c: char): Option<char> {
    match c
    case 't' => Some('\t')
    case 'n' => Some('\n')
    case 'r' => Some('\r')
    case '\"' => Some('\"')
    case '\'' => Some('\'')
    case '\\' => Some('\\')
    case _ => None
  }

  /** What an escape stands for and the text after it; s starts after the backslash. */
  function Escaped(s: string): (r: (Option<string>, string))
    ensures |r.1| <= |s|
  {
    if s == "" then (None, s)
    else if s[0] == 'u' || s[0] == 'U' then
      var size := if s[0] == 'u' then 4 else 8;
      var n := Run(s[1..], IsHex);
      if n < size then (None, s[1..][n..])
      else (Some(Unescape(s[1..][..size])), s[1..][size..])
    else if s[0] == '\n' then (Some(""), s[1..][Run(s[1..], IsSpace)..])
    else
      match SimpleEscape(s[0])
      case Some(c) => (Some([c]), s[1..])
      case None => (None, s[1..])
  }

  /** The body of a double-quoted string after `got` was read. */
  function DoubleQuoted(s: string, multiline: bool, got: string): (l: Lexed)
    ensures l.ReadFrom(s)
    decreases |s|
  {
    if s == "" then Lexed(ErrorToken("string didn't end"), s)
    else if s[0] == '\\' then
      match Escaped(s[1..])
      case (None, rest) => Lexed(ErrorToken(BAD_ESCAPE), rest)
      case (Some(c), rest) => DoubleQuoted(rest, multiline, got + c)
    else if s[0] == '\"' then
      if !multiline then Lexed(StringToken(got), s[1..])
      else if |s| > 1 && s[1] == '\"' then
        if |s| > 2 && s[2] == '\"' then Lexed(MultilineToken(got), s[3..])
        else DoubleQuoted(s[2..], multiline, got + "\"\"")
      else DoubleQuoted(s[1..], multiline, got + "\"")
    else DoubleQuoted(s[1..], multiline, got + [s[0]])
  }

  function DoubleQuote(s: string): (l: Lexed)
    ensures l.ReadFrom(s)
  {
    if s == "" || s[0] != '\"' then Lexed(ErrorToken("string didn't start with '\"'"), s)
    else if |s| > 1 && s[1] == '\"' then
      if |s| > 2 && s[2] == '\"' then DoubleQuoted(SkipOpening(s[3..]), true, "")
      else Lexed(StringToken(""), s[2..])
    else DoubleQuoted(s[1..], false, "")
  }

  /** The body of a `'''` string after `got` was read. */
  function SingleQuotedMultiline(s: string, got: string): (l: Lexed)
    ensures l.ReadFrom(s)
    decreases |s|
  {
    if s == "" then Lexed(ErrorToken("string didn't end with '\'\'\'' ?"), s)
    else if s[0] == '\'' then
      if |s| > 1 && s[1] == '\'' then
        if |s| > 2 && s[2] == '\'' then Lexed(MultilineToken(got), s[3..])
        else SingleQuotedMultiline(s[2..], got + "\'\'")
      else SingleQuotedMultiline(s[1..], got + "\'")
    else SingleQuotedMultiline(s[1..], got + [s[0]])
  }

  predicate NotQuote(c: char) { c != '\'' }

  /** The body of a `'` string. */
  function SingleQuoted(s: string): (l: Lexed)
    ensures l.ReadFrom(s)
  {
    var n := Run(s, NotQuote);
    if n == |s| then Lexed(ErrorToken("string didn't end with '\''?"), "")
    else Lexed(StringToken(s[..n]), s[n..][1..])
  }

  function SingleQuote(s: string): (l: Lexed)
    ensures l.ReadFrom(s)
  {
    if s == "" || s[0] != '\'' then Lexed(ErrorToken("string didn't start with '\''?"), s)
    else if |s| > 1 && s[1] == '\'' then
      if |s| > 2 && s[2] == '\'' then SingleQuotedMultiline(SkipNewline(s[3..]), "")
      else Lexed(StringToken(""), s[2..])
    else SingleQuoted(s[1..])
  }

  function Key(s: string): (l: Lexed)
    ensures l.ReadFrom(s)
  {
    var n := Run(s, IsKeyChar);
    if n == 0 then Lexed(ErrorToken("Unknown key format"), s) else Lexed(Ident(s[..n]), s[n..])
  }

  /** The token of a word that is neither a string nor punctuation. */
  function Word(lib: Library, s: string): Token {
    if IsInteger(s) then StrippedInteger(s); IntToken(ToInt64(RemoveDelimiter(s)))
    else if IsDouble(s) then DoubleToken(lib.toDouble(RemoveDelimiter(s)))
    else match lib.toTime(s)
      case Some(t) => TimeToken(t)
      case None => ErrorToken("Invalid token")
  }

  function AlphaWord(s: string): Token {
    if s == "true" then BoolToken(true)
    else if s == "false" then BoolToken(false)
    else ErrorToken("Unknown ident: " + s)
  }

  function Val(lib: Library, s: string): (l: Lexed)
    requires lib.Ok()
    ensures l.ReadFrom(s)
  {
    if s != "" && IsAlpha(s[0]) then
      var n := Run(s, IsAlpha);
      Lexed(AlphaWord(s[..n]), s[n..])
    else
      var n := Run(s, IsValueChar);
      Lexed(Word(lib, s[..n]), s[n..])
  }

  function Punctuation(c: char): Option<Token> {
    match c
    case '\n' => Some(EndOfLine)
    case '=' => Some(Equal)
    case '{' => Some(LBrace)
    case '}' => Some(RBrace)
    case '[' => Some(LBracket)
    case ']' => Some(RBracket)
    case ',' => Some(Comma)
    case '.' => Some(Dot)
    case _ => None
  }

  /** The next token of a text. */
  function NextToken(mode: Mode, s: string): (l: Lexed)
    requires mode.Ok()
    ensures l.ReadFrom(s)
    decreases |s|
  {
    if s == "" then Lexed(EndOfFile, s)
    else if s[0] == ' ' || s[0] == '\t' || s[0] == '\r' then NextToken(mode, s[1..])
    else if s[0] == '#' then NextToken(mode, SkipLine(s))
    else if Punctuation(s[0]).Some? then Lexed(Punctuation(s[0]).value, s[1..])
    else if s[0] == '\"' then DoubleQuote(s)
    else if s[0] == '\'' then SingleQuote(s)
    else if mode.ValueMode? then Val(mode.lib, s)
    else Key(s)
  }

  // ---------- the lexer

  /** Whether the input may be read, and the text after its byte order mark. An input that
      starts with the first byte of the mark only is refused. */
  function ByteOrderMark(s: string): (bool, string) {
    if s == "" || s[0] != 0xEF as char then (true, s)
    else if |s| == 1 then (false, s[1..])
    else if s[1] != 0xBB as char || |s| == 2 then (false, s[2..])
    else (s[2] == 0xBF as char, s[3..])
  }

  class Lexer {
    const input: string
    var pos: nat
    var lineNo: nat
    /** Where the counting of lines starts: after the byte order mark. */
    ghost var start: nat

    ghost predicate Valid()
      reads this
    {
      start <= pos <= |input| && lineNo == 1 + Newlines(input[start..pos])
    }

    /** The text that is still to be read. */
    function Rest(): string
      reads this
      requires pos <= |input|
    {
      input[pos..]
    }

    constructor (input: string)
      ensures this.input == input && Valid() && pos == 0 && start == 0
    {
      this.input := input;
      pos, lineNo, start := 0, 1, 0;
    }

    /** Skips a byte order mark. Lines are not counted while it is looked for. */
    method SkipByteOrderMark() returns (ok: bool)
      requires Valid() && pos == 0 && start == 0
      modifies this
      ensures Valid() && start == pos && lineNo == 1
      ensures ok == ByteOrderMark(input).0 && Rest() == ByteOrderMark(input).1
    {
      assert input[0..] == input;
      if pos < |input| && input[pos] == 0xEF as char {
        pos := pos + 1;
        ok := false;
        if pos < |input| {
          var x2 := input[pos];
          pos := pos + 1;
          if x2 == 0xBB as char && pos < |input| {
            ok := input[pos] == 0xBF as char;
            pos := pos + 1;
          }
        }
      } else {
        ok := true;
      }
      start := pos;
      assert input[start..pos] == "";
    }

    method Next()
      requires Valid() && pos < |input|
      modifies this`pos, this`lineNo
      ensures Valid() && pos == old(pos) + 1
      ensures Rest() == old(Rest())[1..] && |Rest()| == old(|Rest()|) - 1
    {
      assert input[start..pos + 1][..pos - start] == input[start..pos];
      if input[pos] == '\n' {
        lineNo := lineNo + 1;
      }
      pos := pos + 1;
    }

    /** Reads on while p holds. */
    method SkipWhile(p: char -> bool) returns (s: string)
      requires Valid()
      modifies this`pos, this`lineNo
      ensures Valid()
      ensures var n := Run(old(Rest()), p); s == old(Rest())[..n] && Rest() == old(Rest())[n..]
    {
      hide Run;
      ghost var all := Rest();
      s := "";
      while pos < |input| && p(input[pos])
        invariant Valid()
        invariant |s| <= Run(all, p) && s == all[..|s|] && Rest() == all[|s|..]
      {
        assert all[..|s| + 1] == s + [all[|s|]];
        s := s + [input[pos]];
        Next();
      }
    }

    /** Reads the hexadecimal digits of an escape, stopping at the first other character. */
    method NextHex(size: nat) returns (codepoint: string)
      requires Valid()
      modifies this`pos, this`lineNo
      ensures Valid()
      ensures var n := Run(old(Rest()), IsHex);
              var m := if n < size then n else size;
              codepoint == old(Rest())[..m] && Rest() == old(Rest())[m..]
    {
      hide Run;
      ghost var all := Rest();
      codepoint := "";
      while |codepoint| < size && pos < |input| && IsHex(input[pos])
        invariant Valid()
        invariant |codepoint| <= Run(all, IsHex) && |codepoint| <= size
        invariant codepoint == all[..|codepoint|] && Rest() == all[|codepoint|..]
        decreases size - |codepoint|
      {
        assert all[..|codepoint| + 1] == codepoint + [all[|codepoint|]];
        codepoint := codepoint + [input[pos]];
        Next();
      }
    }

    /** Reads an escape after the backslash: what it stands for, or None when it is unknown. */
    method NextEscape() returns (c: Option<string>)
      requires Valid()
      modifies this`pos, this`lineNo
      ensures Valid()
      ensures Escaped(old(Rest())) == (c, Rest())
    {
      if pos == |input| {
        return None;
      }
      var e := input[pos];
      Next();
      if e == 'u' || e == 'U' {
        var size := if e == 'u' then 4 else 8;
        var codepoint := NextHex(size);
        return if |codepoint| == size then Some(Unescape(codepoint)) else None;
      } else if e == '\n' {
        var _ := SkipWhile(IsSpace);
        return Some("");
      } else {
        var simple := SimpleEscape(e);
        return if simple.Some? then Some([simple.value]) else None;
      }
    }

    method NextStringDoubleQuote() returns (t: Token)
      requires Valid()
      modifies this`pos, this`lineNo
      ensures Valid()
      ensures Lexed(t, Rest()) == DoubleQuote(old(Rest()))
    {
      hide DoubleQuoted;
      if pos == |input| || input[pos] != '\"' {
        return ErrorToken("string didn't start with '\"'");
      }
      Next();
      var multiline := false;
      if pos < |input| && input[pos] == '\"' {
        Next();
        if pos == |input| || input[pos] != '\"' {
          return StringToken("");
        }
        Next();
        var _ := SkipWhile(IsBlank);
        if pos < |input| && input[pos] == '\n' {
          Next();
        }
        multiline := true;
      }
      t := NextDoubleQuoted(multiline);
    }

    method NextDoubleQuoted(multiline: bool) returns (t: Token)
      requires Valid()
      modifies this`pos, this`lineNo
      ensures Valid()
      ensures Lexed(t, Rest()) == DoubleQuoted(old(Rest()), multiline, "")
    {
      var s := "";
      while pos < |input|
        invariant Valid()
        invariant DoubleQuoted(Rest(), multiline, s) == DoubleQuoted(old(Rest()), multiline, "")
        decreases |Rest()|
      {
        var c := input[pos];
        Next();
        if c == '\\' {
          var e := NextEscape();
          if e == None {
            return ErrorToken(BAD_ESCAPE);
          }
          s := s + e.value;
        } else if c == '\"' {
          if !multiline {
            return StringToken(s);
          }
          if pos < |input| && input[pos] == '\"' {
            Next();
            if pos < |input| && input[pos] == '\"' {
              Next();
              return MultilineToken(s);
            }
            s := s + "\"\"";
          } else {
            s := s + "\"";
          }
        } else {
          s := s + [c];
        }
      }
      t := ErrorToken("string didn't end");
    }

    method NextStringSingleQuote() returns (t: Token)
      requires Valid()
      modifies this`pos, this`lineNo
      ensures Valid()
      ensures Lexed(t, Rest()) == SingleQuote(old(Rest()))
    {
      if pos == |input| || input[pos] != '\'' {
        return ErrorToken("string didn't start with '\''?");
      }
      Next();
      if pos < |input| && input[pos] == '\'' {
        Next();
        if pos == |input| || input[pos] != '\'' {
          return StringToken("");
        }
        Next();
        if pos < |input| && input[pos] == '\n' {
          Next();
        }
        t := NextSingleQuotedMultiline();
        return;
      }
      t := NextSingleQuoted();
    }

    method NextSingleQuoted() returns (t: Token)
      requires Valid()
      modifies this`pos, this`lineNo
      ensures Valid()
      ensures Lexed(t, Rest()) == SingleQuoted(old(Rest()))
    {
      var s := SkipWhile(NotQuote);
      if pos == |input| {
        return ErrorToken("string didn't end with '\''?");
      }
      Next();
      t := StringToken(s);
    }

    method NextSingleQuotedMultiline() returns (t: Token)
      requires Valid()
      modifies this`pos, this`lineNo
      ensures Valid()
      ensures Lexed(t, Rest()) == SingleQuotedMultiline(old(Rest()), "")
    {
      var s := "";
      while pos < |input|
        invariant Valid()
        invariant SingleQuotedMultiline(Rest(), s) == SingleQuotedMultiline(old(Rest()), "")
        decreases |Rest()|
      {
        var c := input[pos];
        Next();
        if c == '\'' {
          if pos < |input| && input[pos] == '\'' {
            Next();
            if pos < |input| && input[pos] == '\'' {
              Next();
              return MultilineToken(s);
            }
            s := s + "\'\'";
          } else {
            s := s + "\'";
          }
        } else {
          s := s + [c];
        }
      }
      t := ErrorToken("string didn't end with '\'\'\'' ?");
    }

    method NextKey() returns (t: Token)
      requires Valid()
      modifies this`pos, this`lineNo
      ensures Valid()
      ensures Lexed(t, Rest()) == Key(old(Rest()))
    {
      var s := SkipWhile(IsKeyChar);
      t := if s == "" then ErrorToken("Unknown key format") else Ident(s);
    }

    method NextValue(lib: Library) returns (t: Token)
      requires Valid() && lib.Ok()
      modifies this`pos, this`lineNo
      ensures Valid()
      ensures Lexed(t, Rest()) == Val(lib, old(Rest()))
    {
      if pos < |input| && IsAlpha(input[pos]) {
        var s := SkipWhile(IsAlpha);
        return AlphaWord(s);
      }
      var s := SkipWhile(IsValueChar);
      var isInteger := RecogniseInteger(s);
      var digits := StripDelimiter(s);
      if isInteger {
        StrippedInteger(s);
        return IntToken(ToInt64(digits));
      }
      var isDouble := RecogniseDouble(s);
      if isDouble {
        return DoubleToken(lib.toDouble(digits));
      }
      var time := lib.toTime(s);
      t := if time.Some? then TimeToken(time.value) else ErrorToken("Invalid token");
    }

    method Lex(mode: Mode) returns (t: Token)
      requires Valid() && mode.Ok()
      modifies this`pos, this`lineNo
      ensures Valid()
      ensures Lexed(t, Rest()) == NextToken(mode, old(Rest()))
    {
      while pos < |input|
        invariant Valid()
        invariant NextToken(mode, Rest()) == NextToken(mode, old(Rest()))
        decreases |Rest()|
      {
        var c := input[pos];
        if c == ' ' || c == '\t' || c == '\r' {
          Next();
        } else if c == '#' {
          var _ := SkipWhile(NotNewline);
        } else if Punctuation(c).Some? {
          Next();
          return Punctuation(c).value;
        } else if c == '\"' {
          t := NextStringDoubleQuote();
          return;
        } else if c == '\'' {
          t := NextStringSingleQuote();
          return;
        } else if mode.ValueMode? {
          t := NextValue(mode.lib);
          return;
        } else {
          t := NextKey();
          return;
        }
      }
      t := EndOfFile;
    }
  }
}
