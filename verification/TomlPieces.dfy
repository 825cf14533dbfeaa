/** Every way to write a double-quoted string, on one line or over several. */
module TomlPieces {
  import opened TomlText
  import opened TomlUnicode
  import opened TomlLexer
  import opened TomlEscapes
  import opened TomlInline

  // ---------- what is written

  /** A piece of a string: a character as it is, one that is escaped, a Unicode escape, a
      backslash at the end of a line with the blanks after it, one or two quotes. */
  datatype Piece =
    | Itself(c: char)
    | Escape(c: char)
    | Coded(code: Code)
    | Folded(blanks: string)
    | Quotes(two: bool)

  function PieceText(p: Piece): string {
    match p
    case Itself(c) => [c]
    case Escape(c) => EscapeChar(c)
    case Coded(code) => code.Text()
    case Folded(blanks) => "\\\n" + blanks
    case Quotes(two) => if two then "\"\"" else "\""
  }

  /** What a piece stands for. */
  function StandsFor(p: Piece): string {
    match p
    case Itself(c) => [c]
    case Escape(c) => [c]
    case Coded(code) => Encode(code.x)
    case Folded(_) => ""
    case Quotes(two) => if two then "\"\"" else "\""
  }

  function PiecesText(ps: seq<Piece>): string {
    if ps == [] then "" else PieceText(ps[0]) + PiecesText(ps[1..])
  }

  function StandFor(ps: seq<Piece>): string {
    if ps == [] then "" else StandsFor(ps[0]) + StandFor(ps[1..])
  }

  /** A piece before others: quotes stand in strings over several lines only, and neither next to
      each other nor at the end; blanks after a line that is folded belong to the fold. */
  predicate GoodPiece(p: Piece, next: seq<Piece>, multiline: bool) {
    match p
    case Itself(c) => c != '\\' && c != '\"'
    case Escape(c) => |EscapeChar(c)| == 2
    case Coded(code) => code.Ok()
    case Folded(blanks) => All(blanks, IsSpace) && (next != [] && next[0].Itself? ==> !IsSpace(next[0].c))
    case Quotes(_) => multiline && next != [] && !next[0].Quotes?
  }

  predicate GoodPieces(ps: seq<Piece>, multiline: bool) {
    ps == [] || (GoodPiece(ps[0], ps[1..], multiline) && GoodPieces(ps[1..], multiline))
  }

  function Closing(multiline: bool): string { if multiline then "\"\"\"" else "\"" }

  // ---------- what is read

  lemma {:induction false} PieceReads(p: Piece, next: seq<Piece>, s: string, multiline: bool, got: string)
    requires GoodPiece(p, next, multiline) && s != ""
    requires p.Quotes? ==> s[0] != '\"'
    requires p.Folded? ==> !IsSpace(s[0])
    ensures DoubleQuoted(PieceText(p) + s, multiline, got) == DoubleQuoted(s, multiline, got + StandsFor(p))
  {
    hide Escaped, EscapeChar, Encode, Code.Text;
    var text := PieceText(p) + s;
    match p
    case Itself(c) => assert text[1..] == s;
    case Escape(c) => EscapedCharReads(c, s, multiline, got);
    case Coded(code) => EscapeReads(code, s, multiline, got);
    case Folded(blanks) =>
      assert text == "\\\n" + (blanks + s) && got + "" == got;
      LineJoins(blanks, s, multiline, got);
    case Quotes(two) => assert text[if two then 2 else 1..] == s;
  }

  /** How the text after a piece starts. */
  lemma PiecesStart(ps: seq<Piece>, multiline: bool, rest: string)
    requires GoodPieces(ps, multiline)
    ensures var text := PiecesText(ps) + (Closing(multiline) + rest);
      && text != ""
      && (ps == [] || !ps[0].Quotes? ==> (text[0] == '\"' <==> ps == []))
      && (ps == [] || !ps[0].Itself? ==> !IsSpace(text[0]))
      && (ps != [] && ps[0].Itself? ==> text[0] == ps[0].c)
  {
    hide EscapeString, PiecesText;
    if ps != [] {
      assert PiecesText(ps) == PieceText(ps[0]) + PiecesText(ps[1..]) by { PiecesTextOf(ps); }
      if ps[0].Escape? {
        SimpleEscapeReads(ps[0].c, "");
      }
    } else {
      PiecesTextOf(ps);
    }
  }

  lemma PiecesTextOf(ps: seq<Piece>)
    ensures PiecesText(ps) == if ps == [] then "" else PieceText(ps[0]) + PiecesText(ps[1..])
  {
  }

  lemma {:induction false} PiecesEnd(multiline: bool, rest: string, got: string)
    ensures DoubleQuoted(Closing(multiline) + rest, multiline, got)
            == Lexed(if multiline then MultilineToken(got) else StringToken(got), rest)
  {
    MultilineEnds(rest, got);
    assert ("\"" + rest)[1..] == rest;
  }

  lemma {:induction false} FirstPieceReads(ps: seq<Piece>, multiline: bool, rest: string, got: string)
    requires ps != [] && GoodPieces(ps, multiline)
    ensures var more := PiecesText(ps[1..]) + (Closing(multiline) + rest);
      DoubleQuoted(PieceText(ps[0]) + more, multiline, got) == DoubleQuoted(more, multiline, got + StandsFor(ps[0]))
  {
    hide DoubleQuoted, PieceText, StandsFor, Closing, PiecesText;
    PiecesStart(ps[1..], multiline, rest);
    PieceReads(ps[0], ps[1..], PiecesText(ps[1..]) + (Closing(multiline) + rest), multiline, got);
  }

  lemma {:induction false} PiecesRead(ps: seq<Piece>, multiline: bool, rest: string, got: string)
    requires GoodPieces(ps, multiline)
    ensures var all := got + StandFor(ps);
      DoubleQuoted(PiecesText(ps) + (Closing(multiline) + rest), multiline, got)
      == Lexed(if multiline then MultilineToken(all) else StringToken(all), rest)
    decreases |ps|
  {
    hide DoubleQuoted, PieceText, StandsFor, GoodPiece, Closing;
    var tail := Closing(multiline) + rest;
    if ps == [] {
      assert PiecesText(ps) + tail == tail && got + StandFor(ps) == got;
      PiecesEnd(multiline, rest, got);
    } else {
      var more := PiecesText(ps[1..]) + tail;
      FirstPieceReads(ps, multiline, rest, got);
      PiecesRead(ps[1..], multiline, rest, got + StandsFor(ps[0]));
      assert PiecesText(ps) + tail == PieceText(ps[0]) + more;
      assert got + StandsFor(ps[0]) + StandFor(ps[1..]) == got + StandFor(ps);
    }
  }

  /** A double-quoted string of any pieces reads as what they stand for. */
  lemma {:induction false} QuotedReads(mode: Mode, ps: seq<Piece>, rest: string)
    requires mode.Ok() && GoodPieces(ps, false) && (ps == [] ==> Stops(rest, IsQuote))
    ensures NextToken(mode, "\"" + (PiecesText(ps) + ("\"" + rest))) == Lexed(StringToken(StandFor(ps)), rest)
  {
    hide DoubleQuoted, GoodPieces;
    var body := PiecesText(ps) + (Closing(false) + rest);
    if ps == [] {
      assert "\"" + body == "\"\"" + rest;
      EmptyReads(mode, rest);
    } else {
      NoQuotes(ps);
      PiecesStart(ps, false, rest);
      QuoteOpens(mode, body);
      PiecesRead(ps, false, rest, "");
      assert "" + StandFor(ps) == StandFor(ps);
    }
  }

  lemma NoQuotes(ps: seq<Piece>)
    requires GoodPieces(ps, false) && ps != []
    ensures !ps[0].Quotes?
  {
  }

  /** What stands between the opening quotes and the text: blanks, and the end of the line, which
      only a text that starts with a blank or the end of a line needs. */
  predicate GoodOpening(pad: string, newline: bool, ps: seq<Piece>) {
    All(pad, IsBlank) && (newline || ps == [] || !ps[0].Itself? || (!IsBlank(ps[0].c) && ps[0].c != '\n'))
  }

  function Opening(pad: string, newline: bool): string { pad + if newline then "\n" else "" }

  lemma {:induction false} OpeningSkipped(pad: string, newline: bool, body: string)
    requires All(pad, IsBlank) && body != "" && (newline || (!IsBlank(body[0]) && body[0] != '\n'))
    ensures SkipOpening(Opening(pad, newline) + body) == body
  {
    var after := (if newline then "\n" else "") + body;
    assert Opening(pad, newline) + body == pad + after;
    RunOf(pad, after, IsBlank);
    assert (pad + after)[|pad|..] == after;
    assert newline ==> after[1..] == body;
    assert !newline ==> after == body;
  }

  /** A string over several lines reads as what its pieces stand for. The end of the line right
      after the opening quotes is dropped, with the blanks before it. */
  lemma {:induction false} LinesRead(mode: Mode, pad: string, newline: bool, ps: seq<Piece>, rest: string)
    requires mode.Ok() && GoodPieces(ps, true) && GoodOpening(pad, newline, ps)
    ensures NextToken(mode, "\"\"\"" + (Opening(pad, newline) + (PiecesText(ps) + ("\"\"\"" + rest))))
            == Lexed(MultilineToken(StandFor(ps)), rest)
  {
    hide DoubleQuoted, GoodPieces, PiecesText, Opening, SkipOpening;
    var body := PiecesText(ps) + ("\"\"\"" + rest);
    PiecesStart(ps, true, rest);
    OpeningSkipped(pad, newline, body);
    PiecesRead(ps, true, rest, "");
    assert "" + StandFor(ps) == StandFor(ps);
    var text := "\"\"\"" + (Opening(pad, newline) + body);
    assert text[3..] == Opening(pad, newline) + body;
  }

  /** A literal string over several lines without the end of the line after its opening. */
  lemma {:induction false} RawLinesRead(mode: Mode, newline: bool, s: string, rest: string)
    requires mode.Ok() && !HasTriple(s) && !EndsInQuote(s) && (newline || s == "" || s[0] != '\n')
    ensures NextToken(mode, "\'\'\'" + (Opening("", newline) + (s + ("\'\'\'" + rest))))
            == Lexed(MultilineToken(s), rest)
  {
    var body := s + ("\'\'\'" + rest);
    var text := "\'\'\'" + (Opening("", newline) + body);
    assert text[3..] == Opening("", newline) + body;
    assert newline ==> Opening("", newline) == "\n" && ("\n" + body)[1..] == body;
    assert !newline ==> Opening("", newline) + body == body;
    MultilineBodyReads(s, rest, "");
    assert "" + s == s;
    hide SingleQuotedMultiline, HasTriple, EndsInQuote;
    assert SkipNewline(Opening("", newline) + body) == body;
    assert NextToken(mode, text) == SingleQuote(text) == SingleQuotedMultiline(body, "");
  }
}
