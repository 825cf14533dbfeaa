/** Values as they can be written: arrays over several lines and inline tables, nested in any way. */
module TomlForms {
  import opened TomlText
  import opened TomlNumbers
  import opened TomlLexer
  import opened TomlEscapes
  import opened TomlValue
  import opened TomlPaths
  import opened TomlMerge
  import opened TomlGrammar
  import opened TomlWriter
  import opened TomlReadBack
  import opened TomlInline
  import opened TomlPieces
  import opened TomlRoundTrip

  // ---------- what is written

  /** What can stand between the elements of an array. */
  datatype Space = Blank | Line | Comment(text: string)

  function OneSpace(s: Space): string {
    match s
    case Blank => " "
    case Line => "\n"
    case Comment(text) => "#" + (text + "\n")
  }

  function SpaceText(gap: seq<Space>): string {
    if gap == [] then "" else OneSpace(gap[0]) + SpaceText(gap[1..])
  }

  predicate GoodSpace(gap: seq<Space>) {
    forall i :: 0 <= i < |gap| && gap[i].Comment? ==> All(gap[i].text, NotNewline)
  }

  /** A value as it is printed; an integer with underscores, a floating-point literal or a time;
      a string with any escapes or a literal one, and the same over several lines; an array with what
      stands before and after its elements; an inline table. */
  datatype Form =
    | Plain(v: Value)
    | Integer(i: int64, text: string)
    | Real(text: string)
    | Moment(text: string)
    | Raw(s: string)
    | Written(pieces: seq<Piece>)
    | Lines(pad: string, newline: bool, pieces: seq<Piece>)
    | RawLines(newline: bool, s: string)
    | List(lead: seq<Space>, tail: seq<Space>, elems: seq<Form>)
    | Record(entries: seq<Entry>)

  datatype Entry = Entry(key: string, form: Form)

  /** The characters of a date, a time of day and a time zone. */
  predicate MomentChar(c: char) { '0' <= c <= '9' || c in "-:TZ.+" }

  /** A text that starts with a digit and is no number. */
  ghost predicate IsMoment(s: string) {
    s != "" && '0' <= s[0] <= '9' && All(s, MomentChar) && !InIntegerLanguage(s) && !InDoubleLanguage(s)
  }

  ghost predicate GoodForm(f: Form) {
    match f
    case Plain(v) => v.Bool? || v.Int? || v.Str?
    case Integer(i, text) => InIntegerLanguage(text) && RemoveDelimiter(text) == IntText(i)
    case Real(text) => InDoubleLanguage(text) && !InIntegerLanguage(text) && text != "" && text[0] != '.'
    case Moment(text) => IsMoment(text)
    case Raw(s) => All(s, NotQuote)
    case Written(ps) => GoodPieces(ps, false)
    case Lines(pad, newline, ps) => GoodPieces(ps, true) && GoodOpening(pad, newline, ps)
    case RawLines(newline, s) => !HasTriple(s) && !EndsInQuote(s) && (newline || s == "" || s[0] != '\n')
    case List(lead, tail, elems) =>
      && GoodSpace(lead) && GoodSpace(tail) && (tail == [] || tail[0].Line?)
      && forall i :: 0 <= i < |elems| ==> GoodForm(elems[i])
    case Record(entries) => forall i :: 0 <= i < |entries| ==> GoodForm(entries[i].form)
  }

  function FormText(fmt: Formats, f: Form): string
    decreases f, 1
  {
    match f
    case Plain(v) => Text(fmt, v, "", -1)
    case Integer(_, text) => text
    case Real(text) => text
    case Moment(text) => text
    case Raw(s) => "\'" + (s + "\'")
    case Written(ps) => "\"" + (PiecesText(ps) + "\"")
    case Lines(pad, newline, ps) => "\"\"\"" + (Opening(pad, newline) + (PiecesText(ps) + "\"\"\""))
    case RawLines(newline, s) => "\'\'\'" + (Opening("", newline) + (s + "\'\'\'"))
    case List(lead, tail, elems) => "[" + ElemsText(fmt, lead, tail, elems)
    case Record(entries) => "{" + (EntriesText(fmt, entries, true) + "}")
  }

  function ElemsText(fmt: Formats, lead: seq<Space>, tail: seq<Space>, elems: seq<Form>): string
    decreases elems, 0
  {
    if elems == [] then SpaceText(lead) + "]" else
      SpaceText(lead) + (FormText(fmt, elems[0])
      + (SpaceText(tail) + (if |elems| == 1 then "]" else "," + ElemsText(fmt, lead, tail, elems[1..]))))
  }

  function EntriesText(fmt: Formats, es: seq<Entry>, first: bool): string
    decreases es, 0
  {
    if es == [] then "" else
      (if first then "" else ", ")
      + (EscapeKey(es[0].key) + (" = " + (FormText(fmt, es[0].form) + EntriesText(fmt, es[1..], false))))
  }

  // ---------- what it means

  /** A value, an error, or the exception for a key that a table refuses. */
  datatype Meaning = Means(value: Value) | Wrong | Refused(key: string, table: Value)

  function Mean(lib: Library, f: Form): Meaning
    decreases f, 1
  {
    match f
    case Plain(v) => Means(v)
    case Integer(i, _) => Means(Int(i))
    case Real(text) => Means(Double(lib.toDouble(RemoveDelimiter(text))))
    case Moment(text) => if lib.toTime(text).Some? then Means(Time(lib.toTime(text).value)) else Wrong
    case Raw(s) => Means(Str(s))
    case Written(ps) => Means(Str(StandFor(ps)))
    case Lines(_, _, ps) => Means(Str(StandFor(ps)))
    case RawLines(_, s) => Means(Str(s))
    case List(_, _, elems) => MeanElems(lib, elems, [])
    case Record(entries) => Collect(lib, EMPTY_TABLE, entries)
  }

  /** The elements of an array have the kind of its first one. */
  function MeanElems(lib: Library, elems: seq<Form>, done: seq<Value>): Meaning
    decreases elems, 0
  {
    if elems == [] then Means(Array(done)) else
      match Mean(lib, elems[0])
      case Means(x) => if done != [] && !SameKind(done[0], x) then Wrong else MeanElems(lib, elems[1..], done + [x])
      case other => other
  }

  /** What entries make of a table: each key is read as a dotted path, and so are the keys that
      were stored before. */
  function Collect(lib: Library, t: Value, es: seq<Entry>): Meaning
    requires t.Table?
    decreases es, 0
  {
    if es == [] then Means(t) else
      var k := es[0].key;
      if k == "" then Wrong else
        match Mean(lib, es[0].form)
        case Means(v) =>
          if Has(t, k) then Wrong
          else if Refuses(t, k) then Refused(k, t)
          else Collect(lib, Store(t, PathOf(k).value, v), es[1..])
        case other => other
  }

  /** The outcome of parsing what has a meaning, with the rest of the text to follow. */
  predicate Gives(src: Source, r: Parsed<Value>, meaning: Meaning, rest: string, error: string)
    requires src.lib.Ok()
  {
    match meaning
    case Means(v) => r == Ok(v, Look(ValueMode(src.lib), rest, error))
    case Wrong => r.Fail?
    case Refused(k, t) => r == Throw(k, t)
  }

  // ---------- spaces

  lemma {:induction false} OneSpaceReads(mode: Mode, s: Space, text: string, error: string)
    requires mode.Ok() && (s.Comment? ==> All(s.text, NotNewline))
    ensures SkipLines(mode, Look(mode, OneSpace(s) + text, error)) == SkipLines(mode, Look(mode, text, error))
  {
    hide NextToken, All;
    match s
    case Blank => BlankReads(mode, text);
    case Line =>
      assert OneSpace(s) + text == ['\n'] + text;
      PunctuationReads(mode, '\n', text);
    case Comment(comment) =>
      assert OneSpace(s) + text == "#" + (comment + ("\n" + text));
      CommentReads(mode, comment, text);
  }

  /** Spaces are skipped where lines are. */
  lemma {:induction false} SpaceReads(mode: Mode, gap: seq<Space>, text: string, error: string)
    requires mode.Ok() && GoodSpace(gap)
    ensures SkipLines(mode, Look(mode, SpaceText(gap) + text, error)) == SkipLines(mode, Look(mode, text, error))
    decreases |gap|
  {
    hide SkipLines, Look, OneSpace, All;
    if gap == [] {
      assert SpaceText(gap) + text == text;
    } else {
      var more := SpaceText(gap[1..]) + text;
      assert SpaceText(gap) + text == OneSpace(gap[0]) + more;
      OneSpaceReads(mode, gap[0], more, error);
      SpaceReads(mode, gap[1..], text, error);
    }
  }

  // ---------- reading

  lemma TailEnds(tail: seq<Space>, c: char, text: string)
    requires (tail == [] || tail[0].Line?) && IsValueEnd(c)
    ensures Ends(SpaceText(tail) + ([c] + text))
  {
  }

  /** One turn of the loop over the elements of an array, after the spaces before it. */
  lemma {:induction false} ElementGives(src: Source, s: State, first: State, done: seq<Value>, meaning: Meaning,
                                        after: State)
    requires src.lib.Ok() && SkipLines(ValueMode(src.lib), s) == first && !first.token.RBracket?
    requires match meaning
      case Means(x) => ParseValue(src, first) == Ok(x, after)
      case Wrong => ParseValue(src, first).Fail?
      case Refused(k, t) => ParseValue(src, first) == Throw(k, t)
    ensures match meaning
      case Means(x) =>
        var s3 := SkipLines(ValueMode(src.lib), after);
        if done != [] && !SameKind(done[0], x) then ParseElements(src, s, done).Fail?
        else if s3.token.RBracket? then
          ParseElements(src, s, done) == Ok(Array(done + [x]), Next(ValueMode(src.lib), s3))
        else s3.token.Comma? ==>
          ParseElements(src, s, done) == ParseElements(src, Next(ValueMode(src.lib), s3), done + [x])
      case Wrong => ParseElements(src, s, done).Fail?
      case Refused(k, t) => ParseElements(src, s, done) == Throw(k, t)
  {
    hide Next, SkipLines;
  }

  lemma ElemsFirst(fmt: Formats, lead: seq<Space>, tail: seq<Space>, elems: seq<Form>, rest: string)
    requires elems != []
    ensures var after := SpaceText(tail) + (if |elems| == 1 then [']'] + rest
                                            else [','] + (ElemsText(fmt, lead, tail, elems[1..]) + rest));
      ElemsText(fmt, lead, tail, elems) + rest == SpaceText(lead) + (FormText(fmt, elems[0]) + after)
  {
    hide FormText, SpaceText;
  }

  lemma {:induction false} NoElements(src: Source, lead: seq<Space>, rest: string, error: string)
    requires src.lib.Ok() && GoodSpace(lead)
    ensures ParseElements(src, Look(ValueMode(src.lib), SpaceText(lead) + "]" + rest, error), [])
            == Ok(Array([]), Look(ValueMode(src.lib), rest, error))
  {
    var mode := ValueMode(src.lib);
    assert SpaceText(lead) + "]" + rest == SpaceText(lead) + ([']'] + rest);
    SpaceReads(mode, lead, [']'] + rest, error);
    PunctuationReads(mode, ']', rest);
    hide NextToken;
    assert SkipLines(mode, Look(mode, [']'] + rest, error)) == Look(mode, [']'] + rest, error);
  }

  /** The elements of an array over several lines. */
  lemma {:induction false} ElemsRead(src: Source, fmt: Formats, lead: seq<Space>, tail: seq<Space>, elems: seq<Form>,
                                     done: seq<Value>, rest: string, error: string)
    requires src.lib.Ok() && GoodSpace(lead) && GoodSpace(tail) && (tail == [] || tail[0].Line?)
    requires (forall i :: 0 <= i < |elems| ==> GoodForm(elems[i])) && (elems == [] ==> done == [])
    ensures var s := Look(ValueMode(src.lib), ElemsText(fmt, lead, tail, elems) + rest, error);
      Gives(src, ParseElements(src, s, done), MeanElems(src.lib, elems, done), rest, error)
    decreases elems, 0
  {
    hide NextToken, ParseElements, ParseValue, FormText, GoodSpace, SkipLines, Mean, SpaceText;
    if elems == [] {
      NoElements(src, lead, rest, error);
    } else {
      var mode := ValueMode(src.lib);
      var more := if |elems| == 1 then [']'] + rest else [','] + (ElemsText(fmt, lead, tail, elems[1..]) + rest);
      var after := SpaceText(tail) + more;
      ElemsFirst(fmt, lead, tail, elems, rest);
      TailEnds(tail, more[0], more[1..]);
      assert more == [more[0]] + more[1..];
      FormReads(src, fmt, elems[0], after, error);
      var text := FormText(fmt, elems[0]) + after;
      SpaceReads(mode, lead, text, error);
      NotALine(mode, Look(mode, text, error));
      SpaceReads(mode, tail, more, error);
      ElementGives(src, Look(mode, SpaceText(lead) + text, error), Look(mode, text, error), done,
                   Mean(src.lib, elems[0]), Look(mode, after, error));
      if |elems| == 1 {
        PunctuationReads(mode, ']', rest);
        NotALine(mode, Look(mode, more, error));
        assert elems[1..] == [];
      } else {
        PunctuationReads(mode, ',', more[1..]);
        NotALine(mode, Look(mode, more, error));
        if Mean(src.lib, elems[0]).Means? {
          ElemsRead(src, fmt, lead, tail, elems[1..], done + [Mean(src.lib, elems[0]).value], rest, error);
        }
      }
    }
  }

  lemma NotALine(mode: Mode, s: State)
    requires mode.Ok()
    ensures !s.token.EndOfLine? ==> SkipLines(mode, s) == s
  {
  }

  lemma {:induction false} GroupChars(s: string)
    requires IsDigitGroups(s)
    ensures s != "" && All(s, IsValueChar) && IsDigit(s[0])
  {
    var groups :| groups != [] && AreDigitRuns(groups) && s == Join(groups, "_");
    JoinChars(groups);
    JoinStart(groups);
  }

  lemma {:induction false} ExponentChars(e: string)
    requires InExponentLanguage(e)
    ensures All(e, IsValueChar)
  {
    if e != "" {
      var sign, digits :| SignedGroups(sign, digits) && (e == "e" + sign + digits || e == "E" + sign + digits);
      GroupChars(digits);
    }
  }

  lemma {:induction false} DoubleChars(s: string)
    requires InDoubleLanguage(s)
    ensures s != "" && All(s, IsValueChar) && !IsAlpha(s[0])
  {
    var l: TomlNumbers.Literal :| l.Ok() && s == l.Text();
    if l.whole != "" {
      GroupChars(l.whole);
    }
    if l.fraction != "" {
      GroupChars(l.fraction);
    }
    ExponentChars(l.exponent);
    AllParts(l.fraction, l.exponent);
    AllParts(l.dot, l.fraction + l.exponent);
    AllParts(l.whole, l.dot + (l.fraction + l.exponent));
    AllParts(l.sign, l.whole + (l.dot + (l.fraction + l.exponent)));
  }

  lemma AllParts(a: string, b: string)
    requires All(a, IsValueChar) && All(b, IsValueChar)
    ensures All(a + b, IsValueChar)
  {
  }

  /** A floating-point literal, with any underscores that the grammar allows. */
  lemma {:induction false} RealReads(lib: Library, text: string, rest: string)
    requires lib.Ok() && GoodForm(Real(text)) && Ends(rest)
    ensures NextToken(ValueMode(lib), text + rest) == Lexed(DoubleToken(lib.toDouble(RemoveDelimiter(text))), rest)
  {
    DoubleLanguage(text);
    IntegerLanguage(text);
    DoubleChars(text);
    WordReads(lib, text, rest);
  }

  /** A text that is no number is a time if the library takes it for one. */
  lemma {:induction false} MomentReads(lib: Library, text: string, rest: string)
    requires lib.Ok() && IsMoment(text) && Ends(rest)
    ensures var l := NextToken(ValueMode(lib), text + rest);
      if lib.toTime(text).Some? then l == Lexed(TimeToken(lib.toTime(text).value), rest) else l.token.ErrorToken?
  {
    DoubleLanguage(text);
    IntegerLanguage(text);
    assert forall k :: 0 <= k < |text| ==> MomentChar(text[k]) && IsValueChar(text[k]);
    WordReads(lib, text, rest);
  }

  lemma {:induction false} RawReads(mode: Mode, s: string, rest: string)
    requires mode.Ok() && All(s, NotQuote) && Ends(rest)
    ensures NextToken(mode, "\'" + (s + "\'") + rest) == Lexed(StringToken(s), rest)
  {
    if s == "" {
      assert ("\'" + (s + "\'") + rest)[2..] == rest;
    } else {
      assert "\'" + (s + "\'") + rest == "\'" + (s + ("\'" + rest));
      LiteralReads(mode, s, rest);
    }
  }

  /** What one token has to say. */
  lemma TokenGives(src: Source, s: State, text: string, rest: string, error: string)
    requires src.lib.Ok() && s == Look(ValueMode(src.lib), text, error)
    ensures var t := NextToken(ValueMode(src.lib), text);
      && (t.rest == rest ==> Next(ValueMode(src.lib), s) == Look(ValueMode(src.lib), rest, error))
      && (t.token.ErrorToken? ==> ParseValue(src, s).Fail?)
      && (t.rest == rest ==> match t.token
            case StringToken(x) => ParseValue(src, s) == Ok(Str(x), Look(ValueMode(src.lib), rest, error))
            case MultilineToken(x) => ParseValue(src, s) == Ok(Str(x), Look(ValueMode(src.lib), rest, error))
            case IntToken(i) => ParseValue(src, s) == Ok(Int(i), Look(ValueMode(src.lib), rest, error))
            case DoubleToken(d) => ParseValue(src, s) == Ok(Double(d), Look(ValueMode(src.lib), rest, error))
            case TimeToken(m) => ParseValue(src, s) == Ok(Time(m), Look(ValueMode(src.lib), rest, error))
            case _ => true)
  {
    hide NextToken;
  }

  /** The text of a string is one token. */
  lemma {:induction false} StringFormReads(mode: Mode, fmt: Formats, f: Form, rest: string)
    requires mode.Ok() && GoodForm(f) && (f.Raw? || f.Written? || f.Lines? || f.RawLines?) && Ends(rest)
    ensures var t := NextToken(mode, FormText(fmt, f) + rest);
      && t.rest == rest
      && match f
         case Raw(s) => t.token == StringToken(s)
         case Written(ps) => t.token == StringToken(StandFor(ps))
         case Lines(_, _, ps) => t.token == MultilineToken(StandFor(ps))
         case RawLines(_, s) => t.token == MultilineToken(s)
  {
    hide NextToken, PiecesText, StandFor, GoodPieces, GoodOpening, HasTriple, EndsInQuote, Opening;
    match f
    case Raw(s) => RawReads(mode, s, rest);
    case Written(ps) =>
      assert FormText(fmt, f) + rest == "\"" + (PiecesText(ps) + ("\"" + rest));
      QuotedReads(mode, ps, rest);
    case Lines(pad, newline, ps) =>
      assert FormText(fmt, f) + rest
             == "\"\"\"" + (Opening(pad, newline) + (PiecesText(ps) + ("\"\"\"" + rest)));
      LinesRead(mode, pad, newline, ps, rest);
    case RawLines(newline, s) =>
      assert FormText(fmt, f) + rest == "\'\'\'" + (Opening("", newline) + (s + ("\'\'\'" + rest)));
      RawLinesRead(mode, newline, s, rest);
  }

  lemma {:induction false} TokenReads(src: Source, fmt: Formats, f: Form, rest: string, error: string)
    requires src.lib.Ok() && GoodForm(f) && !f.Plain? && !f.List? && !f.Record? && Ends(rest)
    ensures var s := Look(ValueMode(src.lib), FormText(fmt, f) + rest, error);
      !s.token.EndOfLine? && !s.token.RBracket? && Gives(src, ParseValue(src, s), Mean(src.lib, f), rest, error)
  {
    hide NextToken, ParseValue, PiecesText, StandFor, Opening;
    var mode := ValueMode(src.lib);
    TokenGives(src, Look(mode, FormText(fmt, f) + rest, error), FormText(fmt, f) + rest, rest, error);
    match f
    case Integer(i, text) => IntegerReads(src.lib, i, text, rest);
    case Real(text) => RealReads(src.lib, text, rest);
    case Moment(text) => MomentReads(src.lib, text, rest);
    case _ => StringFormReads(mode, fmt, f, rest);
  }

  lemma {:induction false} ListReads(src: Source, fmt: Formats, f: Form, rest: string, error: string)
    requires src.lib.Ok() && GoodForm(f) && f.List?
    ensures var s := Look(ValueMode(src.lib), FormText(fmt, f) + rest, error);
      !s.token.EndOfLine? && !s.token.RBracket? && Gives(src, ParseValue(src, s), Mean(src.lib, f), rest, error)
    decreases f, 0
  {
    hide NextToken, ParseElements, MeanElems;
    var mode := ValueMode(src.lib);
    var inner := ElemsText(fmt, f.lead, f.tail, f.elems) + rest;
    assert FormText(fmt, f) + rest == ['['] + inner;
    PunctuationReads(mode, '[', inner);
    ElemsRead(src, fmt, f.lead, f.tail, f.elems, [], rest, error);
  }

  lemma {:induction false} RecordReads(src: Source, fmt: Formats, f: Form, rest: string, error: string)
    requires src.lib.Ok() && GoodForm(f) && f.Record?
    ensures var s := Look(ValueMode(src.lib), FormText(fmt, f) + rest, error);
      !s.token.EndOfLine? && !s.token.RBracket? && Gives(src, ParseValue(src, s), Mean(src.lib, f), rest, error)
    decreases f, 0
  {
    hide NextToken, ParseEntries, Collect;
    var mode := ValueMode(src.lib);
    var inner := EntriesText(fmt, f.entries, true) + ("}" + rest);
    assert FormText(fmt, f) + rest == ['{'] + inner;
    PunctuationReads(mode, '{', inner);
    EntriesRead(src, fmt, f.entries, EMPTY_TABLE, true, rest, error);
  }

  lemma PlainReads(src: Source, fmt: Formats, f: Form, rest: string, error: string)
    requires src.lib.Ok() && GoodForm(f) && f.Plain? && Ends(rest)
    ensures var s := Look(ValueMode(src.lib), FormText(fmt, f) + rest, error);
      !s.token.EndOfLine? && !s.token.RBracket? && Gives(src, ParseValue(src, s), Mean(src.lib, f), rest, error)
  {
    hide NextToken, ParseValue;
    ScalarReads(src, fmt, f.v, "", -1, rest, error);
  }

  /** What has a meaning is read as that. */
  lemma {:induction false} FormReads(src: Source, fmt: Formats, f: Form, rest: string, error: string)
    requires src.lib.Ok() && GoodForm(f) && (f.List? || f.Record? || Ends(rest))
    ensures var s := Look(ValueMode(src.lib), FormText(fmt, f) + rest, error);
      !s.token.EndOfLine? && !s.token.RBracket? && Gives(src, ParseValue(src, s), Mean(src.lib, f), rest, error)
    decreases f, 1
  {
    hide Look, ParseValue, Mean, FormText, GoodForm;
    match f
    case Plain(_) => PlainReads(src, fmt, f, rest, error);
    case List(_, _, _) => ListReads(src, fmt, f, rest, error);
    case Record(_) => RecordReads(src, fmt, f, rest, error);
    case _ => TokenReads(src, fmt, f, rest, error);
  }

  // ---------- entries

  /** From the key of an entry to what follows its value. */
  lemma {:induction false} EntryTokens(src: Source, fmt: Formats, e: Entry, tail: string, error: string)
    requires src.lib.Ok() && GoodForm(e.form) && Ends(tail)
    ensures var mode := ValueMode(src.lib);
      var s := Look(KeyMode, EscapeKey(e.key) + (" = " + (FormText(fmt, e.form) + tail)), error);
      if e.key == "" then s.token == Equal
      else
        && s.token.IsKey() && s.token.text == e.key && Next(mode, s).token == Equal
        && Next(mode, Next(mode, s)) == Look(mode, FormText(fmt, e.form) + tail, error)
  {
    hide NextToken, FormText, EscapeKey;
    var mode := ValueMode(src.lib);
    var t2 := FormText(fmt, e.form) + tail;
    var t1 := ['='] + (" " + t2);
    assert " = " + t2 == " " + t1;
    if e.key == "" {
      EmptyKey(" " + t1);
      BlankReads(KeyMode, t1);
      PunctuationReads(KeyMode, '=', " " + t2);
    } else {
      KeyReads(e.key, " " + t1);
      BlankReads(mode, t1);
      PunctuationReads(mode, '=', " " + t2);
      BlankReads(mode, t2);
    }
  }

  /** One turn of the loop over the entries. */
  lemma {:induction false} EntryStep(src: Source, s: State, s1: State, t: Value, first: bool, k: string, value: State)
    requires src.lib.Ok() && t.Table?
    requires if first then s1 == s && !s.token.RBrace? else s.token.Comma? && s1 == Next(KeyMode, s)
    requires s1.token == Equal ||
      (s1.token.IsKey() && s1.token.text == k && Next(ValueMode(src.lib), s1).token == Equal
       && Next(ValueMode(src.lib), Next(ValueMode(src.lib), s1)) == value)
    ensures var r := ParseEntries(src, s, t, first);
      if s1.token == Equal then r.Fail?
      else match ParseValue(src, value)
        case Fail(_) => r.Fail?
        case Throw(key, table) => r == Throw(key, table)
        case Ok(v, s3) =>
          if Has(t, k) then r.Fail?
          else if Refuses(t, k) then r == Throw(k, t)
          else r == ParseEntries(src, s3, Store(t, PathOf(k).value, v), false)
  {
    if !s1.token.Equal? && ParseValue(src, value).Ok? {
      SetSucceeds(t, k, ParseValue(src, value).value);
    }
    hide Next, ParseValue, AddError, SetAlong, Has, PathOf, Open, Store;
  }

  lemma EntriesStart(fmt: Formats, es: seq<Entry>, rest: string)
    ensures Ends(EntriesText(fmt, es, false) + ("}" + rest))
  {
  }

  lemma FirstEntry(fmt: Formats, es: seq<Entry>, first: bool, rest: string)
    requires es != []
    ensures var tail := EntriesText(fmt, es[1..], false) + ("}" + rest);
      var entry := EscapeKey(es[0].key) + (" = " + (FormText(fmt, es[0].form) + tail));
      EntriesText(fmt, es, first) + ("}" + rest) == if first then entry else [','] + (" " + entry)
  {
    hide FormText, EscapeKey;
  }

  lemma {:induction false} EntriesEnd(src: Source, t: Value, first: bool, rest: string, error: string)
    requires src.lib.Ok() && t.Table?
    ensures ParseEntries(src, Look(if first then KeyMode else ValueMode(src.lib), "}" + rest, error), t, first)
            == Ok(t, Look(ValueMode(src.lib), rest, error))
  {
    PunctuationReads(if first then KeyMode else ValueMode(src.lib), '}', rest);
    hide NextToken;
  }

  lemma StoredTable(t: Value, k: string, v: Value)
    requires t.Table? && !Refuses(t, k)
    ensures PathOf(k).Some? && PathOf(k).value != [] && Store(t, PathOf(k).value, v).Table?
  {
  }

  /** The entries of an inline table, and what they make. */
  lemma {:induction false} EntriesRead(src: Source, fmt: Formats, es: seq<Entry>, t: Value, first: bool, rest: string,
                                       error: string)
    requires src.lib.Ok() && t.Table? && forall i :: 0 <= i < |es| ==> GoodForm(es[i].form)
    ensures var mode := if first then KeyMode else ValueMode(src.lib);
      var s := Look(mode, EntriesText(fmt, es, first) + ("}" + rest), error);
      Gives(src, ParseEntries(src, s, t, first), Collect(src.lib, t, es), rest, error)
    decreases es, 0
  {
    hide NextToken, ParseEntries, FormText, EscapeKey, ParseValue, Has, Refuses, PathOf, Store, Mean, GoodForm;
    var value := ValueMode(src.lib);
    if es == [] {
      EntriesEnd(src, t, first, rest, error);
      assert EntriesText(fmt, es, first) + ("}" + rest) == "}" + rest;
    } else {
      var k := es[0].key;
      var tail := EntriesText(fmt, es[1..], false) + ("}" + rest);
      var form := FormText(fmt, es[0].form) + tail;
      var entry := EscapeKey(k) + (" = " + form);
      EntriesStart(fmt, es[1..], rest);
      EntryTokens(src, fmt, es[0], tail, error);
      FormReads(src, fmt, es[0].form, tail, error);
      FirstEntry(fmt, es, first, rest);
      var s1 := Look(KeyMode, entry, error);
      var s := Look(if first then KeyMode else value, EntriesText(fmt, es, first) + ("}" + rest), error);
      if !first {
        PunctuationReads(value, ',', " " + entry);
        BlankReads(KeyMode, entry);
      }
      EntryStep(src, s, s1, t, first, k, Look(value, form, error));
      if k != "" && Mean(src.lib, es[0].form).Means? && !Has(t, k) && !Refuses(t, k) {
        var v := Mean(src.lib, es[0].form).value;
        StoredTable(t, k, v);
        EntriesRead(src, fmt, es[1..], Store(t, PathOf(k).value, v), false, rest, error);
      }
    }
  }

  // ---------- when an inline table has exactly its entries

  function ValueOf(lib: Library, f: Form): Value { if Mean(lib, f).Means? then Mean(lib, f).value else Null }

  /** The table of some entries, each under its own key. */
  function AddEntries(lib: Library, t: Value, es: seq<Entry>): (r: Value)
    requires t.Table?
    ensures r.Table?
    decreases |es|
  {
    if es == [] then t else AddEntries(lib, Table(t.kids[es[0].key := ValueOf(lib, es[0].form)]), es[1..])
  }

  /** No key comes twice, or is in the table already. */
  predicate NewKeys(lib: Library, t: Value, es: seq<Entry>)
    requires t.Table?
    decreases |es|
  {
    es == [] || (es[0].key !in t.kids && NewKeys(lib, Table(t.kids[es[0].key := ValueOf(lib, es[0].form)]), es[1..]))
  }

  predicate PlainEntries(lib: Library, es: seq<Entry>) {
    forall i :: 0 <= i < |es| ==> Own(es[i].key) && Mean(lib, es[i].form).Means?
  }

  lemma {:induction false} PlainCollect(lib: Library, t: Value, es: seq<Entry>)
    requires t.Table? && PlainEntries(lib, es)
    ensures Collect(lib, t, es) == if NewKeys(lib, t, es) then Means(AddEntries(lib, t, es)) else Wrong
    decreases |es|
  {
    hide PathOf, Mean;
    if es != [] {
      var k, v := es[0].key, ValueOf(lib, es[0].form);
      assert Own(es[0].key);
      FindOwn(t, k);
      EmptyIsNoPath();
      assert Store(t, [k], v) == Table(t.kids[k := v]);
      PlainCollect(lib, Table(t.kids[k := v]), es[1..]);
    }
  }

  lemma EmptyIsNoPath()
    ensures PathOf("").None?
  {
  }

  /** A text that starts the path of some key. */
  predicate Starts(es: seq<Entry>, k: string) {
    exists y :: 0 <= y < |es| && PathOf(es[y].key).Some? && PathOf(es[y].key).value[0] == k
  }

  /** Every key of what was collected starts a path that was stored. */
  lemma {:induction false} CollectedKeys(lib: Library, t: Value, es: seq<Entry>, j: string)
    requires t.Table? && Collect(lib, t, es).Means?
    ensures forall i :: 0 <= i < |es| ==> Mean(lib, es[i].form).Means?
    ensures Collect(lib, t, es).value.Table?
    ensures j in Collect(lib, t, es).value.kids ==> j in t.kids || Starts(es, j)
    decreases |es|
  {
    hide PathOf, Mean, Has;
    if es != [] {
      var k, v := es[0].key, Mean(lib, es[0].form).value;
      StoredTable(t, k, v);
      var u := Store(t, PathOf(k).value, v);
      CollectedKeys(lib, u, es[1..], j);
      assert forall i :: 0 < i < |es| ==> es[i] == es[1..][i - 1];
      assert j in u.kids ==> j in t.kids || PathOf(es[0].key).value[0] == j;
    }
  }

  lemma {:induction false} AddedKeys(lib: Library, t: Value, es: seq<Entry>, i: nat)
    requires t.Table? && i < |es|
    ensures t.kids.Keys <= AddEntries(lib, t, es).kids.Keys && es[i].key in AddEntries(lib, t, es).kids
    decreases |es|
  {
    var u := Table(t.kids[es[0].key := ValueOf(lib, es[0].form)]);
    if |es| == 1 {
      assert es[1..] == [];
    } else {
      AddedKeys(lib, u, es[1..], if i == 0 then 0 else i - 1);
    }
  }

  function Longest(es: seq<Entry>): (n: nat)
    ensures forall i :: 0 <= i < |es| ==> |es[i].key| <= n
  {
    if es == [] then 0 else
      var n := Longest(es[1..]);
      assert forall i :: 0 < i < |es| ==> es[i] == es[1..][i - 1];
      if n < |es[0].key| then |es[0].key| else n
  }

  /** If every key starts the path of some key, then every key is its own path: the path of any
      other one starts with a shorter key. */
  lemma {:induction false} AllOwn(es: seq<Entry>, i: nat)
    requires i < |es| && forall x :: 0 <= x < |es| ==> Starts(es, es[x].key)
    ensures Own(es[i].key)
    decreases Longest(es) - |es[i].key|
  {
    hide PathOf;
    var y :| 0 <= y < |es| && PathOf(es[y].key).Some? && PathOf(es[y].key).value[0] == es[i].key;
    if !Own(es[y].key) {
      OtherPath(es[y].key);
      AllOwn(es, y);
    }
  }

  lemma {:induction false} CollectedPlainly(lib: Library, es: seq<Entry>)
    requires Collect(lib, EMPTY_TABLE, es) == Means(AddEntries(lib, EMPTY_TABLE, es))
    ensures PlainEntries(lib, es)
  {
    hide PathOf, Mean, Collect, AddEntries;
    CollectedKeys(lib, EMPTY_TABLE, es, "");
    forall x | 0 <= x < |es|
      ensures Starts(es, es[x].key)
    {
      AddedKeys(lib, EMPTY_TABLE, es, x);
      CollectedKeys(lib, EMPTY_TABLE, es, es[x].key);
    }
    forall i | 0 <= i < |es|
      ensures Own(es[i].key)
    {
      AllOwn(es, i);
    }
  }

  /** An inline table of any entries, with any keys and with values nested in any way, is read as
      what its entries make; that is the table of these entries exactly when every key is its own
      path, every value has a meaning and no key comes twice. */
  lemma {:induction false} InlineTableReads(src: Source, fmt: Formats, es: seq<Entry>, rest: string, error: string)
    requires src.lib.Ok() && GoodForm(Record(es))
    ensures var s := Look(ValueMode(src.lib), FormText(fmt, Record(es)) + rest, error);
      && Gives(src, ParseValue(src, s), Collect(src.lib, EMPTY_TABLE, es), rest, error)
      && (ParseValue(src, s) == Ok(AddEntries(src.lib, EMPTY_TABLE, es), Look(ValueMode(src.lib), rest, error)) <==>
          PlainEntries(src.lib, es) && NewKeys(src.lib, EMPTY_TABLE, es))
  {
    hide Look, ParseValue, FormText, Collect, AddEntries, PlainEntries, NewKeys, GoodForm;
    FormReads(src, fmt, Record(es), rest, error);
    if PlainEntries(src.lib, es) {
      PlainCollect(src.lib, EMPTY_TABLE, es);
    }
    if Collect(src.lib, EMPTY_TABLE, es) == Means(AddEntries(src.lib, EMPTY_TABLE, es)) {
      CollectedPlainly(src.lib, es);
    }
  }

  // ---------- whole documents

  function LineText(fmt: Formats, e: Entry): string { EscapeKey(e.key) + " = " + FormText(fmt, e.form) + "\n" }

  /** A line adds its entry to the table at the cursor under its own name. It is refused when the
      key is empty or seems to be there, or the value has no meaning. */
  lemma {:induction false} FormLineReads(src: Source, fmt: Formats, e: Entry, rest: string, root: Value, cursor: Path)
    requires src.lib.Ok() && GoodForm(e.form) && OnTable(root, cursor)
    ensures var t := TakeTurn(src, Config(Look(KeyMode, LineText(fmt, e) + rest, ""), root, cursor));
      if e.key == "" then t.End? && t.outcome.Failed?
      else match Mean(src.lib, e.form)
        case Wrong => t.End? && t.outcome.Failed?
        case Refused(k, table) => t == End(Thrown(k, table))
        case Means(v) =>
          if Has(At(root, cursor).value, e.key) then t.End? && t.outcome.Failed?
          else t == More(Config(Look(KeyMode, rest, ""), AddChild(root, cursor, e.key, v), cursor))
  {
    hide NextToken, EscapeKey, FormText, ParseValue, Mean, GoodForm, Has, AddChild, ParseHeader, EndLine, Look, Next;
    var value := FormText(fmt, e.form);
    assert LineText(fmt, e) + rest == Spaces(0) + EscapeKey(e.key) + " = " + value + "\n" + rest;
    LineTokens(src, e.key, 0, value, rest);
    FormReads(src, fmt, e.form, "\n" + rest, "");
    LineEnds(src, rest);
  }

  function LinesText(fmt: Formats, es: seq<Entry>): string {
    if es == [] then "" else LineText(fmt, es[0]) + LinesText(fmt, es[1..])
  }

  /** What lines make of a table: a key is looked up as a path and stored under its own name. */
  function MeanLines(lib: Library, t: Value, es: seq<Entry>): Meaning
    requires t.Table?
    decreases |es|
  {
    if es == [] then Means(t) else
      var k := es[0].key;
      if k == "" then Wrong else
        match Mean(lib, es[0].form)
        case Means(v) => if Has(t, k) then Wrong else MeanLines(lib, Table(t.kids[k := v]), es[1..])
        case other => other
  }

  predicate ComesTo(outcome: Outcome, meaning: Meaning) {
    match meaning
    case Means(v) => outcome == Done(v)
    case Wrong => outcome.Failed?
    case Refused(k, t) => outcome == Thrown(k, t)
  }

  lemma AddedToRoot(root: Value, k: string, v: Value)
    requires root.Table?
    ensures OnTable(root, []) && AddChild(root, [], k, v) == Table(root.kids[k := v])
  {
  }

  lemma {:induction false} LinesGive(src: Source, fmt: Formats, es: seq<Entry>, root: Value)
    requires src.lib.Ok() && root.Table? && forall i :: 0 <= i < |es| ==> GoodForm(es[i].form)
    ensures OnTable(root, []) && ComesTo(Go(src, LinesText(fmt, es), root, []), MeanLines(src.lib, root, es))
    decreases |es|
  {
    hide Look, TakeTurn, Go, LineText, Mean, Has, AddChild, GoodForm;
    AddedToRoot(root, "", Null);
    if es == [] {
      GoAtEnd(src, root, []);
    } else {
      var rest := LinesText(fmt, es[1..]);
      FormLineReads(src, fmt, es[0], rest, root, []);
      GoOn(src, LinesText(fmt, es), root, []);
      if es[0].key != "" && Mean(src.lib, es[0].form).Means? && !Has(root, es[0].key) {
        var v := Mean(src.lib, es[0].form).value;
        AddedToRoot(root, es[0].key, v);
        LinesGive(src, fmt, es[1..], Table(root.kids[es[0].key := v]));
        RunsOn(src, rest, Table(root.kids[es[0].key := v]));
      }
    }
  }

  lemma RunsOn(src: Source, text: string, root: Value)
    requires src.lib.Ok() && OnTable(root, [])
    ensures Go(src, text, root, []) == TomlGrammar.Run(src, Config(Look(KeyMode, text, ""), root, []))
  {
  }

  lemma LinesStart(fmt: Formats, es: seq<Entry>)
    ensures NoMark(LinesText(fmt, es))
  {
  }

  /** A document of lines with values written in any way parses to what they mean. */
  lemma {:induction false} FormsParse(fmt: Formats, lib: Library, es: seq<Entry>)
    requires lib.Ok() && forall i :: 0 <= i < |es| ==> GoodForm(es[i].form)
    ensures ComesTo(Parse(LinesText(fmt, es), lib), MeanLines(lib, EMPTY_TABLE, es))
  {
    hide LinesText, MeanLines, TakeTurn, TomlGrammar.Run, GoodForm, NextToken;
    var text := LinesText(fmt, es);
    var src := Source(text, lib);
    LinesStart(fmt, es);
    LinesGive(src, fmt, es, EMPTY_TABLE);
    assert Parse(text, lib) == Go(src, text, EMPTY_TABLE, []);
  }
}
