/** Parsing what the writer printed: values, lines and headers. */
module TomlReadBack {
  import opened Basics
  import opened TomlText
  import opened TomlLexer
  import opened TomlEscapes
  import opened TomlValue
  import opened TomlPaths
  import opened TomlGrammar
  import opened TomlWriter

  /** The state before a text of which the first token was read. */
  function Look(mode: Mode, text: string, error: string): State
    requires mode.Ok()
  {
    var l := NextToken(mode, text);
    State(l.token, l.rest, error)
  }

  // ---------- values in a line

  /** Values that are printed in one line: booleans, integers, strings and arrays of these. */
  predicate Inline(v: Value) {
    || v.Bool? || v.Int? || v.Str?
    || (v.Array? && forall i :: 0 <= i < |v.elems| ==> Inline(v.elems[i]))
  }

  /** The elements of every array have the kind of its first element. */
  predicate Uniform(v: Value) {
    v.Array? ==> forall i :: 0 <= i < |v.elems| ==> SameKind(v.elems[0], v.elems[i]) && Uniform(v.elems[i])
  }

  predicate IsValueEnd(c: char) { c == ',' || c == ']' || c == '}' || c == '\n' }

  /** What can follow a value in a printed line. */
  predicate Ends(rest: string) { rest != "" && IsValueEnd(rest[0]) }

  lemma {:induction false} BlankReads(mode: Mode, text: string)
    requires mode.Ok()
    ensures NextToken(mode, " " + text) == NextToken(mode, text)
  {
    assert (" " + text)[1..] == text;
  }

  lemma {:induction false} PunctuationReads(mode: Mode, c: char, text: string)
    requires mode.Ok() && Punctuation(c).Some?
    ensures NextToken(mode, [c] + text) == Lexed(Punctuation(c).value, text)
  {
    hide DoubleQuote, SingleQuote, Key, Val, SkipLine;
    assert c != ' ' && c != '\t' && c != '\r' && c != '#';
    hide Punctuation;
    assert ([c] + text)[1..] == text;
  }

  lemma {:induction false} ScalarReads(src: Source, fmt: Formats, v: Value, prefix: string, indent: int, rest: string,
                                       error: string)
    requires src.lib.Ok() && (v.Bool? || v.Int? || v.Str?) && Ends(rest)
    ensures ParseValue(src, Look(ValueMode(src.lib), Text(fmt, v, prefix, indent) + rest, error))
            == Ok(v, Look(ValueMode(src.lib), rest, error))
    ensures !Look(ValueMode(src.lib), Text(fmt, v, prefix, indent) + rest, error).token.EndOfLine?
    ensures !Look(ValueMode(src.lib), Text(fmt, v, prefix, indent) + rest, error).token.RBracket?
  {
    hide NextToken;
    match v
    case Bool(b) => BoolReads(src.lib, b, rest);
    case Int(i) =>
      PlainIsInteger(i);
      IntegerReads(src.lib, i, IntText(i), rest);
    case Str(s) => StringReads(ValueMode(src.lib), s, rest);
  }

  /** The elements es fit behind the elements that were read already. */
  predicate Fit(done: seq<Value>, es: seq<Value>) {
    forall i :: 0 <= i < |es| ==> SameKind((done + es)[0], es[i]) && Uniform(es[i])
  }

  lemma {:induction false} ValueReads(src: Source, fmt: Formats, v: Value, prefix: string, indent: int, rest: string,
                                      error: string)
    requires src.lib.Ok() && Inline(v) && Ends(rest)
    ensures var s := Look(ValueMode(src.lib), Text(fmt, v, prefix, indent) + rest, error);
            && !s.token.EndOfLine? && !s.token.RBracket?
            && (Uniform(v) ==> ParseValue(src, s) == Ok(v, Look(ValueMode(src.lib), rest, error)))
            && (!Uniform(v) ==> ParseValue(src, s).Fail?)
    decreases v, 2
  {
    hide NextToken, ParseElements;
    var mode := ValueMode(src.lib);
    if v.Array? {
      var items := Items(fmt, v.elems, prefix, true) + "]" + rest;
      var s := Look(mode, Text(fmt, v, prefix, indent) + rest, error);
      assert Text(fmt, v, prefix, indent) + rest == ['['] + items;
      PunctuationReads(mode, '[', items);
      assert s == State(LBracket, items, error);
      ItemsRead(src, fmt, v.elems, prefix, [], rest, error);
      assert ParseValue(src, s) == ParseElements(src, Look(mode, items, error), []);
      assert [] + v.elems == v.elems;
    } else {
      ScalarReads(src, fmt, v, prefix, indent, rest, error);
    }
  }

  /** One turn of the loop over array elements. */
  lemma {:induction false} ElementStep(src: Source, s: State, done: seq<Value>, x: Value, s': State)
    requires src.lib.Ok() && !s.token.EndOfLine? && !s.token.RBracket?
    requires ParseValue(src, s) == Ok(x, s') && (done == [] || SameKind(done[0], x))
    ensures s'.token.RBracket? ==> ParseElements(src, s, done) == Ok(Array(done + [x]), Next(ValueMode(src.lib), s'))
    ensures s'.token.Comma? ==>
              ParseElements(src, s, done) == ParseElements(src, Next(ValueMode(src.lib), s'), done + [x])
  {
    hide Next;
  }

  lemma {:induction false} ElementFails(src: Source, s: State, done: seq<Value>)
    requires src.lib.Ok() && !s.token.EndOfLine? && !s.token.RBracket?
    requires var r := ParseValue(src, s); r.Fail? || (r.Ok? && done != [] && !SameKind(done[0], r.value))
    ensures ParseElements(src, s, done).Fail?
  {
    hide Next;
  }

  lemma FitStep(done: seq<Value>, es: seq<Value>)
    requires es != []
    ensures Fit(done, es) <==>
              (done == [] || SameKind(done[0], es[0])) && Uniform(es[0]) && Fit(done + [es[0]], es[1..])
  {
    hide Uniform;
    var all := done + es;
    assert all == done + [es[0]] + es[1..];
    assert done == [] ==> SameKind(all[0], es[0]);
    assert Fit(done, es) ==> forall i :: 0 <= i < |es| - 1 ==> es[1..][i] == es[i + 1];
    assert forall i :: 0 < i < |es| ==> es[i] == es[1..][i - 1];
  }

  /** The text of the elements of an array, up to the end of the first one. */
  lemma {:induction false} ItemsText(fmt: Formats, es: seq<Value>, prefix: string, rest: string)
    requires es != []
    ensures var tail := Items(fmt, es[1..], prefix, false) + "]" + rest;
            && Items(fmt, es, prefix, true) + "]" + rest == Text(fmt, es[0], prefix, -1) + tail
            && tail == if |es| == 1 then [']'] + rest
                       else [','] + (" " + (Items(fmt, es[1..], prefix, true) + "]" + rest))
  {
    hide Text;
  }

  /** Reading the elements of an array, when `done` were read before. */
  lemma {:induction false} ItemsRead(src: Source, fmt: Formats, es: seq<Value>, prefix: string, done: seq<Value>,
                                     rest: string, error: string)
    requires src.lib.Ok() && (forall i :: 0 <= i < |es| ==> Inline(es[i])) && (es == [] ==> done == [])
    ensures var mode := ValueMode(src.lib);
            var r := ParseElements(src, Look(mode, Items(fmt, es, prefix, true) + "]" + rest, error), done);
            && (Fit(done, es) ==> r == Ok(Array(done + es), Look(mode, rest, error)))
            && (!Fit(done, es) ==> r.Fail?)
    decreases es, 1
  {
    hide NextToken, Uniform, Text;
    var mode := ValueMode(src.lib);
    if es == [] {
      assert Items(fmt, es, prefix, true) + "]" + rest == [']'] + rest;
      PunctuationReads(mode, ']', rest);
      assert done + es == [];
    } else {
      ItemRead(src, fmt, es, prefix, done, rest, error);
    }
  }

  lemma {:induction false} ItemRead(src: Source, fmt: Formats, es: seq<Value>, prefix: string, done: seq<Value>,
                                    rest: string, error: string)
    requires src.lib.Ok() && (forall i :: 0 <= i < |es| ==> Inline(es[i])) && es != []
    ensures var mode := ValueMode(src.lib);
            var r := ParseElements(src, Look(mode, Items(fmt, es, prefix, true) + "]" + rest, error), done);
            && (Fit(done, es) ==> r == Ok(Array(done + es), Look(mode, rest, error)))
            && (!Fit(done, es) ==> r.Fail?)
    decreases es, 0
  {
    hide NextToken, Uniform, Text, Items, Fit, ParseValue, Inline, ParseElements;
    var mode := ValueMode(src.lib);
    var tail := Items(fmt, es[1..], prefix, false) + "]" + rest;
    ItemsText(fmt, es, prefix, rest);
    ValueReads(src, fmt, es[0], prefix, -1, tail, error);
    FitStep(done, es);
    var s := Look(mode, Text(fmt, es[0], prefix, -1) + tail, error);
    if !Uniform(es[0]) || (done != [] && !SameKind(done[0], es[0])) {
      ElementFails(src, s, done);
    } else {
      ElementStep(src, s, done, es[0], Look(mode, tail, error));
      assert done + [es[0]] + es[1..] == done + es;
      if |es| == 1 {
        PunctuationReads(mode, ']', rest);
        assert Fit(done + [es[0]], []) by { NothingFits(done + [es[0]]); }
        assert es[1..] == [] && done + [es[0]] == done + es;
      } else {
        var more := Items(fmt, es[1..], prefix, true) + "]" + rest;
        PunctuationReads(mode, ',', " " + more);
        BlankReads(mode, more);
        ItemsRead(src, fmt, es[1..], prefix, done + [es[0]], rest, error);
      }
    }
  }

  lemma NothingFits(done: seq<Value>)
    ensures Fit(done, [])
  {
  }

  // ---------- lines

  lemma {:induction false} SpacesRead(mode: Mode, num: int, text: string)
    requires mode.Ok()
    ensures NextToken(mode, Spaces(num) + text) == NextToken(mode, text)
    decreases num
  {
    hide NextToken;
    if num <= 0 {
      assert Spaces(num) + text == text;
    } else {
      assert Spaces(num) + text == " " + (Spaces(num - 1) + text);
      BlankReads(mode, Spaces(num - 1) + text);
      SpacesRead(mode, num - 1, text);
    }
  }

  /** The states of a line between its tokens. */
  lemma {:induction false} LineTokens(src: Source, k: string, num: int, value: string, rest: string)
    requires src.lib.Ok()
    ensures var text := Spaces(num) + EscapeKey(k) + " = " + value + "\n" + rest;
            var s := Look(KeyMode, text, "");
            var mode := ValueMode(src.lib);
            && (k == "" ==> s.token == Equal)
            && (k != "" ==> s.token == KeyToken(k)
                            && Next(mode, s).token == Equal
                            && Next(mode, Next(mode, s)) == Look(mode, value + ("\n" + rest), ""))
  {
    hide NextToken, EscapeKey, Spaces;
    var mode := ValueMode(src.lib);
    var t2 := value + ("\n" + rest);
    var t1 := ['='] + (" " + t2);
    var text := Spaces(num) + EscapeKey(k) + " = " + value + "\n" + rest;
    assert text == Spaces(num) + (EscapeKey(k) + (" " + t1));
    SpacesRead(KeyMode, num, EscapeKey(k) + (" " + t1));
    if k == "" {
      EmptyKey(" " + t1);
      BlankReads(KeyMode, t1);
      PunctuationReads(KeyMode, '=', " " + t2);
    } else {
      KeyReads(k, " " + t1);
      BlankReads(mode, t1);
      PunctuationReads(mode, '=', " " + t2);
      BlankReads(mode, t2);
    }
  }

  lemma EmptyKey(text: string)
    ensures EscapeKey("") + text == text
  {
  }

  lemma {:induction false} LineEnds(src: Source, rest: string)
    requires src.lib.Ok()
    ensures EndLine(Look(ValueMode(src.lib), "\n" + rest, "")) == (Look(KeyMode, rest, ""), true)
  {
    hide NextToken;
    PunctuationReads(ValueMode(src.lib), '\n', rest);
  }

  /** A printed line adds its entry to the table at the cursor, and is refused exactly when the
      key is empty, an array in the value is not uniform, or the key seems to be there. */
  lemma {:induction false} LineReads(src: Source, fmt: Formats, v: Value, k: string, prefix: string, indent: int,
                                     rest: string, root: Value, cursor: Path)
    requires src.lib.Ok() && v.Table? && k in v.kids && Inline(v.kids[k]) && OnTable(root, cursor)
    ensures var t := TakeTurn(src, Config(Look(KeyMode, Line(fmt, v, k, prefix, indent) + rest, ""), root, cursor));
            if k != "" && Uniform(v.kids[k]) && !Has(At(root, cursor).value, k)
            then t == More(Config(Look(KeyMode, rest, ""), AddChild(root, cursor, k, v.kids[k]), cursor))
            else t.End? && t.outcome.Failed?
  {
    hide NextToken, EscapeKey, Spaces, Text, ParseValue, Uniform, Has, AddChild, ParseHeader, EndLine, Look, Next;
    var value := Text(fmt, v.kids[k], prefix, Deeper(indent));
    assert !IsSection(v.kids[k]);
    assert Line(fmt, v, k, prefix, indent) + rest == Spaces(indent) + EscapeKey(k) + " = " + value + "\n" + rest;
    LineTokens(src, k, indent, value, rest);
    ValueReads(src, fmt, v.kids[k], prefix, Deeper(indent), "\n" + rest, "");
    LineEnds(src, rest);
  }

  // ---------- headers

  /** Walking the given keys, through the last elements of arrays, leads from one table of the
      tree to another. */
  predicate Leads(root: Value, from: Path, ks: seq<string>, to: Path)
    decreases |ks|
  {
    OnTable(root, from) &&
    if ks == [] then from == to else
      At(root, from + [Child(ks[0])]).Some? && Leads(root, LastOf(root, from + [Child(ks[0])]), ks[1..], to)
  }

  predicate NonEmpty(ks: seq<string>) { forall i :: 0 <= i < |ks| ==> ks[i] != "" }

  lemma {:induction false} JoinFirst(ks: seq<string>, text: string)
    requires |ks| > 1
    ensures JoinKeys(ks) + text == EscapeKey(ks[0]) + (['.'] + (JoinKeys(ks[1..]) + text))
  {
  }

  lemma {:induction false} JoinLast(ks: seq<string>, k: string)
    requires NonEmpty(ks)
    ensures JoinKeys(ks + [k]) == KeyUnder(JoinKeys(ks), k)
    ensures ks != [] ==> JoinKeys(ks) != ""
  {
    if ks == [] {
      assert ks + [k] == [k];
    } else {
      assert (ks + [k])[1..] == ks[1..] + [k];
      JoinLast(ks[1..], k);
      assert All(ks[0], IsKeyChar) ==> EscapeKey(ks[0]) == ks[0];
      if |ks| > 1 {
        assert JoinKeys(ks) == EscapeKey(ks[0]) + "." + JoinKeys(ks[1..]);
        assert JoinKeys(ks + [k]) == EscapeKey(ks[0]) + "." + (JoinKeys(ks[1..]) + "." + EscapeKey(k));
      }
    }
  }

  /** The keys of a printed header lead to the place of the last one. */
  lemma {:induction false} KeysRead(ks: seq<string>, k: string, rest: string,
                                    root: Value, from: Path, to: Path, isArray: bool)
    requires Leads(root, from, ks, to) && NonEmpty(ks)
    ensures OnTable(root, to)
    ensures var h := ParseKeys(Look(KeyMode, JoinKeys(ks + [k]) + ("]" + rest), ""), root, from, isArray);
            if k == "" then h.cursor == None
            else var (r, c) := if isArray then Append(root, to, k) else Enter(root, to, k);
                 h == Header(r, c, Look(KeyMode, rest, ""))
    decreases |ks|
  {
    hide NextToken, Append, AddChild, EscapeKey;
    var text := JoinKeys(ks + [k]) + ("]" + rest);
    if ks == [] {
      assert ks + [k] == [k] && text == EscapeKey(k) + ([']'] + rest);
      PunctuationReads(KeyMode, ']', rest);
      if k == "" {
        EmptyKey([']'] + rest);
      } else {
        KeyReads(k, [']'] + rest);
      }
    } else {
      var all := ks + [k];
      var more := JoinKeys(all[1..]) + ("]" + rest);
      assert all[1..] == ks[1..] + [k] && all[0] == ks[0];
      JoinFirst(all, "]" + rest);
      KeyReads(ks[0], ['.'] + more);
      PunctuationReads(KeyMode, '.', more);
      KeysRead(ks[1..], k, rest, root, LastOf(root, from + [Child(ks[0])]), to, isArray);
    }
  }

  function HeaderText(key: string, indent: int, isArray: bool): string {
    if isArray then "\n" + Spaces(indent) + "[[" + key + "]]\n" else "\n" + Spaces(indent) + "[" + key + "]\n"
  }

  /** The state after the opening bracket of a header line. */
  lemma {:induction false} HeaderOpens(indent: int, text: string)
    ensures SkipLines(KeyMode, Look(KeyMode, ['\n'] + (Spaces(indent) + (['['] + text)), ""))
            == State(LBracket, text, "")
  {
    hide NextToken, Spaces;
    PunctuationReads(KeyMode, '\n', Spaces(indent) + (['['] + text));
    SpacesRead(KeyMode, indent, ['['] + text);
    PunctuationReads(KeyMode, '[', text);
    var s := State(LBracket, text, "");
    assert SkipLines(KeyMode, s) == s;
  }

  lemma {:induction false} FirstKeyToken(ks: seq<string>, k: string, text: string)
    requires NonEmpty(ks)
    ensures !Look(KeyMode, JoinKeys(ks + [k]) + ("]" + text), "").token.LBracket?
  {
    hide NextToken, EscapeKey;
    var all := ks + [k];
    var rest := "]" + text;
    if all[0] == "" {
      assert ks == [] && all == [k] && JoinKeys(all) + rest == EscapeKey(k) + rest;
      EmptyKey(rest);
      assert rest == [']'] + text;
      PunctuationReads(KeyMode, ']', text);
    } else if |all| == 1 {
      assert all == [k] && JoinKeys(all) == EscapeKey(k);
      KeyReads(k, rest);
    } else {
      JoinFirst(all, rest);
      KeyReads(all[0], ['.'] + (JoinKeys(all[1..]) + rest));
    }
  }

  /** A printed header moves the cursor to the table of its keys; it is refused when the last
      key is empty. */
  lemma {:induction false} TableHeaderReads(src: Source, ks: seq<string>, k: string, indent: int,
                                            rest: string, root: Value, to: Path, cursor: Path)
    requires src.lib.Ok() && Leads(root, [], ks, to) && NonEmpty(ks) && OnTable(root, cursor) && OnTable(root, to)
    ensures var text := HeaderText(JoinKeys(ks + [k]), indent, false) + rest;
            var t := TakeTurn(src, Config(Look(KeyMode, text, ""), root, cursor));
            var (r, c) := Enter(root, to, k);
            && (k == "" ==> t.End? && t.outcome.Failed?)
            && (k != "" && c.Some? ==> t == More(Config(Look(KeyMode, rest, ""), r, c.value)))
  {
    hide NextToken, Enter, EscapeKey, JoinKeys, Spaces, ParseKeys, Leads, SkipLines;
    var line := JoinKeys(ks + [k]) + ("]" + ("\n" + rest));
    assert HeaderText(JoinKeys(ks + [k]), indent, false) + rest == ['\n'] + (Spaces(indent) + (['['] + line));
    HeaderOpens(indent, line);
    FirstKeyToken(ks, k, "\n" + rest);
    KeysRead(ks, k, "\n" + rest, root, [], to, false);
    PunctuationReads(KeyMode, '\n', rest);
  }

  /** A printed header of a group appends to the array of that name; it is refused when the last
      key is empty or bound to another value. */
  lemma {:induction false} GroupHeaderReads(src: Source, ks: seq<string>, k: string, indent: int,
                                            rest: string, root: Value, to: Path, cursor: Path)
    requires src.lib.Ok() && Leads(root, [], ks, to) && NonEmpty(ks) && OnTable(root, cursor) && OnTable(root, to)
    ensures var text := HeaderText(JoinKeys(ks + [k]), indent, true) + rest;
            var t := TakeTurn(src, Config(Look(KeyMode, text, ""), root, cursor));
            var (r, c) := Append(root, to, k);
            && (k == "" || c.None? ==> t.End? && t.outcome.Failed?)
            && (k != "" && c.Some? ==> t == More(Config(Look(KeyMode, rest, ""), r, c.value)))
  {
    hide NextToken, Append, EscapeKey, JoinKeys, Spaces, ParseKeys, Leads, SkipLines;
    var line := JoinKeys(ks + [k]) + ("]" + ("]" + ("\n" + rest)));
    assert HeaderText(JoinKeys(ks + [k]), indent, true) + rest == ['\n'] + (Spaces(indent) + (['['] + (['['] + line)));
    HeaderOpens(indent, ['['] + line);
    PunctuationReads(KeyMode, '[', line);
    KeysRead(ks, k, "]" + ("\n" + rest), root, [], to, true);
    PunctuationReads(KeyMode, ']', "\n" + rest);
    PunctuationReads(KeyMode, '\n', rest);
  }
}
