/** What the parser makes of a text: the recursive-descent rules over a state with one token
    of lookahead, the steps of the main loop, and the cursor into the growing tree. */
module TomlGrammar {
  import opened Basics
  import opened TomlText
  import opened TomlLexer
  import opened TomlValue
  import opened TomlPaths

  /** The text being parsed (after the byte order mark) and the library conversions. */
  datatype Source = Source(text: string, lib: Library)

  /** The lookahead token, the text after it and the first error. */
  datatype State = State(token: Token, rest: string, error: string) {
    /** Unread characters, counting a lookahead token that took some. */
    function Size(): nat { |rest| + if token.Live() then 1 else 0 }
  }

  function Next(mode: Mode, s: State): (r: State)
    requires mode.Ok()
    ensures r.Size() <= s.Size() && (s.token.Live() ==> r.Size() < s.Size())
    ensures r.error == s.error
  {
    var l := NextToken(mode, s.rest);
    State(l.token, l.rest, s.error)
  }

  /** The line the lexer has reached. */
  function LineNo(text: string, rest: string): nat {
    if |rest| <= |text| then 1 + Newlines(text[..|text| - |rest|]) else 1
  }

  /** Only the first error is kept. */
  function AddError(src: Source, s: State, reason: string): (r: State)
    ensures r.error != ""
  {
    if s.error != "" then s
    else s.(error := "Error: line " + IntText(LineNo(src.text, s.rest)) + ": " + reason)
  }

  function SkipLines(mode: Mode, s: State): (r: State)
    requires mode.Ok()
    ensures r.Size() <= s.Size() && !r.token.EndOfLine? && r.error == s.error
    decreases s.Size()
  {
    if s.token.EndOfLine? then SkipLines(mode, Next(mode, s)) else s
  }

  // ---------- values

  /** A parsed value, a failure, or the exception thrown when a table refuses a key. */
  datatype Parsed<T> =
    | Ok(value: T, state: State)
    | Fail(state: State)
    | Throw(key: string, table: Value)

  /** A rule that succeeds has taken the lookahead token, and an exception comes from a key
      that cannot be set. */
  predicate Sound<T>(s: State, r: Parsed<T>) {
    match r
    case Ok(_, s') => s'.Size() < s.Size()
    case Fail(_) => true
    case Throw(key, table) => table.Table? && !Set(table, key, Null).1
  }

  /** The tokens that are values by themselves. */
  function Literal(t: Token): Option<Value> {
    match t
    case StringToken(x) => Some(Str(x))
    case MultilineToken(x) => Some(Str(x))
    case BoolToken(b) => Some(Bool(b))
    case IntToken(i) => Some(Int(i))
    case DoubleToken(d) => Some(Double(d))
    case TimeToken(t) => Some(Time(t))
    case _ => None
  }

  function ParseValue(src: Source, s: State): (r: Parsed<Value>)
    requires src.lib.Ok()
    ensures Sound(s, r)
    decreases s.Size(), 0
  {
    if Literal(s.token).Some? then Ok(Literal(s.token).value, Next(ValueMode(src.lib), s))
    else if s.token.LBracket? then ParseElements(src, Next(ValueMode(src.lib), s), [])
    else if s.token.LBrace? then ParseEntries(src, Next(KeyMode, s), EMPTY_TABLE, true)
    else if s.token.ErrorToken? then Fail(AddError(src, s, s.token.message))
    else Fail(AddError(src, s, "unexpected token"))
  }

  /** The loop over the elements of an array, after `elems` were read. Commas between elements
      are optional. */
  function ParseElements(src: Source, s: State, elems: seq<Value>): (r: Parsed<Value>)
    requires src.lib.Ok()
    ensures r.Ok? ==> r.state.Size() <= s.Size()
    ensures r.Throw? ==> Sound(s, r)
    decreases s.Size(), 1
  {
    var mode := ValueMode(src.lib);
    var s1 := SkipLines(mode, s);
    if s1.token.RBracket? then Ok(Array(elems), Next(mode, s1)) else
      match ParseValue(src, s1)
      case Fail(s2) => Fail(s2)
      case Throw(key, table) => Throw(key, table)
      case Ok(x, s2) =>
        if elems != [] && !SameKind(elems[0], x) then Fail(AddError(src, s2, "type check failed")) else
          var s3 := SkipLines(mode, s2);
          if s3.token.RBracket? then Ok(Array(elems + [x]), Next(mode, s3))
          else ParseElements(src, if s3.token.Comma? then Next(mode, s3) else s3, elems + [x])
  }

  /** The loop over the entries of an inline table, after those of t were read. */
  function ParseEntries(src: Source, s: State, t: Value, first: bool): (r: Parsed<Value>)
    requires src.lib.Ok() && t.Table?
    ensures r.Ok? ==> r.state.Size() <= s.Size()
    ensures r.Throw? ==> Sound(s, r)
    decreases s.Size(), 1
  {
    var mode := ValueMode(src.lib);
    if s.token.RBrace? then Ok(t, Next(mode, s))
    else if !first && !s.token.Comma? then
      Fail(AddError(src, s, "inline table didn't have ',' for delimiter?"))
    else
      var s1 := if first then s else Next(KeyMode, s);
      if !s1.token.IsKey() then Fail(s1) else
        var key := s1.token.text;
        var s2 := Next(mode, s1);
        if !s2.token.Equal? then Fail(s2) else
          match ParseValue(src, Next(mode, s2))
          case Fail(s3) => Fail(s3)
          case Throw(k, table) => Throw(k, table)
          case Ok(v, s3) =>
            if Has(t, key) then
              Fail(AddError(src, s3, "inline table has multiple same keys: key=" + key))
            else
              var (t', ok) := Set(t, key, v);
              if ok then SetKeepsTable(t, key, v); ParseEntries(src, s3, t', false)
              else SetIgnoresValue(t, key, v, Null); Throw(key, t)
  }

  lemma SetKeepsTable(t: Value, key: string, v: Value)
    requires t.Table?
    ensures Set(t, key, v).0.Table?
  {
  }

  lemma {:induction false} SetIgnoresValue(t: Value, key: string, v: Value, w: Value)
    requires t.Table?
    ensures Set(t, key, v).1 == Set(t, key, w).1
  {
    SetSucceeds(t, key, v);
    SetSucceeds(t, key, w);
  }

  // ---------- group headers

  /** A pointer to a table inside the tree, which is a table itself. */
  predicate OnTable(root: Value, cursor: Path) {
    root.Table? && At(root, cursor).Some? && At(root, cursor).value.Table?
  }

  /** A non-empty array stands for its last element. */
  function LastOf(root: Value, p: Path): (q: Path)
    requires At(root, p).Some?
    ensures At(root, q).Some?
  {
    var v := At(root, p).value;
    if v.Array? && v.elems != [] then
      AtAppend(root, p, [Elem(|v.elems| - 1)]);
      p + [Elem(|v.elems| - 1)]
    else p
  }

  function AddChild(root: Value, cursor: Path, k: string, w: Value): (r: Value)
    requires OnTable(root, cursor)
    ensures r.Table?
    ensures At(r, cursor) == Some(Table(At(root, cursor).value.kids[k := w]))
    ensures At(r, cursor + [Child(k)]) == Some(w)
  {
    var t := Table(At(root, cursor).value.kids[k := w]);
    var r := Put(root, cursor, t);
    assert At(r, cursor) == Some(t) by { AtPut(root, cursor, t); }
    assert At(r, cursor + [Child(k)]) == Some(w) by { AtPut(root, cursor, t); AtAppend(r, cursor, [Child(k)]); }
    r
  }

  /** A header, read up to its closing bracket: the tree with the tables it named, and the
      place of the table it names, None when the header is refused. */
  datatype Header = Header(root: Value, cursor: Option<Path>, state: State)

  /** Going to a table that must exist or is created. */
  function Enter(root: Value, cursor: Path, k: string): (r: (Value, Option<Path>))
    requires OnTable(root, cursor)
    ensures r.1.Some? ==> OnTable(r.0, r.1.value)
  {
    var here := cursor + [Child(k)];
    AtAppend(root, cursor, [Child(k)]);
    if At(root, here).Some? then
      var q := LastOf(root, here);
      if At(root, q).value.Table? then (root, Some(q)) else (root, None)
    else (AddChild(root, cursor, k, EMPTY_TABLE), Some(here))
  }

  /** Appending a table to an array, which is created when there is none of that name. Any other
      value is refused. */
  function Append(root: Value, cursor: Path, k: string): (r: (Value, Option<Path>))
    requires OnTable(root, cursor)
    ensures r.1.Some? ==> OnTable(r.0, r.1.value) && At(r.0, r.1.value) == Some(EMPTY_TABLE)
    ensures var kids := At(root, cursor).value.kids;
      if k in kids && !kids[k].Array? then r == (root, None)
      else
        var elems := if k in kids then kids[k].elems else [];
        && r.1 == Some(cursor + [Child(k)] + [Elem(|elems|)])
        && At(r.0, cursor) == Some(Table(kids[k := Array(elems + [EMPTY_TABLE])]))
  {
    var here := cursor + [Child(k)];
    var kids := At(root, cursor).value.kids;
    if k in kids && !kids[k].Array? then (root, None) else
      var elems := if k in kids then kids[k].elems else [];
      var r := AddChild(root, cursor, k, Array(elems + [EMPTY_TABLE]));
      AtAppend(r, here, [Elem(|elems|)]);
      (r, Some(here + [Elem(|elems|)]))
  }

  predicate AllTables(es: seq<Value>) { forall i :: 0 <= i < |es| ==> es[i].Table? }

  /** The elements of the array are not looked at: it consists of tables afterwards exactly when
      it is new or consisted of tables before. */
  lemma {:induction false} AppendedTables(root: Value, cursor: Path, k: string)
    requires OnTable(root, cursor) && Append(root, cursor, k).1.Some?
    ensures var before := At(root, cursor).value.kids;
      var after := At(Append(root, cursor, k).0, cursor).value.kids;
      AllTables(after[k].elems) <==> k !in before || AllTables(before[k].elems)
  {
    var kids := At(root, cursor).value.kids;
    var elems := if k in kids then kids[k].elems else [];
    assert forall i :: 0 <= i < |elems| ==> (elems + [EMPTY_TABLE])[i] == elems[i];
  }

  /** The loop over the keys of a header. */
  function ParseKeys(s: State, root: Value, cursor: Path, isArray: bool): (h: Header)
    requires OnTable(root, cursor)
    ensures h.cursor.Some? ==> OnTable(h.root, h.cursor.value)
    ensures h.state.Size() <= s.Size() && (h.cursor.Some? ==> h.state.Size() < s.Size())
    ensures h.state.error == s.error
    decreases s.Size()
  {
    if !s.token.IsKey() then Header(root, None, s) else
      var key := s.token.text;
      var s1 := Next(KeyMode, s);
      if s1.token.Dot? then
        var s2 := Next(KeyMode, s1);
        var (root', cursor') := Enter(root, cursor, key);
        if cursor' == None then Header(root', None, s2)
        else ParseKeys(s2, root', cursor'.value, isArray)
      else if s1.token.RBracket? then
        var (root', cursor') := if isArray then Append(root, cursor, key) else Enter(root, cursor, key);
        Header(root', cursor', Next(KeyMode, s1))
      else Header(root, None, s1)
  }

  function EndLine(s: State): (r: (State, bool))
    ensures r.0.Size() <= s.Size() && r.0.error == s.error
  {
    if s.token.EndOfLine? || s.token.EndOfFile? then (Next(KeyMode, s), true) else (s, false)
  }

  function ParseHeader(s: State, root: Value): (h: Header)
    requires root.Table?
    ensures h.cursor.Some? ==> OnTable(h.root, h.cursor.value)
    ensures h.cursor.Some? ==> h.state.Size() < s.Size()
    ensures h.state.error == s.error
  {
    if !s.token.LBracket? then Header(root, None, s) else
      var s1 := Next(KeyMode, s);
      var isArray := s1.token.LBracket?;
      var s2 := if isArray then Next(KeyMode, s1) else s1;
      var h := ParseKeys(s2, root, [], isArray);
      if h.cursor == None then h
      else if isArray && !h.state.token.RBracket? then h.(cursor := None)
      else
        var s3 := if isArray then Next(KeyMode, h.state) else h.state;
        var (s4, ok) := EndLine(s3);
        Header(h.root, if ok then h.cursor else None, s4)
  }

  // ---------- the main loop

  datatype Config = Config(state: State, root: Value, cursor: Path)

  /** What parsing a text ends in. */
  datatype Outcome =
    | Done(root: Value)
    | Failed(error: string)
    | Thrown(key: string, table: Value)

  /** One turn of the main loop. */
  datatype Turn = More(config: Config) | End(outcome: Outcome)

  /** A `key = value` line: the value goes into the table at the cursor. */
  function ParseLine(src: Source, c: Config): Turn
    requires src.lib.Ok() && OnTable(c.root, c.cursor)
  {
    var mode := ValueMode(src.lib);
    if !c.state.token.IsKey() then FailLine(src, AddError(src, c.state, "parse key failed")) else
      var key := c.state.token.text;
      var s1 := Next(mode, c.state);
      if !s1.token.Equal? then FailLine(src, AddError(src, s1, "no equal?")) else
        match ParseValue(src, Next(mode, s1))
        case Throw(k, table) => End(Thrown(k, table))
        case Fail(s2) => FailLine(src, s2)
        case Ok(v, s2) => AcceptLine(src, s2, c.root, c.cursor, key, v)
  }

  function AcceptLine(src: Source, s: State, root: Value, cursor: Path, key: string, v: Value): Turn
    requires src.lib.Ok() && OnTable(root, cursor)
  {
    var (s', ok) := EndLine(s);
    if !ok then FailLine(src, s')
    else if Has(At(root, cursor).value, key) then
      FailLine(src, AddError(src, s', "Multiple same key: " + key))
    else More(Config(s', AddChild(root, cursor, key, v), cursor))
  }

  function FailLine(src: Source, s: State): Turn {
    End(Failed(AddError(src, s, "error when parsing key Value").error))
  }

  predicate Invariant(c: Config) { OnTable(c.root, c.cursor) }

  function TakeTurn(src: Source, c: Config): (t: Turn)
    requires src.lib.Ok() && Invariant(c)
    ensures t.More? ==> Invariant(t.config) && t.config.state.Size() < c.state.Size()
  {
    var s := SkipLines(KeyMode, c.state);
    if s.token.EndOfFile? then End(Done(c.root))
    else if s.token.LBracket? then
      var h := ParseHeader(s, c.root);
      if h.cursor == None then End(Failed(AddError(src, h.state, "error when parsing group key").error))
      else More(Config(h.state, h.root, h.cursor.value))
    else ParseLine(src, Config(s, c.root, c.cursor))
  }

  function Run(src: Source, c: Config): Outcome
    requires src.lib.Ok() && Invariant(c)
    decreases c.state.Size()
  {
    match TakeTurn(src, c)
    case End(outcome) => outcome
    case More(c') => Run(src, c')
  }

  function Start(src: Source, ok: bool): Config {
    Config(if ok then Next(KeyMode, State(EndOfLine, src.text, ""))
           else State(ErrorToken("Invalid UTF8 BOM"), src.text, ""),
           EMPTY_TABLE, [])
  }

  /** Parsing a whole input. */
  function Parse(input: string, lib: Library): Outcome
    requires lib.Ok()
  {
    var (ok, text) := ByteOrderMark(input);
    Run(Source(text, lib), Start(Source(text, lib), ok))
  }

  // ---------- every run

  /** The configuration after n turns, None when parsing has ended before: on every input,
      after any number of turns, the cursor is on a table inside the root, and there can be
      no more turns than characters. */
  function After(src: Source, c: Config, n: nat): (r: Option<Config>)
    requires src.lib.Ok() && Invariant(c)
    ensures r.Some? ==> Invariant(r.value) && r.value.state.Size() + n <= c.state.Size()
    decreases n
  {
    if n == 0 then Some(c) else
      match TakeTurn(src, c)
      case End(_) => None
      case More(c') => After(src, c', n - 1)
  }

  /** A key that a table refuses: it is not a dotted path, or a proper prefix of the path is
      bound to a value that is not a table. */
  predicate Refuses(table: Value, key: string) {
    table.Table? && (PathOf(key) == None || !Open(table, PathOf(key).value))
  }

  predicate Acceptable(outcome: Outcome) {
    match outcome
    case Done(root) => root.Table?
    case Failed(error) => error != ""
    case Thrown(key, table) => Refuses(table, key)
  }

  lemma {:induction false} RunEnds(src: Source, c: Config)
    requires src.lib.Ok() && Invariant(c)
    ensures Acceptable(Run(src, c))
    decreases c.state.Size()
  {
    match TakeTurn(src, c)
    case More(c') => RunEnds(src, c');
    case End(outcome) =>
      if outcome.Thrown? {
        SetSucceeds(outcome.table, outcome.key, Null);
      }
  }

  /** On every input parsing ends with a table, with an error message, or with the exception
      of a table that refuses the key of an inline table. */
  lemma {:induction false} ParseEnds(input: string, lib: Library)
    requires lib.Ok()
    ensures Acceptable(Parse(input, lib))
  {
    var (ok, text) := ByteOrderMark(input);
    RunEnds(Source(text, lib), Start(Source(text, lib), ok));
  }
}
