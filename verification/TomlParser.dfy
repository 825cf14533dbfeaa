/** The parser: a lexer, one token of lookahead, the first error, and a cursor into the tree
    that is being built. */
module TomlParser {
  import opened Basics
  import opened TomlText
  import opened TomlLexer
  import opened TomlValue
  import opened TomlPaths
  import opened TomlDocument
  import opened TomlGrammar

  /** What a parsing routine gives its caller; the state stays in the parser. */
  datatype Answer = Got(value: Value) | Refused | Raised(key: string, table: Value)

  predicate Agrees(r: Parsed<Value>, answer: Answer, now: State) {
    match r
    case Ok(v, s) => answer == Got(v) && now == s
    case Fail(s) => answer == Refused && now == s
    case Throw(key, table) => answer == Raised(key, table)
  }

  class Parser {
    const lexer: Lexer
    const lib: Library
    var token: Token
    var errorReason: string

    ghost predicate Valid()
      reads this, lexer
    {
      lib.Ok() && lexer.Valid()
    }

    ghost function Now(): State
      reads this, lexer
      requires Valid()
    {
      State(token, lexer.Rest(), errorReason)
    }

    ghost function Src(): Source
      reads this, lexer
      requires Valid()
    {
      Source(lexer.input[lexer.start..], lib)
    }

    constructor (input: string, lib: Library)
      requires lib.Ok()
      ensures Valid() && fresh(lexer)
      ensures Src() == Source(ByteOrderMark(input).1, lib)
      ensures Now() == Start(Src(), ByteOrderMark(input).0).state
    {
      var lx := new Lexer(input);
      var ok := lx.SkipByteOrderMark();
      var t := ErrorToken("Invalid UTF8 BOM");
      if ok {
        t := lx.Lex(KeyMode);
      }
      lexer, this.lib, token, errorReason := lx, lib, t, "";
    }

    method Advance(mode: Mode)
      requires Valid() && mode.Ok()
      modifies this`token, lexer`pos, lexer`lineNo
      ensures Valid() && Now() == Next(mode, old(Now()))
    {
      token := lexer.Lex(mode);
    }

    method SkipEmptyLines(mode: Mode)
      requires Valid() && mode.Ok()
      modifies this`token, lexer`pos, lexer`lineNo
      ensures Valid() && Now() == SkipLines(mode, old(Now()))
    {
      while token.EndOfLine?
        invariant Valid() && errorReason == old(errorReason)
        invariant SkipLines(mode, Now()) == SkipLines(mode, old(Now()))
        decreases Now().Size()
      {
        Advance(mode);
      }
    }

    method Report(reason: string)
      requires Valid()
      modifies this`errorReason
      ensures Valid() && Now() == AddError(Src(), old(Now()), reason)
    {
      if errorReason != "" {
        return;
      }
      var input, start, pos := lexer.input, lexer.start, lexer.pos;
      assert Src().text[..|Src().text| - |lexer.Rest()|] == input[start..pos];
      errorReason := "Error: line " + IntText(lexer.lineNo) + ": " + reason;
    }

    /** Takes the end of a line or of the input. */
    method TakeEndOfLine() returns (ok: bool)
      requires Valid()
      modifies this`token, lexer`pos, lexer`lineNo
      ensures Valid() && (Now(), ok) == EndLine(old(Now()))
    {
      ok := token.EndOfLine? || token.EndOfFile?;
      if ok {
        Advance(KeyMode);
      }
    }

    method ReadValue() returns (answer: Answer)
      requires Valid()
      modifies this, lexer`pos, lexer`lineNo
      ensures Valid() && Agrees(ParseValue(Src(), old(Now())), answer, Now())
      decreases Now().Size(), 1
    {
      var literal := Literal(token);
      if literal.Some? {
        Advance(ValueMode(lib));
        answer := Got(literal.value);
      } else if token.LBracket? {
        answer := ReadArray();
      } else if token.LBrace? {
        answer := ReadInlineTable();
      } else {
        Report(if token.ErrorToken? then token.message else "unexpected token");
        answer := Refused;
      }
    }

    method ReadArray() returns (answer: Answer)
      requires Valid() && token.LBracket?
      modifies this, lexer`pos, lexer`lineNo
      ensures Valid()
      ensures Agrees(ParseElements(Src(), Next(ValueMode(lib), old(Now())), []), answer, Now())
      decreases Now().Size(), 0
    {
      ghost var src := Src();
      var mode := ValueMode(lib);
      Advance(mode);
      ghost var goal := ParseElements(src, Now(), []);
      var a: seq<Value> := [];
      while true
        invariant Valid() && Src() == src
        invariant Now().Size() < old(Now().Size())
        invariant ParseElements(src, Now(), a) == goal
        decreases Now().Size()
      {
        SkipEmptyLines(mode);
        if token.RBracket? {
          break;
        }
        var x := ReadValue();
        if !x.Got? {
          return x;
        }
        if a != [] && !SameKind(a[0], x.value) {
          Report("type check failed");
          return Refused;
        }
        a := a + [x.value];
        SkipEmptyLines(mode);
        if token.RBracket? {
          break;
        }
        if token.Comma? {
          Advance(mode);
        }
      }
      Advance(mode);
      answer := Got(Array(a));
    }

    method ReadInlineTable() returns (answer: Answer)
      requires Valid() && token.LBrace?
      modifies this, lexer`pos, lexer`lineNo
      ensures Valid()
      ensures Agrees(ParseEntries(Src(), Next(KeyMode, old(Now())), EMPTY_TABLE, true), answer, Now())
      decreases Now().Size(), 0
    {
      hide NextToken, FindPath, SetAlong, ParseElements, SkipLines, PathOf;
      ghost var src := Src();
      var mode := ValueMode(lib);
      Advance(KeyMode);
      ghost var goal := ParseEntries(src, Now(), EMPTY_TABLE, true);
      var t := new Document(EMPTY_TABLE);
      var first := true;
      while !token.RBrace?
        invariant Valid() && Src() == src
        invariant fresh(t) && t.root.Table?
        invariant Now().Size() < old(Now().Size())
        invariant ParseEntries(src, Now(), t.root, first) == goal
        decreases Now().Size()
      {
        var key, v := ReadEntry(first, t.root);
        first := false;
        if !v.Got? {
          return v;
        }
        var place := FindValue(t.root, key);
        if place.Some? {
          Report("inline table has multiple same keys: key=" + key);
          return Refused;
        }
        var table := t.root;
        var ok := t.SetKey(key, v.value);
        if !ok {
          return Raised(key, table);
        }
      }
      Advance(mode);
      answer := Got(t.root);
    }

    /** Reads up to the value of the next entry of an inline table that holds t already. */
    method ReadEntry(first: bool, ghost t: Value) returns (key: string, v: Answer)
      requires Valid() && t.Table? && !token.RBrace?
      modifies this, lexer`pos, lexer`lineNo
      ensures Valid() && Src() == old(Src())
      ensures !v.Got? ==> Agrees(ParseEntries(Src(), old(Now()), t, first), v, Now())
      ensures v.Got? ==> Now().Size() < old(Now()).Size()
      ensures v.Got? && Has(t, key) ==>
        (ParseEntries(Src(), old(Now()), t, first)
         == Fail(AddError(Src(), Now(), "inline table has multiple same keys: key=" + key)))
      ensures v.Got? && !Has(t, key) && !Set(t, key, v.value).1 ==>
        ParseEntries(Src(), old(Now()), t, first) == Throw(key, t)
      ensures v.Got? && !Has(t, key) && Set(t, key, v.value).1 ==>
        Set(t, key, v.value).0.Table? &&
        ParseEntries(Src(), old(Now()), t, first) == ParseEntries(Src(), Now(), Set(t, key, v.value).0, false)
      decreases Now().Size(), 1
    {
      hide NextToken, FindPath, SetAlong, ParseElements, SkipLines, PathOf;
      var mode := ValueMode(lib);
      key := "";
      if !first {
        if !token.Comma? {
          Report("inline table didn't have ',' for delimiter?");
          return key, Refused;
        }
        Advance(KeyMode);
      }
      if !token.IsKey() {
        return key, Refused;
      }
      key := token.text;
      Advance(mode);
      if !token.Equal? {
        return key, Refused;
      }
      Advance(mode);
      v := ReadValue();
      if v.Got? {
        SetKeepsTable(t, key, v.value);
      }
    }

    /** The keys of a header: walks and extends the tree as they are read. */
    method ReadKeys(root0: Value, isArray: bool) returns (root: Value, cursor: Option<Path>)
      requires Valid() && root0.Table?
      modifies this`token, lexer`pos, lexer`lineNo
      ensures Valid() && Header(root, cursor, Now()) == ParseKeys(old(Now()), root0, [], isArray)
    {
      root := root0;
      var current: Path := [];
      while true
        invariant Valid() && errorReason == old(errorReason)
        invariant OnTable(root, current)
        invariant ParseKeys(Now(), root, current, isArray) == ParseKeys(old(Now()), root0, [], isArray)
        decreases Now().Size()
      {
        if !token.IsKey() {
          return root, None;
        }
        var key := token.text;
        Advance(KeyMode);
        if token.Dot? {
          Advance(KeyMode);
          root, cursor := EnterTable(root, current, key);
          if cursor == None {
            return;
          }
          current := cursor.value;
        } else if token.RBracket? {
          Advance(KeyMode);
          if isArray {
            root, cursor := AppendTable(root, current, key);
          } else {
            root, cursor := EnterTable(root, current, key);
          }
          return;
        } else {
          return root, None;
        }
      }
    }

    static method EnterTable(root0: Value, current: Path, key: string) returns (root: Value, cursor: Option<Path>)
      requires OnTable(root0, current)
      ensures (root, cursor) == Enter(root0, current, key)
    {
      root := root0;
      var here := current + [Child(key)];
      AtAppend(root, current, [Child(key)]);
      if key in At(root, current).value.kids {
        var candidate := At(root, current).value.kids[key];
        var place := here;
        if candidate.Array? && |candidate.elems| > 0 {
          place := here + [Elem(|candidate.elems| - 1)];
          candidate := candidate.elems[|candidate.elems| - 1];
        }
        assert place == LastOf(root, here);
        AtAppend(root, here, place[|here|..]);
        cursor := if candidate.Table? then Some(place) else None;
      } else {
        root := AddChild(root, current, key, EMPTY_TABLE);
        cursor := Some(here);
      }
    }

    static method AppendTable(root0: Value, current: Path, key: string) returns (root: Value, cursor: Option<Path>)
      requires OnTable(root0, current)
      ensures (root, cursor) == Append(root0, current, key)
    {
      root := root0;
      var kids := At(root, current).value.kids;
      var elems: seq<Value> := [];
      if key in kids {
        if !kids[key].Array? {
          return root, None;
        }
        elems := kids[key].elems;
      }
      root := AddChild(root, current, key, Array(elems + [EMPTY_TABLE]));
      cursor := Some(current + [Child(key)] + [Elem(|elems|)]);
    }

    method ReadHeader(root0: Value) returns (root: Value, cursor: Option<Path>)
      requires Valid() && root0.Table?
      modifies this`token, lexer`pos, lexer`lineNo
      ensures Valid() && Header(root, cursor, Now()) == ParseHeader(old(Now()), root0)
    {
      if !token.LBracket? {
        return root0, None;
      }
      Advance(KeyMode);
      var isArray := false;
      if token.LBracket? {
        Advance(KeyMode);
        isArray := true;
      }
      root, cursor := ReadKeys(root0, isArray);
      if cursor == None {
        return;
      }
      if isArray {
        if !token.RBracket? {
          cursor := None;
          return;
        }
        Advance(KeyMode);
      }
      var ok := TakeEndOfLine();
      if !ok {
        cursor := None;
      }
    }

    /** A `key = value` line. */
    method ReadLine(root: Value, cursor: Path) returns (turn: Turn)
      requires Valid() && OnTable(root, cursor)
      modifies this, lexer`pos, lexer`lineNo
      ensures Valid() && turn == ParseLine(Src(), Config(old(Now()), root, cursor))
      ensures turn.More? ==> turn.config.state == Now()
    {
      var mode := ValueMode(lib);
      if !token.IsKey() {
        Report("parse key failed");
        turn := GiveUp();
        return;
      }
      var key := token.text;
      Advance(mode);
      if !token.Equal? {
        Report("no equal?");
        turn := GiveUp();
        return;
      }
      Advance(mode);
      var v := ReadValue();
      if v.Raised? {
        return End(Thrown(v.key, v.table));
      }
      if v.Refused? {
        turn := GiveUp();
        return;
      }
      turn := FinishLine(root, cursor, key, v.value);
    }

    method FinishLine(root: Value, cursor: Path, key: string, v: Value) returns (turn: Turn)
      requires Valid() && OnTable(root, cursor)
      modifies this, lexer`pos, lexer`lineNo
      ensures Valid() && turn == AcceptLine(Src(), old(Now()), root, cursor, key, v)
      ensures turn.More? ==> turn.config.state == Now()
    {
      var ok := TakeEndOfLine();
      if !ok {
        turn := GiveUp();
        return;
      }
      var place := FindValue(At(root, cursor).value, key);
      if place.Some? {
        Report("Multiple same key: " + key);
        turn := GiveUp();
        return;
      }
      turn := More(Config(State(token, lexer.Rest(), errorReason), AddChild(root, cursor, key, v), cursor));
    }

    method GiveUp() returns (turn: Turn)
      requires Valid()
      modifies this`errorReason
      ensures Valid() && turn == FailLine(Src(), old(Now()))
    {
      Report("error when parsing key Value");
      turn := End(Failed(errorReason));
    }

    method ParseDocument() returns (outcome: Outcome)
      requires Valid()
      modifies this, lexer`pos, lexer`lineNo
      ensures Valid() && outcome == TomlGrammar.Run(Src(), Config(old(Now()), EMPTY_TABLE, []))
    {
      ghost var src := Src();
      ghost var goal := TomlGrammar.Run(src, Config(Now(), EMPTY_TABLE, []));
      var root := EMPTY_TABLE;
      var cursor: Path := [];
      while true
        invariant Valid() && Src() == src
        invariant OnTable(root, cursor)
        invariant TomlGrammar.Run(src, Config(Now(), root, cursor)) == goal
        decreases Now().Size()
      {
        ghost var c := Config(Now(), root, cursor);
        SkipEmptyLines(KeyMode);
        if token.EndOfFile? {
          return Done(root);
        }
        if token.LBracket? {
          var next;
          root, next := ReadHeader(root);
          if next == None {
            Report("error when parsing group key");
            return Failed(errorReason);
          }
          cursor := next.value;
        } else {
          var turn := ReadLine(root, cursor);
          if turn.End? {
            return turn.outcome;
          }
          root := turn.config.root;
        }
      }
    }
  }

  /** Parsing an input from its first byte. */
  method ParseInput(input: string, lib: Library) returns (outcome: Outcome)
    requires lib.Ok()
    ensures outcome == Parse(input, lib)
  {
    var parser := new Parser(input, lib);
    outcome := parser.ParseDocument();
  }
}
