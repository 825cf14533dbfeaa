/** Parsing a printed document gives the document back, exactly when every key can be read. */
module TomlRoundTrip {
  import opened Basics
  import opened TomlText
  import opened TomlLexer
  import opened TomlEscapes
  import opened TomlValue
  import opened TomlPaths
  import opened TomlMerge
  import opened TomlGrammar
  import opened TomlWriter
  import opened TomlReadBack

  // ---------- documents

  /** Tables of booleans, integers, strings, arrays of these, tables, and non-empty arrays of
      tables that are entries of a table. */
  predicate IsDocument(v: Value)
    decreases v, 0
  {
    v.Table? && forall k :: k in v.kids ==> IsEntry(v.kids[k])
  }

  predicate IsEntry(w: Value)
    decreases w, 1
  {
    if w.Table? then IsDocument(w)
    else if IsSection(w) then forall i :: 0 <= i < |w.elems| ==> IsDocument(w.elems[i])
    else Inline(w)
  }

  /** The key of a line, read as a dotted path, names another line that was printed before. */
  predicate Misread(v: Value, k: string)
    requires v.Table?
  {
    match PathOf(k)
    case None => false
    case Some(ks) => |ks| == 1 && ks[0] in v.kids && !IsSection(v.kids[ks[0]]) && Before(ks[0], k)
  }

  /** Every key is non-empty and not misread, and the arrays in lines are uniform. */
  predicate Readable(v: Value)
    decreases v, 0
  {
    v.Table? && forall k :: k in v.kids ==>
      k != "" && ReadableEntry(v.kids[k]) && (IsSection(v.kids[k]) || !Misread(v, k))
  }

  predicate ReadableEntry(w: Value)
    decreases w, 1
  {
    if w.Table? then Readable(w)
    else if IsSection(w) then forall i :: 0 <= i < |w.elems| ==> Readable(w.elems[i])
    else Uniform(w)
  }

  // ---------- the tree under construction

  lemma {:induction false} AtPutBelow(v: Value, p: Path, q: Path, w: Value)
    requires At(v, p + q).Some?
    ensures At(v, p).Some? && At(At(v, p).value, q).Some?
    ensures At(Put(v, p + q, w), p) == Some(Put(At(v, p).value, q, w))
  {
    PutAppend(v, p, q, w);
    AtPut(v, p, Put(At(v, p).value, q, w));
  }

  lemma {:induction false} LeadsBelow(root: Value, from: Path, ks: seq<string>, to: Path)
    requires Leads(root, from, ks, to)
    ensures from <= to && OnTable(root, to)
    decreases |ks|
  {
    if ks != [] {
      LeadsBelow(root, LastOf(root, from + [Child(ks[0])]), ks[1..], to);
    }
  }

  /** What is above a table that is replaced by another table keeps its kind and length. */
  lemma {:induction false} AbovePut(root: Value, p: Path, to: Path, t: Value)
    requires At(root, to).Some? && At(root, to).value.Table? && t.Table? && p <= to
    ensures At(root, p).Some? && At(Put(root, to, t), p).Some?
    ensures var v, w := At(root, p).value, At(Put(root, to, t), p).value;
            && (v.Table? <==> w.Table?) && (v.Array? <==> w.Array?)
            && (v.Array? ==> |v.elems| == |w.elems|)
  {
    var q := to[|p|..];
    assert to == p + q;
    AtPutBelow(root, p, q, t);
    if q == [] {
      assert p == to;
    } else {
      var v := At(root, p).value;
      assert Put(v, q, t) == PutStep(v, q[0], Put(StepTo(v, q[0]).value, q[1..], t));
    }
  }

  lemma {:induction false} LastAfterPut(root: Value, p: Path, to: Path, t: Value)
    requires At(root, to).Some? && At(root, to).value.Table? && t.Table?
    requires At(root, p).Some? && LastOf(root, p) <= to
    ensures At(Put(root, to, t), p).Some? && LastOf(Put(root, to, t), p) == LastOf(root, p)
  {
    assert p <= LastOf(root, p);
    AbovePut(root, p, to, t);
  }

  /** Replacing the table at the end of a walk by another table does not change the walk. */
  lemma {:induction false} LeadsAfterPut(root: Value, from: Path, ks: seq<string>, to: Path, t: Value)
    requires Leads(root, from, ks, to) && t.Table? && At(root, to).Some?
    ensures Leads(Put(root, to, t), from, ks, to)
    decreases |ks|
  {
    LeadsBelow(root, from, ks, to);
    AtPut(root, to, t);
    AbovePut(root, [], to, t);
    AbovePut(root, from, to, t);
    if ks != [] {
      var here := from + [Child(ks[0])];
      LeadsAfterPut(root, LastOf(root, here), ks[1..], to, t);
      LeadsBelow(root, LastOf(root, here), ks[1..], to);
      LastAfterPut(root, here, to, t);
    }
  }

  /** A walk to a table goes on to a child of it. */
  lemma {:induction false} LeadsOn(root: Value, from: Path, ks: seq<string>, to: Path, k: string)
    requires Leads(root, from, ks, to) && At(root, to + [Child(k)]).Some?
    requires OnTable(root, LastOf(root, to + [Child(k)]))
    ensures Leads(root, from, ks + [k], LastOf(root, to + [Child(k)]))
    decreases |ks|
  {
    var all := ks + [k];
    if ks == [] {
      assert all[1..] == [];
    } else {
      assert all[1..] == ks[1..] + [k];
      LeadsOn(root, LastOf(root, from + [Child(ks[0])]), ks[1..], to, k);
    }
  }

  // ---------- running the parser over printed text

  /** What the parser makes of a text when the tree and the cursor are given. */
  function Go(src: Source, text: string, root: Value, cursor: Path): Outcome
    requires src.lib.Ok() && OnTable(root, cursor)
  {
    TomlGrammar.Run(src, Config(Look(KeyMode, text, ""), root, cursor))
  }

  lemma {:induction false} GoOn(src: Source, text: string, root: Value, cursor: Path)
    requires src.lib.Ok() && OnTable(root, cursor)
    ensures match TakeTurn(src, Config(Look(KeyMode, text, ""), root, cursor))
            case End(outcome) => Go(src, text, root, cursor) == outcome
            case More(c) => Go(src, text, root, cursor) == TomlGrammar.Run(src, c)
  {
    hide TakeTurn, Look;
  }

  predicate IsOrder(v: Value, ks: seq<string>) {
    v.Table? && ks == SortedKeys(v.kids.Keys)
  }

  // ---------- the lines of a table

  /** The entries printed in the lines of the first i keys. */
  function LineKids(v: Value, ks: seq<string>, i: nat): map<string, Value>
    requires v.Table? && i <= |ks|
  {
    map k | k in v.kids && k in ks[..i] && !IsSection(v.kids[k]) :: v.kids[k]
  }

  predicate LineOk(v: Value, ks: seq<string>, i: nat)
    requires IsOrder(v, ks) && i < |ks|
  {
    var k := ks[i];
    IsSection(v.kids[k]) || (k != "" && Uniform(v.kids[k]) && !Has(Table(LineKids(v, ks, i)), k))
  }

  lemma {:induction false} NextLine(v: Value, ks: seq<string>, i: nat)
    requires IsOrder(v, ks) && i < |ks|
    ensures LineKids(v, ks, i + 1) ==
              if IsSection(v.kids[ks[i]]) then LineKids(v, ks, i) else LineKids(v, ks, i)[ks[i] := v.kids[ks[i]]]
  {
    hide IsSection;
    assert ks[..i + 1] == ks[..i] + [ks[i]];
  }

  lemma {:induction false} LinesRun(src: Source, fmt: Formats, v: Value, ks: seq<string>, i: nat, prefix: string,
                                    indent: int,
                                    rest: string, root: Value, at: Path)
    requires src.lib.Ok() && IsDocument(v) && IsOrder(v, ks) && i <= |ks|
    requires OnTable(root, at) && At(root, at).value == Table(LineKids(v, ks, i))
    ensures var text := Lines(fmt, v, ks, i, prefix, indent) + rest;
            if forall j :: i <= j < |ks| ==> LineOk(v, ks, j)
            then var done := Put(root, at, Table(LineKids(v, ks, |ks|)));
                 OnTable(done, at) && Go(src, text, root, at) == Go(src, rest, done, at)
            else Go(src, text, root, at).Failed?
    decreases |ks| - i
  {
    hide Line, Text, Look, TakeTurn, Uniform, Has, LineKids, Go, IsSection, Inline;
    var text := Lines(fmt, v, ks, i, prefix, indent) + rest;
    if i == |ks| {
      PutSame(root, at);
      assert text == rest;
    } else {
      var k := ks[i];
      var more := Lines(fmt, v, ks, i + 1, prefix, indent) + rest;
      NextLine(v, ks, i);
      assert text == Line(fmt, v, k, prefix, indent) + more;
      LineRuns(src, fmt, v, k, prefix, indent, more, root, at);
      if LineOk(v, ks, i) {
        var next := Table(LineKids(v, ks, i + 1));
        AtPut(root, at, next);
        PutSame(root, at);
        PutPut(root, at, next, Table(LineKids(v, ks, |ks|)));
        LinesRun(src, fmt, v, ks, i + 1, prefix, indent, rest, Put(root, at, next), at);
      }
    }
  }

  /** One entry of a table, in the pass that prints lines. */
  lemma {:induction false} LineRuns(src: Source, fmt: Formats, v: Value, k: string, prefix: string, indent: int,
                                    rest: string, root: Value, at: Path)
    requires src.lib.Ok() && IsDocument(v) && k in v.kids && OnTable(root, at)
    ensures var text := Line(fmt, v, k, prefix, indent) + rest;
            var kids := At(root, at).value.kids;
            if IsSection(v.kids[k]) then Go(src, text, root, at) == Go(src, rest, root, at)
            else if k != "" && Uniform(v.kids[k]) && !Has(Table(kids), k)
            then var done := Put(root, at, Table(kids[k := v.kids[k]]));
                 OnTable(done, at) && Go(src, text, root, at) == Go(src, rest, done, at)
            else Go(src, text, root, at).Failed?
  {
    hide Text, Look, TakeTurn, Uniform, Has, TomlGrammar.Run;
    var text := Line(fmt, v, k, prefix, indent) + rest;
    if IsSection(v.kids[k]) {
      assert text == rest;
    } else {
      assert IsEntry(v.kids[k]);
      LineReads(src, fmt, v, k, prefix, indent, rest, root, at);
      GoOn(src, text, root, at);
    }
  }

  // ---------- the sections of a table

  /** Replacing a child of the table at a place. */
  lemma {:induction false} PutUnder(root: Value, at: Path, m: map<string, Value>, k: string, w: Value)
    requires At(root, at).Some? && k in m
    ensures var r := Put(root, at, Table(m));
            && At(r, at) == Some(Table(m))
            && At(r, at + [Child(k)]) == Some(m[k])
            && Put(r, at + [Child(k)], w) == Put(root, at, Table(m[k := w]))
  {
    var r := Put(root, at, Table(m));
    AtPut(root, at, Table(m));
    AtAppend(r, at, [Child(k)]);
    PutAppend(r, at, [Child(k)], w);
    PutKid(Table(m), k, w);
    PutPut(root, at, Table(m), Table(m[k := w]));
  }

  lemma {:induction false} PutElem(v: Value, i: nat, w: Value)
    requires v.Array? && i < |v.elems|
    ensures At(v, [Elem(i)]) == Some(v.elems[i]) && Put(v, [Elem(i)], w) == Array(v.elems[i := w])
  {
    assert [Elem(i)][1..] == [];
  }

  lemma {:induction false} PutUnderElem(root: Value, at: Path, m: map<string, Value>, k: string, i: nat, w: Value)
    requires At(root, at).Some? && k in m && m[k].Array? && i < |m[k].elems|
    ensures var r := Put(root, at, Table(m));
            && At(r, at + [Child(k)] + [Elem(i)]) == Some(m[k].elems[i])
            && Put(r, at + [Child(k)] + [Elem(i)], w) == Put(root, at, Table(m[k := Array(m[k].elems[i := w])]))
  {
    var r := Put(root, at, Table(m));
    var here := at + [Child(k)];
    PutUnder(root, at, m, k, Array(m[k].elems[i := w]));
    PutElem(m[k], i, w);
    AtAppend(r, here, [Elem(i)]);
    PutAppend(r, here, [Elem(i)], w);
  }

  lemma {:induction false} OnTableAfterPut(root: Value, at: Path, t: Value)
    requires OnTable(root, at) && t.Table?
    ensures OnTable(Put(root, at, t), at)
  {
    AtPut(root, at, t);
    AbovePut(root, [], at, t);
  }

  /** Entering a new table. */
  lemma {:induction false} EnterNew(root: Value, ks: seq<string>, at: Path, k: string)
    requires Leads(root, [], ks, at) && OnTable(root, at) && k !in At(root, at).value.kids
    ensures var r := Put(root, at, Table(At(root, at).value.kids[k := EMPTY_TABLE]));
            && Enter(root, at, k) == (r, Some(at + [Child(k)]))
            && Leads(r, [], ks + [k], at + [Child(k)])
            && OnTable(r, at + [Child(k)]) && At(r, at + [Child(k)]) == Some(EMPTY_TABLE)
  {
    var m := At(root, at).value.kids[k := EMPTY_TABLE];
    var r := Put(root, at, Table(m));
    AtAppend(root, at, [Child(k)]);
    PutUnder(root, at, m, k, EMPTY_TABLE);
    OnTableAfterPut(root, at, Table(m));
    LeadsAfterPut(root, [], ks, at, Table(m));
    LeadsOn(r, [], ks, at, k);
  }

  /** Appending a table to an array of tables, or starting one. */
  lemma {:induction false} AppendNew(root: Value, ks: seq<string>, at: Path, k: string, elems: seq<Value>)
    requires Leads(root, [], ks, at) && OnTable(root, at)
    requires var kids := At(root, at).value.kids; if k in kids then kids[k] == Array(elems) else elems == []
    ensures var r := Put(root, at, Table(At(root, at).value.kids[k := Array(elems + [EMPTY_TABLE])]));
            var here := at + [Child(k)] + [Elem(|elems|)];
            && Append(root, at, k) == (r, Some(here))
            && Leads(r, [], ks + [k], here)
            && OnTable(r, here) && At(r, here) == Some(EMPTY_TABLE)
  {
    var m := At(root, at).value.kids[k := Array(elems + [EMPTY_TABLE])];
    var r := Put(root, at, Table(m));
    PutUnder(root, at, m, k, EMPTY_TABLE);
    PutUnderElem(root, at, m, k, |elems|, EMPTY_TABLE);
    OnTableAfterPut(root, at, Table(m));
    LeadsAfterPut(root, [], ks, at, Table(m));
    LeadsOn(r, [], ks, at, k);
  }

  /** The entries with lines and the sections of the first i keys. */
  function SomeKids(v: Value, ks: seq<string>, i: nat): map<string, Value>
    requires v.Table? && i <= |ks|
  {
    map k | k in v.kids && (!IsSection(v.kids[k]) || k in ks[..i]) :: v.kids[k]
  }

  lemma {:induction false} NextSection(v: Value, ks: seq<string>, i: nat)
    requires IsOrder(v, ks) && i < |ks|
    ensures SomeKids(v, ks, i + 1) ==
              if IsSection(v.kids[ks[i]]) then SomeKids(v, ks, i)[ks[i] := v.kids[ks[i]]] else SomeKids(v, ks, i)
    ensures IsSection(v.kids[ks[i]]) ==> ks[i] !in SomeKids(v, ks, i)
  {
    hide IsSection;
    SortedKeysDistinct(v.kids.Keys);
    assert ks[..i + 1] == ks[..i] + [ks[i]];
  }

  lemma {:induction false} FirstAndLastKids(v: Value, ks: seq<string>)
    requires IsOrder(v, ks)
    ensures LineKids(v, ks, 0) == map[] && LineKids(v, ks, |ks|) == SomeKids(v, ks, 0)
    ensures SomeKids(v, ks, |ks|) == v.kids
  {
    hide IsSection;
    assert ks[..0] == [] && ks[..|ks|] == ks;
  }

  /** The condition on one entry of a table in the pass that prints sections. */
  predicate SectionOk(w: Value, k: string) {
    IsSection(w) ==> k != "" && ReadableEntry(w)
  }

  /** Printed text of a table below the table that the keys ks lead to. */
  lemma {:induction false} TableRun(src: Source, fmt: Formats, v: Value, ks: seq<string>, indent: int,
                                    rest: string, root: Value, at: Path) returns (cursor: Path)
    requires src.lib.Ok() && IsDocument(v) && NonEmpty(ks)
    requires Leads(root, [], ks, at) && OnTable(root, at) && At(root, at).value == EMPTY_TABLE
    ensures var text := Text(fmt, v, JoinKeys(ks), indent) + rest;
            if AllOk(v)
            then var done := Put(root, at, v);
                 OnTable(done, cursor) && Go(src, text, root, at) == Go(src, rest, done, cursor)
            else Go(src, text, root, at).Failed?
    decreases v, 2
  {
    hide Look, TakeTurn, Go, Lines, Sections, LineKids, SomeKids, LineOk, SectionOk, Leads;
    var order := SortedKeys(v.kids.Keys);
    var prefix := JoinKeys(ks);
    var sections := Sections(fmt, v, order, 0, prefix, indent) + rest;
    FirstAndLastKids(v, order);
    assert Text(fmt, v, prefix, indent) + rest == Lines(fmt, v, order, 0, prefix, indent) + sections;
    LinesRun(src, fmt, v, order, 0, prefix, indent, sections, root, at);
    cursor := at;
    if forall j :: 0 <= j < |order| ==> LineOk(v, order, j) {
      var lines := Table(SomeKids(v, order, 0));
      var root' := Put(root, at, lines);
      AtPut(root, at, lines);
      LeadsAfterPut(root, [], ks, at, lines);
      PutPut(root, at, lines, v);
      cursor := SectionsRun(src, fmt, v, order, 0, ks, indent, rest, root', at, at);
    }
  }

  predicate AllOk(v: Value)
    requires v.Table?
  {
    var order := SortedKeys(v.kids.Keys);
    forall j :: 0 <= j < |order| ==> LineOk(v, order, j) && SectionOk(v.kids[order[j]], order[j])
  }

  lemma {:induction false} SectionsRun(src: Source, fmt: Formats, v: Value, order: seq<string>, i: nat, ks: seq<string>,
                                       indent: int, rest: string, root: Value, at: Path, from: Path)
    returns (cursor: Path)
    requires src.lib.Ok() && IsDocument(v) && IsOrder(v, order) && i <= |order| && NonEmpty(ks)
    requires Leads(root, [], ks, at) && OnTable(root, at) && At(root, at).value == Table(SomeKids(v, order, i))
    requires OnTable(root, from)
    ensures var text := Sections(fmt, v, order, i, JoinKeys(ks), indent) + rest;
            if forall j :: i <= j < |order| ==> SectionOk(v.kids[order[j]], order[j])
            then var done := Put(root, at, v);
                 OnTable(done, cursor) && Go(src, text, root, from) == Go(src, rest, done, cursor)
            else Go(src, text, root, from).Failed?
    decreases v, 1, |order| - i
  {
    hide Look, TakeTurn, Go, Section, SomeKids, SectionOk, Leads, Text, IsSection, JoinKeys;
    var text := Sections(fmt, v, order, i, JoinKeys(ks), indent) + rest;
    cursor := from;
    if i == |order| {
      FirstAndLastKids(v, order);
      PutSame(root, at);
      assert text == rest;
    } else {
      var k := order[i];
      var more := Sections(fmt, v, order, i + 1, JoinKeys(ks), indent) + rest;
      assert text == Section(fmt, v, k, JoinKeys(ks), indent) + more;
      NextSection(v, order, i);
      var next := Table(SomeKids(v, order, i + 1));
      var middle := SectionRuns(src, fmt, v, k, ks, indent, more, root, at, from);
      if SectionOk(v.kids[k], k) {
        AtPut(root, at, next);
        PutSame(root, at);
        OnTableAfterPut(root, at, next);
        LeadsAfterPut(root, [], ks, at, next);
        PutPut(root, at, next, v);
        cursor := SectionsRun(src, fmt, v, order, i + 1, ks, indent, rest, Put(root, at, next), at, middle);
      }
    }
  }

  /** One entry of a table, in the pass that prints sections. */
  lemma {:induction false} SectionRuns(src: Source, fmt: Formats, v: Value, k: string, ks: seq<string>,
                                       indent: int, rest: string, root: Value, at: Path, from: Path)
    returns (cursor: Path)
    requires src.lib.Ok() && IsDocument(v) && k in v.kids && NonEmpty(ks)
    requires Leads(root, [], ks, at) && OnTable(root, at) && OnTable(root, from)
    requires IsSection(v.kids[k]) ==> k !in At(root, at).value.kids
    ensures var text := Section(fmt, v, k, JoinKeys(ks), indent) + rest;
            if !SectionOk(v.kids[k], k) then Go(src, text, root, from).Failed?
            else var done := if IsSection(v.kids[k])
                             then Put(root, at, Table(At(root, at).value.kids[k := v.kids[k]]))
                             else root;
                 OnTable(done, cursor) && Go(src, text, root, from) == Go(src, rest, done, cursor)
    decreases v, 0
  {
    hide Look, TakeTurn, Go, Leads, Text, JoinKeys;
    cursor := from;
    var text := Section(fmt, v, k, JoinKeys(ks), indent) + rest;
    JoinLast(ks, k);
    if !IsSection(v.kids[k]) {
      assert text == rest;
    } else if v.kids[k].Table? {
      cursor := SubtableRuns(src, fmt, v.kids[k], k, ks, indent, rest, root, at, from);
      assert text == HeaderText(JoinKeys(ks + [k]), indent, false)
                     + Text(fmt, v.kids[k], JoinKeys(ks + [k]), Deeper(indent)) + rest;
    } else {
      assert IsEntry(v.kids[k]);
      cursor := GroupsRun(src, fmt, v.kids[k].elems, k, [], ks, indent, rest, root, at, from);
      assert [] + v.kids[k].elems == v.kids[k].elems;
    }
  }

  lemma {:induction false} SubtableRuns(src: Source, fmt: Formats, w: Value, k: string, ks: seq<string>,
                                        indent: int, rest: string, root: Value, at: Path, from: Path)
    returns (cursor: Path)
    requires src.lib.Ok() && IsDocument(w) && NonEmpty(ks)
    requires Leads(root, [], ks, at) && OnTable(root, at) && OnTable(root, from) && k !in At(root, at).value.kids
    ensures var key := JoinKeys(ks + [k]);
            var text := HeaderText(key, indent, false) + Text(fmt, w, key, Deeper(indent)) + rest;
            if k != "" && Readable(w)
            then var done := Put(root, at, Table(At(root, at).value.kids[k := w]));
                 OnTable(done, cursor) && Go(src, text, root, from) == Go(src, rest, done, cursor)
            else Go(src, text, root, from).Failed?
    decreases w, 4
  {
    hide Look, TakeTurn, TomlGrammar.Run, Leads, Text, JoinKeys, HeaderText, Enter, AllOk, Readable;
    cursor := from;
    var key := JoinKeys(ks + [k]);
    var table := Text(fmt, w, key, Deeper(indent)) + rest;
    var text := HeaderText(key, indent, false) + table;
    assert HeaderText(key, indent, false) + Text(fmt, w, key, Deeper(indent)) + rest == text;
    TableHeaderReads(src, ks, k, indent, table, root, at, from);
    GoOn(src, text, root, from);
    if k != "" {
      var m := At(root, at).value.kids[k := EMPTY_TABLE];
      EnterNew(root, ks, at, k);
      PutUnder(root, at, m, k, w);
      assert m[k := w] == At(root, at).value.kids[k := w];
      cursor := TableRun(src, fmt, w, ks + [k], Deeper(indent), rest, Put(root, at, Table(m)), at + [Child(k)]);
      ReadableIsAllOk(w);
    }
  }

  lemma {:induction false} GroupsRun(src: Source, fmt: Formats, es: seq<Value>, k: string, before: seq<Value>,
                                     ks: seq<string>,
                                     indent: int, rest: string, root: Value, at: Path, from: Path)
    returns (cursor: Path)
    requires src.lib.Ok() && (forall i :: 0 <= i < |es| ==> IsDocument(es[i])) && NonEmpty(ks)
    requires Leads(root, [], ks, at) && OnTable(root, at) && OnTable(root, from)
    requires var kids := At(root, at).value.kids; if k in kids then kids[k] == Array(before) else before == []
    ensures var text := Groups(fmt, es, JoinKeys(ks + [k]), indent) + rest;
            if es == [] || (k != "" && forall i :: 0 <= i < |es| ==> Readable(es[i]))
            then var done := if es == []
                             then root
                             else Put(root, at, Table(At(root, at).value.kids[k := Array(before + es)]));
                 OnTable(done, cursor) && Go(src, text, root, from) == Go(src, rest, done, cursor)
            else Go(src, text, root, from).Failed?
    decreases es
  {
    hide Look, TakeTurn, Go, Leads, Text, JoinKeys, HeaderText, Readable, IsDocument;
    cursor := from;
    var key := JoinKeys(ks + [k]);
    var text := Groups(fmt, es, key, indent) + rest;
    if es == [] {
      assert text == rest;
    } else {
      var more := Groups(fmt, es[1..], key, indent) + rest;
      GroupsFirst(fmt, es, key, indent, rest);
      cursor := GroupRuns(src, fmt, es[0], k, before, ks, indent, more, root, at, from);
      if k != "" && Readable(es[0]) {
        var kids := At(root, at).value.kids;
        var next := Table(kids[k := Array(before + [es[0]])]);
        var all := Table(kids[k := Array(before + es)]);
        AtPut(root, at, next);
        OnTableAfterPut(root, at, next);
        LeadsAfterPut(root, [], ks, at, next);
        PutPut(root, at, next, all);
        assert before + [es[0]] + es[1..] == before + es;
        assert next.kids[k := Array(before + es)] == all.kids;
        assert es[1..] == [] ==> before + [es[0]] == before + es;
        cursor := GroupsRun(src, fmt, es[1..], k, before + [es[0]], ks, indent, rest, Put(root, at, next), at, cursor);
      }
    }
  }

  lemma {:induction false} GroupsFirst(fmt: Formats, es: seq<Value>, key: string, indent: int, rest: string)
    requires es != []
    ensures Groups(fmt, es, key, indent) + rest ==
            HeaderText(key, indent, true) + (Text(fmt, es[0], key, Deeper(indent))
            + (Groups(fmt, es[1..], key, indent) + rest))
  {
    hide Text, Spaces;
  }

  /** One table of an array of tables. */
  lemma {:induction false} GroupRuns(src: Source, fmt: Formats, w: Value, k: string, before: seq<Value>,
                                     ks: seq<string>,
                                     indent: int, rest: string, root: Value, at: Path, from: Path)
    returns (cursor: Path)
    requires src.lib.Ok() && IsDocument(w) && NonEmpty(ks)
    requires Leads(root, [], ks, at) && OnTable(root, at) && OnTable(root, from)
    requires var kids := At(root, at).value.kids; if k in kids then kids[k] == Array(before) else before == []
    ensures var key := JoinKeys(ks + [k]);
            var text := HeaderText(key, indent, true) + (Text(fmt, w, key, Deeper(indent)) + rest);
            if k != "" && Readable(w)
            then var done := Put(root, at, Table(At(root, at).value.kids[k := Array(before + [w])]));
                 OnTable(done, cursor) && Go(src, text, root, from) == Go(src, rest, done, cursor)
            else Go(src, text, root, from).Failed?
    decreases w, 4
  {
    hide Look, TakeTurn, TomlGrammar.Run, Leads, Text, JoinKeys, HeaderText, Append, AllOk, Readable;
    cursor := from;
    var key := JoinKeys(ks + [k]);
    var table := Text(fmt, w, key, Deeper(indent)) + rest;
    GroupHeaderReads(src, ks, k, indent, table, root, at, from);
    GoOn(src, HeaderText(key, indent, true) + table, root, from);
    if k != "" {
      var m := At(root, at).value.kids[k := Array(before + [EMPTY_TABLE])];
      var here := at + [Child(k)] + [Elem(|before|)];
      AppendNew(root, ks, at, k, before);
      PutUnderElem(root, at, m, k, |before|, w);
      assert (before + [EMPTY_TABLE])[|before| := w] == before + [w];
      assert m[k := Array(before + [w])] == At(root, at).value.kids[k := Array(before + [w])];
      cursor := TableRun(src, fmt, w, ks + [k], Deeper(indent), rest, Put(root, at, Table(m)), here);
      ReadableIsAllOk(w);
    }
  }

  // ---------- the condition in terms of the keys

  lemma {:induction false} EarlierKeys(v: Value, order: seq<string>, j: nat, p: string)
    requires IsOrder(v, order) && j < |order|
    ensures p in order[..j] <==> p in v.kids && Before(p, order[j])
  {
    if p in v.kids && Before(p, order[j]) {
      assert p in order;
      var m :| 0 <= m < |order| && order[m] == p;
      if m >= j {
        if m > j {
          BeforeTransitive(p, order[j], p);
        }
        BeforeIrreflexive(p);
      }
    }
  }

  /** Among lines only, a key seems to be there exactly when it names one line. */
  lemma {:induction false} HasAmongLines(lines: map<string, Value>, k: string)
    requires forall p :: p in lines ==> !lines[p].Table?
    ensures Has(Table(lines), k) <==> PathOf(k).Some? && |PathOf(k).value| == 1 && PathOf(k).value[0] in lines
  {
    if PathOf(k).Some? {
      var path := PathOf(k).value;
      assert path == [path[0]] + path[1..];
      LookupStep(Table(lines), path[0], path[1..]);
    }
  }

  lemma {:induction false} EntryOk(v: Value, order: seq<string>, j: nat)
    requires IsOrder(v, order) && j < |order|
    ensures var k := order[j];
            LineOk(v, order, j) && SectionOk(v.kids[k], k) <==>
            k != "" && ReadableEntry(v.kids[k]) && (IsSection(v.kids[k]) || !Misread(v, k))
  {
    hide PathOf, Readable, Uniform, Has;
    var k := order[j];
    if !IsSection(v.kids[k]) {
      HasAmongLines(LineKids(v, order, j), k);
      if PathOf(k).Some? && |PathOf(k).value| == 1 {
        EarlierKeys(v, order, j, PathOf(k).value[0]);
      }
    }
  }

  lemma {:induction false} ReadableIsAllOk(v: Value)
    requires v.Table?
    ensures AllOk(v) <==> Readable(v)
  {
    hide LineOk, SectionOk, ReadableEntry, Misread, IsSection;
    var order := SortedKeys(v.kids.Keys);
    forall j | 0 <= j < |order|
      ensures var k := order[j];
              LineOk(v, order, j) && SectionOk(v.kids[k], k) <==>
              k != "" && ReadableEntry(v.kids[k]) && (IsSection(v.kids[k]) || !Misread(v, k))
    {
      EntryOk(v, order, j);
    }
  }

  // ---------- whole documents

  predicate NoMark(s: string) { s == "" || s[0] != 0xEF as char }

  lemma {:induction false} LineStart(fmt: Formats, v: Value, k: string, prefix: string, indent: int)
    requires v.Table? && k in v.kids
    ensures NoMark(Line(fmt, v, k, prefix, indent))
  {
    hide Text;
    var line := Line(fmt, v, k, prefix, indent);
    if line != "" {
      var start := Spaces(indent) + EscapeKey(k);
      assert line == start + (" = " + (Text(fmt, v.kids[k], prefix, Deeper(indent)) + "\n"));
      assert Spaces(indent) == "" || Spaces(indent)[0] == ' ';
      assert EscapeKey(k) == "" || EscapeKey(k)[0] == '\"' || IsKeyChar(EscapeKey(k)[0]);
    }
  }

  lemma {:induction false} LinesStart(fmt: Formats, v: Value, ks: seq<string>, i: nat, prefix: string, indent: int,
                                      rest: string)
    requires v.Table? && i <= |ks| && (forall k :: k in ks ==> k in v.kids) && NoMark(rest)
    ensures NoMark(Lines(fmt, v, ks, i, prefix, indent) + rest)
    decreases |ks| - i
  {
    hide Line, Text;
    if i < |ks| {
      LineStart(fmt, v, ks[i], prefix, indent);
      LinesStart(fmt, v, ks, i + 1, prefix, indent, rest);
      assert Lines(fmt, v, ks, i, prefix, indent) + rest ==
             Line(fmt, v, ks[i], prefix, indent) + (Lines(fmt, v, ks, i + 1, prefix, indent) + rest);
    } else {
      assert Lines(fmt, v, ks, i, prefix, indent) + rest == rest;
    }
  }

  lemma {:induction false} SectionsStart(fmt: Formats, v: Value, ks: seq<string>, i: nat, prefix: string, indent: int)
    requires v.Table? && i <= |ks| && (forall k :: k in ks ==> k in v.kids)
    ensures NoMark(Sections(fmt, v, ks, i, prefix, indent))
    decreases |ks| - i
  {
    hide Text;
    if i < |ks| {
      SectionsStart(fmt, v, ks, i + 1, prefix, indent);
      SectionStart(fmt, v, ks[i], prefix, indent);
    }
  }

  lemma {:induction false} SectionStart(fmt: Formats, v: Value, k: string, prefix: string, indent: int)
    requires v.Table? && k in v.kids
    ensures var s := Section(fmt, v, k, prefix, indent); s == "" || s[0] == '\n'
  {
    hide Text;
    var s, key := Section(fmt, v, k, prefix, indent), KeyUnder(prefix, k);
    if s != "" {
      if v.kids[k].Table? {
        assert s == HeaderText(key, indent, false) + Text(fmt, v.kids[k], key, Deeper(indent));
      } else {
        GroupsFirst(fmt, v.kids[k].elems, key, indent, "");
        assert s == s + "";
      }
    }
  }

  lemma {:induction false} TextStart(fmt: Formats, v: Value, indent: int)
    requires v.Table?
    ensures NoMark(Text(fmt, v, "", indent))
  {
    hide Lines, Sections;
    var ks := SortedKeys(v.kids.Keys);
    SectionsStart(fmt, v, ks, 0, "", indent);
    LinesStart(fmt, v, ks, 0, "", indent, Sections(fmt, v, ks, 0, "", indent));
  }

  lemma {:induction false} GoAtEnd(src: Source, root: Value, cursor: Path)
    requires src.lib.Ok() && OnTable(root, cursor)
    ensures Go(src, "", root, cursor) == Done(root)
  {
    GoOn(src, "", root, cursor);
  }

  /** Parsing the text of a document, printed with or without indentation, gives the document
      back exactly when it is readable; otherwise it ends with an error. */
  lemma {:induction false} RoundTrip(fmt: Formats, lib: Library, v: Value, indent: int)
    requires lib.Ok() && IsDocument(v)
    ensures Parse(Text(fmt, v, "", indent), lib) == Done(v) <==> Readable(v)
    ensures !Readable(v) ==> Parse(Text(fmt, v, "", indent), lib).Failed?
  {
    hide Text, NextToken, AllOk, Readable, TakeTurn, TomlGrammar.Run;
    var text := Text(fmt, v, "", indent);
    var src := Source(text, lib);
    TextStart(fmt, v, indent);
    assert text + "" == text;
    assert JoinKeys([]) == "";
    assert Parse(text, lib) == Go(src, text, EMPTY_TABLE, []);
    var cursor := TableRun(src, fmt, v, [], indent, "", EMPTY_TABLE, []);
    ReadableIsAllOk(v);
    if Readable(v) {
      GoAtEnd(src, v, cursor);
    }
  }

  /** Documents with bare keys and uniform arrays. */
  predicate IsPlain(v: Value)
    decreases v, 0
  {
    v.Table? && forall k :: k in v.kids ==> IsBare(k) && IsPlainEntry(v.kids[k])
  }

  predicate IsPlainEntry(w: Value)
    decreases w, 1
  {
    if w.Table? then IsPlain(w)
    else if IsSection(w) then forall i :: 0 <= i < |w.elems| ==> IsPlain(w.elems[i])
    else Uniform(w)
  }

  lemma {:induction false} PlainIsReadable(v: Value)
    requires IsPlain(v)
    ensures Readable(v)
    decreases v, 0
  {
    hide Uniform;
    forall k | k in v.kids
      ensures k != "" && ReadableEntry(v.kids[k]) && !Misread(v, k)
    {
      PlainEntryIsReadable(v.kids[k]);
      BareKeyPath(k);
      BeforeIrreflexive(k);
    }
  }

  lemma {:induction false} PlainEntryIsReadable(w: Value)
    requires IsPlainEntry(w)
    ensures ReadableEntry(w)
    decreases w, 1
  {
    hide Uniform;
    if w.Table? {
      PlainIsReadable(w);
    } else if IsSection(w) {
      forall i | 0 <= i < |w.elems|
        ensures Readable(w.elems[i])
      {
        PlainIsReadable(w.elems[i]);
      }
    }
  }

  /** Documents with bare keys and uniform arrays survive printing and parsing. */
  lemma {:induction false} PlainRoundTrip(fmt: Formats, lib: Library, v: Value, indent: int)
    requires lib.Ok() && IsDocument(v) && IsPlain(v)
    ensures Parse(Text(fmt, v, "", indent), lib) == Done(v)
  {
    hide Text, Parse;
    PlainIsReadable(v);
    RoundTrip(fmt, lib, v, indent);
  }

  /** A document that is not read back: a key that differs from an earlier one by a blank at
      its end is taken for a repetition of it. */
  lemma {:induction false} BlankAtEndIsMisread(fmt: Formats, lib: Library, k: string, x: bool, y: bool, indent: int)
    requires lib.Ok() && IsBare(k)
    ensures var v := Table(map[k := Bool(x), k + " " := Bool(y)]);
            IsDocument(v) && Parse(Text(fmt, v, "", indent), lib).Failed?
  {
    hide Text, Parse;
    var v := Table(map[k := Bool(x), k + " " := Bool(y)]);
    BareKeyReads(k, " ");
    assert NextToken(KeyMode, " ").token == EndOfFile by { assert " "[1..] == ""; }
    assert PathOf(k + " ") == Some([k]);
    PrefixIsBefore(k, " ");
    assert Misread(v, k + " ");
    assert k + " " in v.kids;
    assert !Readable(v);
    RoundTrip(fmt, lib, v, indent);
  }

  // ---------- a group after a document

  /** A readable document, followed by the header of a group: an array of any elements gets a
      table, and everything else under that key is refused. */
  lemma {:induction false} GroupAfterDocument(fmt: Formats, lib: Library, v: Value, k: string, indent: int)
    requires lib.Ok() && IsDocument(v) && Readable(v) && k != ""
    ensures var outcome := Parse(Text(fmt, v, "", indent) + HeaderText(EscapeKey(k), 0, true), lib);
      if k in v.kids && !v.kids[k].Array? then outcome.Failed?
      else outcome == Done(Table(v.kids[k := Array((if k in v.kids then v.kids[k].elems else []) + [EMPTY_TABLE])]))
  {
    hide Text, NextToken, AllOk, Readable, TakeTurn, TomlGrammar.Run, EscapeKey;
    var header := HeaderText(EscapeKey(k), 0, true);
    var text := Text(fmt, v, "", indent) + header;
    var src := Source(text, lib);
    TextStart(fmt, v, indent);
    assert header[0] == '\n';
    assert JoinKeys([]) == "" && JoinKeys([k]) == EscapeKey(k) && [] + [k] == [k];
    assert Parse(text, lib) == Go(src, text, EMPTY_TABLE, []);
    var cursor := TableRun(src, fmt, v, [], indent, header, EMPTY_TABLE, []);
    ReadableIsAllOk(v);
    assert header + "" == header;
    GroupHeaderReads(src, [], k, 0, "", v, [], cursor);
    GoOn(src, header, v, cursor);
    var (r, c) := Append(v, [], k);
    if c.Some? {
      GoAtEnd(src, r, c.value);
    }
  }

  /** Such an array: the input `a = [1]` with the header `[[a]]` after it. */
  lemma {:induction false} NumberAndTable(lib: Library)
    requires lib.Ok()
    ensures Parse("a = [1]\n\n[[a]]\n", lib) == Done(Table(map["a" := Array([Int(1), EMPTY_TABLE])]))
  {
    hide *;
    var v := Table(map["a" := Array([Int(1)])]);
    var fmt := Formats(_ => "", _ => "");
    NumberLine(fmt, v);
    NumberDocument(v);
    GroupAfterDocument(fmt, lib, v, "a", -1);
    assert [Int(1)] + [EMPTY_TABLE] == [Int(1), EMPTY_TABLE];
    assert v.kids["a" := Array([Int(1), EMPTY_TABLE])] == map["a" := Array([Int(1), EMPTY_TABLE])];
  }

  lemma NumberDocument(v: Value)
    requires v == Table(map["a" := Array([Int(1)])])
    ensures IsDocument(v) && Readable(v)
  {
    hide Readable;
    assert IsPlain(v);
    PlainIsReadable(v);
  }

  lemma {:induction false} NumberLine(fmt: Formats, v: Value)
    requires v == Table(map["a" := Array([Int(1)])])
    ensures Text(fmt, v, "", -1) + HeaderText(EscapeKey("a"), 0, true) == "a = [1]\n\n[[a]]\n"
  {
    hide Lines, Sections, Line, Section;
    NumberItem(fmt);
    assert v.kids.Keys == {"a"};
    OneKey("a");
    assert EscapeKey("a") == "a";
    assert Line(fmt, v, "a", "", -1) == "a = [1]\n" by { NumberEntry(fmt, v); }
    assert Lines(fmt, v, ["a"], 0, "", -1) == Line(fmt, v, "a", "", -1) by { OneLine(fmt, v); }
    assert Sections(fmt, v, ["a"], 0, "", -1) == "" by { OneLine(fmt, v); }
  }

  lemma NumberItem(fmt: Formats)
    ensures Text(fmt, Array([Int(1)]), "", -1) == "[1]"
  {
    assert [Int(1)][1..] == [];
    assert Items(fmt, [Int(1)], "", true) == "1";
  }

  lemma NumberEntry(fmt: Formats, v: Value)
    requires v == Table(map["a" := Array([Int(1)])])
    ensures Line(fmt, v, "a", "", -1) == "a = [1]\n"
  {
    hide Text;
    NumberItem(fmt);
  }

  lemma OneLine(fmt: Formats, v: Value)
    requires v == Table(map["a" := Array([Int(1)])])
    ensures Lines(fmt, v, ["a"], 0, "", -1) == Line(fmt, v, "a", "", -1)
    ensures Sections(fmt, v, ["a"], 0, "", -1) == ""
  {
    hide Line, Text;
  }
}
