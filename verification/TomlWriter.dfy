/** Printing values. */
module TomlWriter {
  import opened TomlText
  import opened TomlValue

  /** How the library prints floating-point numbers and times. */
  datatype Formats = Formats(double: real -> string, time: int -> string)

  function Spaces(num: int): (s: string)
    ensures All(s, IsBlank) && |s| == if num <= 0 then 0 else num
    ensures forall i :: 0 <= i < |s| ==> s[i] == ' '
  {
    if num <= 0 then "" else " " + Spaces(num - 1)
  }

  /** Entries of a table that get a header of their own. */
  predicate IsSection(v: Value) {
    v.Table? || (v.Array? && v.elems != [] && v.elems[0].Table?)
  }

  function Deeper(indent: int): int { if indent >= 0 then indent + 1 else indent }

  function KeyUnder(prefix: string, k: string): string {
    (if prefix == "" then "" else prefix + ".") + EscapeKey(k)
  }

  /** The text of a value; a null value has none and makes the writer throw. */
  function Text(fmt: Formats, v: Value, prefix: string, indent: int): string
    decreases v, 3
  {
    match v
    case Null => ""
    case Bool(b) => if b then "true" else "false"
    case Int(i) => IntText(i)
    case Double(d) => fmt.double(d)
    case Str(s) => Quoted(s)
    case Time(t) => fmt.time(t)
    case Array(es) => "[" + Items(fmt, es, prefix, true) + "]"
    case Table(kids) =>
      var ks := SortedKeys(kids.Keys);
      Lines(fmt, v, ks, 0, prefix, indent) + Sections(fmt, v, ks, 0, prefix, indent)
  }

  function Items(fmt: Formats, es: seq<Value>, prefix: string, first: bool): string
    decreases es
  {
    if es == [] then ""
    else (if first then "" else ", ") + Text(fmt, es[0], prefix, -1) + Items(fmt, es[1..], prefix, false)
  }

  /** The line of an entry, nothing for an entry with a header. */
  function Line(fmt: Formats, v: Value, k: string, prefix: string, indent: int): string
    requires v.Table? && k in v.kids
    decreases v, 0
  {
    if IsSection(v.kids[k]) then ""
    else Spaces(indent) + EscapeKey(k) + " = " + Text(fmt, v.kids[k], prefix, Deeper(indent)) + "\n"
  }

  function Lines(fmt: Formats, v: Value, ks: seq<string>, i: nat, prefix: string, indent: int): string
    requires v.Table? && i <= |ks| && forall k :: k in ks ==> k in v.kids
    decreases v, 1, |ks| - i
  {
    if i == |ks| then ""
    else Line(fmt, v, ks[i], prefix, indent) + Lines(fmt, v, ks, i + 1, prefix, indent)
  }

  /** One header and the table below it for each element of an array of tables. */
  function Groups(fmt: Formats, es: seq<Value>, key: string, indent: int): string
    decreases es
  {
    if es == [] then ""
    else "\n" + Spaces(indent) + "[[" + key + "]]\n" + Text(fmt, es[0], key, Deeper(indent))
         + Groups(fmt, es[1..], key, indent)
  }

  /** The headers of an entry and what is below them, nothing for an entry with a line. */
  function Section(fmt: Formats, v: Value, k: string, prefix: string, indent: int): string
    requires v.Table? && k in v.kids
    decreases v, 0
  {
    var key := KeyUnder(prefix, k);
    if !IsSection(v.kids[k]) then ""
    else if v.kids[k].Table? then
      "\n" + Spaces(indent) + "[" + key + "]\n" + Text(fmt, v.kids[k], key, Deeper(indent))
    else Groups(fmt, v.kids[k].elems, key, indent)
  }

  function Sections(fmt: Formats, v: Value, ks: seq<string>, i: nat, prefix: string, indent: int): string
    requires v.Table? && i <= |ks| && forall k :: k in ks ==> k in v.kids
    decreases v, 1, |ks| - i
  {
    if i == |ks| then ""
    else Section(fmt, v, ks[i], prefix, indent) + Sections(fmt, v, ks, i + 1, prefix, indent)
  }

  predicate ContainsNull(v: Value) {
    || v.Null?
    || (v.Array? && exists i :: 0 <= i < |v.elems| && ContainsNull(v.elems[i]))
    || (v.Table? && exists k :: k in v.kids && ContainsNull(v.kids[k]))
  }

  lemma {:induction false} ItemsNext(fmt: Formats, es: seq<Value>, i: nat, prefix: string, os: string)
    requires i < |es|
    ensures os + Items(fmt, es[i..], prefix, i == 0)
            == os + (if i > 0 then ", " else "") + Text(fmt, es[i], prefix, -1) + Items(fmt, es[i + 1..], prefix, false)
  {
    hide Text;
    var comma := if i > 0 then ", " else "";
    var text, rest := Text(fmt, es[i], prefix, -1), Items(fmt, es[i + 1..], prefix, false);
    assert es[i..][0] == es[i] && es[i..][1..] == es[i + 1..];
    assert os + (comma + text + rest) == os + comma + text + rest;
  }

  lemma ItemsEnd(fmt: Formats, es: seq<Value>, prefix: string, first: bool)
    ensures Items(fmt, es[|es|..], prefix, first) == ""
  {
  }

  class Writer {
    const fmt: Formats
    var os: string

    constructor (fmt: Formats)
      ensures this.fmt == fmt && os == ""
    {
      this.fmt := fmt;
      os := "";
    }

    /** Prints a value; throws at a null value. */
    method Write(v: Value, prefix: string, indent: int) returns (ok: bool)
      modifies this
      ensures ok <==> !ContainsNull(v)
      ensures ok ==> os == old(os) + Text(fmt, v, prefix, indent)
      decreases v, 3
    {
      hide Line, Lines, Section, Sections, Items, Groups, IntText, EscapeString;
      match v
      case Null => return false;
      case Bool(b) => os := os + if b then "true" else "false"; return true;
      case Int(i) => os := os + IntText(i); return true;
      case Double(d) => os := os + fmt.double(d); return true;
      case Str(s) =>
        var escaped := Escape(s);
        os := os + ("\"" + escaped + "\"");
        return true;
      case Time(t) => os := os + fmt.time(t); return true;
      case Array(es) =>
        ok := WriteArray(v, prefix);
      case Table(kids) =>
        var ks := SortedKeys(kids.Keys);
        ghost var before := os;
        ok := WriteLines(v, ks, prefix, indent);
        if ok {
          ok := WriteSections(v, ks, prefix, indent);
          assert ok ==> os == before + (Lines(fmt, v, ks, 0, prefix, indent) + Sections(fmt, v, ks, 0, prefix, indent));
        }
    }

    method WriteArray(v: Value, prefix: string) returns (ok: bool)
      requires v.Array?
      modifies this
      ensures ok <==> !ContainsNull(v)
      ensures ok ==> os == old(os) + ("[" + Items(fmt, v.elems, prefix, true) + "]")
      decreases v, 2
    {
      hide Text, Items;
      ghost var items := Items(fmt, v.elems, prefix, true);
      ghost var before := os + "[";
      os := os + "[";
      assert v.elems[0..] == v.elems;
      for i := 0 to |v.elems|
        invariant os + Items(fmt, v.elems[i..], prefix, i == 0) == before + items
        invariant forall j :: 0 <= j < i ==> !ContainsNull(v.elems[j])
      {
        ItemsNext(fmt, v.elems, i, prefix, os);
        if i > 0 {
          os := os + ", ";
        }
        var done := Write(v.elems[i], prefix, -1);
        if !done {
          return false;
        }
      }
      ItemsEnd(fmt, v.elems, prefix, |v.elems| == 0);
      assert os == before + items;
      os := os + "]";
      assert before + items + "]" == old(os) + ("[" + items + "]");
      ok := true;
    }

    method WriteLines(v: Value, ks: seq<string>, prefix: string, indent: int) returns (ok: bool)
      requires v.Table? && forall k :: k in ks ==> k in v.kids
      modifies this
      ensures ok <==> forall j :: 0 <= j < |ks| ==> IsSection(v.kids[ks[j]]) || !ContainsNull(v.kids[ks[j]])
      ensures ok ==> os == old(os) + Lines(fmt, v, ks, 0, prefix, indent)
      decreases v, 2
    {
      hide Line, Section, Sections, Text, ContainsNull, IsSection;
      ghost var goal := os + Lines(fmt, v, ks, 0, prefix, indent);
      for i := 0 to |ks|
        invariant os + Lines(fmt, v, ks, i, prefix, indent) == goal
        invariant forall j :: 0 <= j < i ==> IsSection(v.kids[ks[j]]) || !ContainsNull(v.kids[ks[j]])
      {
        var done := WriteLine(v, ks[i], prefix, indent);
        if !done {
          return false;
        }
      }
      ok := true;
    }

    method WriteLine(v: Value, k: string, prefix: string, indent: int) returns (ok: bool)
      requires v.Table? && k in v.kids
      modifies this
      ensures ok <==> IsSection(v.kids[k]) || !ContainsNull(v.kids[k])
      ensures ok ==> os == old(os) + Line(fmt, v, k, prefix, indent)
      decreases v, 1
    {
      if IsSection(v.kids[k]) {
        return true;
      }
      var escaped := WriteKey(k);
      os := os + (Spaces(indent) + escaped + " = ");
      ok := Write(v.kids[k], prefix, Deeper(indent));
      os := os + "\n";
    }

    method WriteSections(v: Value, ks: seq<string>, prefix: string, indent: int) returns (ok: bool)
      requires v.Table? && forall k :: k in ks ==> k in v.kids
      modifies this
      ensures ok <==> forall j :: 0 <= j < |ks| ==> !IsSection(v.kids[ks[j]]) || !ContainsNull(v.kids[ks[j]])
      ensures ok ==> os == old(os) + Sections(fmt, v, ks, 0, prefix, indent)
      decreases v, 2
    {
      hide Line, Section, Lines, Text, ContainsNull, IsSection;
      ghost var goal := os + Sections(fmt, v, ks, 0, prefix, indent);
      for i := 0 to |ks|
        invariant os + Sections(fmt, v, ks, i, prefix, indent) == goal
        invariant forall j :: 0 <= j < i ==> !IsSection(v.kids[ks[j]]) || !ContainsNull(v.kids[ks[j]])
      {
        var done := WriteSection(v, ks[i], prefix, indent);
        if !done {
          return false;
        }
      }
      ok := true;
    }

    method WriteSection(v: Value, k: string, prefix: string, indent: int) returns (ok: bool)
      requires v.Table? && k in v.kids
      modifies this
      ensures ok <==> !IsSection(v.kids[k]) || !ContainsNull(v.kids[k])
      ensures ok ==> os == old(os) + Section(fmt, v, k, prefix, indent)
      decreases v, 1
    {
      if !IsSection(v.kids[k]) {
        return true;
      }
      var key := prefix;
      if prefix != "" {
        key := key + ".";
      }
      var escaped := WriteKey(k);
      key := key + escaped;
      if v.kids[k].Table? {
        os := os + ("\n" + Spaces(indent) + "[" + key + "]\n");
        ok := Write(v.kids[k], key, Deeper(indent));
      } else {
        ok := WriteGroups(v.kids[k], key, indent);
      }
    }

    method WriteGroups(v: Value, key: string, indent: int) returns (ok: bool)
      requires v.Array?
      modifies this
      ensures ok <==> !ContainsNull(v)
      ensures ok ==> os == old(os) + Groups(fmt, v.elems, key, indent)
      decreases v, 2
    {
      hide Text;
      ghost var goal := os + Groups(fmt, v.elems, key, indent);
      for i := 0 to |v.elems|
        invariant os + Groups(fmt, v.elems[i..], key, indent) == goal
        invariant forall j :: 0 <= j < i ==> !ContainsNull(v.elems[j])
      {
        ghost var before := os;
        assert v.elems[i..][1..] == v.elems[i + 1..];
        os := os + ("\n" + Spaces(indent) + "[[" + key + "]]\n");
        var done := Write(v.elems[i], key, Deeper(indent));
        if !done {
          return false;
        }
      }
      assert v.elems[|v.elems|..] == [];
      ok := true;
    }
  }
}
