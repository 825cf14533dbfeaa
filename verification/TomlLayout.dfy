/** How printed documents look: which lines there are, and how far in they start. */
module TomlLayout {
  import opened TomlText
  import opened TomlValue
  import opened TomlWriter

  lemma OnlyKey(kids: map<string, Value>, k: string)
    requires kids.Keys == {k}
    ensures SortedKeys(kids.Keys) == [k]
  {
    assert kids.Keys - {k} == {};
  }

  /** A table with one entry: its line, or its header with what is below. */
  lemma {:induction false} OneEntryText(fmt: Formats, k: string, v: Value, prefix: string, indent: int)
    ensures var t := Table(map[k := v]);
      Text(fmt, t, prefix, indent)
      == if IsSection(v) then Section(fmt, t, k, prefix, indent) else Line(fmt, t, k, prefix, indent)
  {
    hide Line, Section;
    var t := Table(map[k := v]);
    OnlyKey(t.kids, k);
    var ks := [k];
    assert Lines(fmt, t, ks, 1, prefix, indent) == "" && Sections(fmt, t, ks, 1, prefix, indent) == "";
    var line, section := Line(fmt, t, k, prefix, indent), Section(fmt, t, k, prefix, indent);
    assert Lines(fmt, t, ks, 0, prefix, indent) == line + "" == line;
    assert Sections(fmt, t, ks, 0, prefix, indent) == section + "" == section;
    OneIsEmpty(fmt, t, k, prefix, indent);
    assert line + "" == line && "" + section == section;
  }

  lemma OneIsEmpty(fmt: Formats, t: Value, k: string, prefix: string, indent: int)
    requires t.Table? && k in t.kids
    ensures if IsSection(t.kids[k]) then Line(fmt, t, k, prefix, indent) == ""
            else Section(fmt, t, k, prefix, indent) == ""
  {
  }

  lemma {:induction false} LineText(fmt: Formats, k: string, b: bool, prefix: string, indent: int)
    ensures Text(fmt, Table(map[k := Bool(b)]), prefix, indent)
            == Spaces(indent) + EscapeKey(k) + " = " + (if b then "true" else "false") + "\n"
  {
    hide EscapeKey, Spaces;
    OneEntryText(fmt, k, Bool(b), prefix, indent);
  }

  /** The lines of a table are one blank further in than its header if anything is indented, and
      the header has an empty line before it. */
  lemma {:induction false} TableLayout(fmt: Formats, k: string, j: string, b: bool, indent: int)
    ensures Text(fmt, Table(map[k := Table(map[j := Bool(b)])]), "", indent)
            == "\n" + Spaces(indent) + "[" + EscapeKey(k) + "]\n"
               + (Spaces(if indent >= 0 then indent + 1 else -1) + EscapeKey(j) + " = "
                  + (if b then "true" else "false") + "\n")
  {
    var inner := Table(map[j := Bool(b)]);
    assert KeyUnder("", k) == EscapeKey(k) by { hide EscapeKey; }
    assert indent < 0 ==> Spaces(indent) == Spaces(-1) == "";
    hide Text, EscapeKey, Spaces, KeyUnder, Section;
    OneEntryText(fmt, k, inner, "", indent);
    LineText(fmt, j, b, KeyUnder("", k), Deeper(indent));
    HeaderText(fmt, Table(map[k := inner]), k, indent);
  }

  lemma HeaderText(fmt: Formats, t: Value, k: string, indent: int)
    requires t.Table? && k in t.kids && t.kids[k].Table?
    ensures Section(fmt, t, k, "", indent)
            == "\n" + Spaces(indent) + "[" + KeyUnder("", k) + "]\n"
               + Text(fmt, t.kids[k], KeyUnder("", k), Deeper(indent))
  {
    hide Text, KeyUnder, Spaces;
  }

  /** The same for the tables of a group, each of which has a header of its own. */
  lemma {:induction false} GroupLayout(fmt: Formats, k: string, n: nat, indent: int)
    requires n > 0
    ensures var v := Array(seq(n, _ => EMPTY_TABLE));
      Text(fmt, Table(map[k := v]), "", indent) == Repeated("\n" + Spaces(indent) + "[[" + EscapeKey(k) + "]]\n", n)
  {
    hide EscapeKey;
    var v := Array(seq(n, _ => EMPTY_TABLE));
    var key := KeyUnder("", k);
    assert key == EscapeKey(k);
    OneEntryText(fmt, k, v, "", indent);
    EmptyGroups(fmt, v.elems, key, indent);
  }

  function Repeated(s: string, n: nat): string { if n == 0 then "" else s + Repeated(s, n - 1) }

  lemma {:induction false} EmptyGroups(fmt: Formats, es: seq<Value>, key: string, indent: int)
    requires forall i :: 0 <= i < |es| ==> es[i] == EMPTY_TABLE
    ensures Groups(fmt, es, key, indent) == Repeated("\n" + Spaces(indent) + "[[" + key + "]]\n", |es|)
    decreases |es|
  {
    if es != [] {
      EmptyGroups(fmt, es[1..], key, indent);
      EmptyText(fmt, key, Deeper(indent));
      var head := "\n" + Spaces(indent) + "[[" + key + "]]\n";
      assert head + "" == head;
    }
  }

  lemma EmptyText(fmt: Formats, prefix: string, indent: int)
    ensures Text(fmt, EMPTY_TABLE, prefix, indent) == ""
  {
    assert EMPTY_TABLE.kids.Keys == {};
  }
}
