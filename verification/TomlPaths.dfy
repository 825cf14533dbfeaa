/** Tables addressed by dotted keys: finding, setting, erasing and merging. */
module TomlPaths {
  import opened Basics
  import opened TomlText
  import opened TomlLexer
  import opened TomlEscapes
  import opened TomlValue

  // ---------- dotted keys

  /** The keys a text names when it is read as a dotted path, None when it is not one. */
  function PathOf(s: string): (ks: Option<seq<string>>)
    ensures ks.Some? ==> ks.value != []
    decreases |s|
  {
    var l := NextToken(KeyMode, s);
    if !l.token.IsKey() then None else
      var d := NextToken(KeyMode, l.rest);
      if d.token.Dot? then
        match PathOf(d.rest)
        case None => None
        case Some(ks) => Some([l.token.text] + ks)
      else if d.token.EndOfFile? then Some([l.token.text])
      else None
  }

  function Steps(ks: seq<string>): (p: Path)
    ensures |p| == |ks| && forall i :: 0 <= i < |ks| ==> p[i] == Child(ks[i])
  {
    if ks == [] then [] else [Child(ks[0])] + Steps(ks[1..])
  }

  // ---------- find

  /** The place of the value a dotted key names in a table. */
  function FindPath(v: Value, key: string): (p: Option<Path>)
    ensures p.Some? ==> At(v, p.value).Some? && p.value != [] && p.value[0].Child?
  {
    match PathOf(key)
    case None => None
    case Some(ks) => if At(v, Steps(ks)).Some? then Some(Steps(ks)) else None
  }

  function Find(v: Value, key: string): Option<Value> {
    match FindPath(v, key)
    case None => None
    case Some(p) => At(v, p)
  }

  predicate Has(v: Value, key: string) { Find(v, key).Some? }

  // ---------- set and erase, as they walk along the text of the key

  /** The tree after setting a key, and whether that succeeded: missing tables are created
      on the way even when the key turns out not to be a path. */
  function SetAlong(v: Value, s: string, w: Value): (r: (Value, bool))
    requires v.Table?
    ensures r.0.Table?
    decreases |s|
  {
    var l := NextToken(KeyMode, s);
    if !l.token.IsKey() then (v, false) else
      var k := l.token.text;
      var d := NextToken(KeyMode, l.rest);
      if d.token.Dot? then
        if k in v.kids && !v.kids[k].Table? then (v, false) else
          var (c, ok) := SetAlong(if k in v.kids then v.kids[k] else EMPTY_TABLE, d.rest, w);
          (Table(v.kids[k := c]), ok)
      else if d.token.EndOfFile? then (Table(v.kids[k := w]), true)
      else (v, false)
  }

  function Set(v: Value, key: string, w: Value): (Value, bool) {
    if v.Null? then SetAlong(EMPTY_TABLE, key, w)
    else if v.Table? then SetAlong(v, key, w)
    else (v, false)
  }

  function EraseAlong(v: Value, s: string): (r: (Value, bool))
    requires v.Table?
    ensures r.0.Table?
    decreases |s|
  {
    var l := NextToken(KeyMode, s);
    if !l.token.IsKey() then (v, false) else
      var k := l.token.text;
      var d := NextToken(KeyMode, l.rest);
      if d.token.Dot? then
        if k in v.kids && v.kids[k].Table? then
          var (c, ok) := EraseAlong(v.kids[k], d.rest);
          (Table(v.kids[k := c]), ok)
        else (v, false)
      else if d.token.EndOfFile? then (Table(v.kids - {k}), k in v.kids)
      else (v, false)
  }

  function Erase(v: Value, key: string): (Value, bool) {
    if v.Table? then EraseAlong(v, key) else (v, false)
  }

  // ---------- laws of the dictionary

  /** No proper prefix of the path is bound to anything but a table. */
  predicate Open(v: Value, ks: seq<string>)
    requires v.Table? && ks != []
    decreases |ks|
  {
    |ks| == 1 || ks[0] !in v.kids || (v.kids[ks[0]].Table? && Open(v.kids[ks[0]], ks[1..]))
  }

  function Store(v: Value, ks: seq<string>, w: Value): Value
    requires v.Table? && ks != []
    decreases |ks|
  {
    if |ks| == 1 then Table(v.kids[ks[0] := w]) else
      var child := if ks[0] in v.kids && v.kids[ks[0]].Table? then v.kids[ks[0]] else EMPTY_TABLE;
      Table(v.kids[ks[0] := Store(child, ks[1..], w)])
  }

  lemma {:induction false} OpenEmpty(ks: seq<string>)
    requires ks != []
    ensures Open(EMPTY_TABLE, ks)
  {
  }

  /** Setting succeeds exactly when the key is a path and no proper prefix of it is bound to
      a value that is not a table. */
  lemma {:induction false} SetSucceeds(v: Value, s: string, w: Value)
    requires v.Table?
    ensures SetAlong(v, s, w).1 <==> PathOf(s).Some? && Open(v, PathOf(s).value)
    ensures SetAlong(v, s, w).1 ==> SetAlong(v, s, w).0 == Store(v, PathOf(s).value, w)
    decreases |s|
  {
    var l := NextToken(KeyMode, s);
    if l.token.IsKey() {
      var k := l.token.text;
      var d := NextToken(KeyMode, l.rest);
      if d.token.Dot? && !(k in v.kids && !v.kids[k].Table?) {
        var child := if k in v.kids then v.kids[k] else EMPTY_TABLE;
        SetSucceeds(child, d.rest, w);
        if PathOf(d.rest).Some? {
          var ks := PathOf(s).value;
          assert ks[1..] == PathOf(d.rest).value;
          OpenEmpty(ks[1..]);
        }
      }
    }
  }

  lemma {:induction false} LookupStored(v: Value, ks: seq<string>, w: Value)
    requires v.Table? && ks != []
    ensures At(Store(v, ks, w), Steps(ks)) == Some(w)
    decreases |ks|
  {
    assert Steps(ks)[1..] == Steps(ks[1..]);
    if |ks| > 1 {
      LookupStored(if ks[0] in v.kids && v.kids[ks[0]].Table? then v.kids[ks[0]] else EMPTY_TABLE, ks[1..], w);
    }
  }

  /** Neither path is a prefix of the other. */
  predicate Diverge(p: seq<string>, q: seq<string>) { !(p <= q) && !(q <= p) }

  lemma {:induction false} DivergeTail(p: seq<string>, q: seq<string>)
    requires Diverge(p, q) && p[0] == q[0]
    ensures Diverge(p[1..], q[1..]) && |p| > 1 && |q| > 1
  {
    assert p == [p[0]] + p[1..] && q == [q[0]] + q[1..];
  }

  lemma {:induction false} OtherUnchanged(v: Value, ks: seq<string>, w: Value, q: seq<string>)
    requires v.Table? && ks != [] && Open(v, ks) && Diverge(ks, q)
    ensures At(Store(v, ks, w), Steps(q)) == At(v, Steps(q))
    decreases |ks|
  {
    assert q != [];
    assert Steps(q)[0] == Child(q[0]) && Steps(q)[1..] == Steps(q[1..]);
    if q[0] == ks[0] {
      DivergeTail(ks, q);
      assert Steps(q[1..])[0] == Child(q[1]);
      hide Steps, Diverge;
      var child := if ks[0] in v.kids then v.kids[ks[0]] else EMPTY_TABLE;
      OpenEmpty(ks[1..]);
      OtherUnchanged(child, ks[1..], w, q[1..]);
    }
  }

  /** After a successful set the key names the value, and every path that is neither a prefix
      nor an extension of it leads where it led before. */
  lemma {:induction false} SetThenFind(v: Value, key: string, w: Value, other: string)
    requires (v.Table? || v.Null?) && Set(v, key, w).1
    ensures Find(Set(v, key, w).0, key) == Some(w)
    ensures PathOf(other).Some? && Diverge(PathOf(key).value, PathOf(other).value)
            ==> Find(Set(v, key, w).0, other) == Find(v, other)
  {
    var t := if v.Null? then EMPTY_TABLE else v;
    SetSucceeds(t, key, w);
    LookupStored(t, PathOf(key).value, w);
    if PathOf(other).Some? && Diverge(PathOf(key).value, PathOf(other).value) {
      var q := PathOf(other).value;
      OtherUnchanged(t, PathOf(key).value, w, q);
      assert Steps(q)[0] == Child(q[0]);
    }
  }

  function Remove(v: Value, ks: seq<string>): Value
    requires v.Table? && ks != [] && At(v, Steps(ks)).Some?
    decreases |ks|
  {
    if |ks| == 1 then Table(v.kids - {ks[0]}) else
      RemoveStep(v, ks);
      Table(v.kids[ks[0] := Remove(v.kids[ks[0]], ks[1..])])
  }

  lemma {:induction false} RemoveStep(v: Value, ks: seq<string>)
    requires v.Table? && |ks| > 1 && At(v, Steps(ks)).Some?
    ensures ks[0] in v.kids && v.kids[ks[0]].Table? && At(v.kids[ks[0]], Steps(ks[1..])).Some?
  {
    assert Steps(ks)[1..] == Steps(ks[1..]);
    assert Steps(ks[1..])[0] == Child(ks[1]);
  }

  lemma {:induction false} LookupStep(v: Value, k: string, tail: seq<string>)
    ensures At(v, Steps([k] + tail)) == if v.Table? && k in v.kids then At(v.kids[k], Steps(tail)) else None
    ensures tail != [] && At(v, Steps([k] + tail)).Some? ==> v.kids[k].Table?
  {
    var p := Steps([k] + tail);
    assert p[0] == Child(k) && p[1..] == Steps(tail);
    assert tail != [] ==> Steps(tail)[0] == Child(tail[0]);
  }

  lemma {:induction false} EraseRemoves(v: Value, s: string)
    requires v.Table?
    ensures EraseAlong(v, s).1 <==> Has(v, s)
    ensures EraseAlong(v, s).0 == if Has(v, s) then Remove(v, PathOf(s).value) else v
    decreases |s|
  {
    var l := NextToken(KeyMode, s);
    if l.token.IsKey() {
      var k := l.token.text;
      var d := NextToken(KeyMode, l.rest);
      if d.token.Dot? {
        if PathOf(d.rest).Some? {
          LookupStep(v, k, PathOf(d.rest).value);
          assert PathOf(s).value[1..] == PathOf(d.rest).value;
        }
        if k in v.kids && v.kids[k].Table? {
          EraseRemoves(v.kids[k], d.rest);
        }
      } else if d.token.EndOfFile? {
        LookupStep(v, k, []);
        assert [k] + [] == [k];
      }
    }
  }

  lemma {:induction false} RemovedIsGone(v: Value, ks: seq<string>, q: seq<string>)
    requires v.Table? && ks != [] && At(v, Steps(ks)).Some?
    ensures At(Remove(v, ks), Steps(ks)) == None
    ensures Diverge(ks, q) ==> At(Remove(v, ks), Steps(q)) == At(v, Steps(q))
    decreases |ks|
  {
    assert Steps(ks)[1..] == Steps(ks[1..]);
    assert q != [] ==> Steps(q)[1..] == Steps(q[1..]);
    if |ks| > 1 {
      RemoveStep(v, ks);
      if Diverge(ks, q) && q[0] == ks[0] {
        DivergeTail(ks, q);
      }
      RemovedIsGone(v.kids[ks[0]], ks[1..], if q == [] then [] else q[1..]);
    } else if Diverge(ks, q) && q[0] == ks[0] {
      DivergeTail(ks, q);
    }
  }

  /** Erasing succeeds exactly when the key was there; afterwards it is not, and every path
      that is neither a prefix nor an extension of it leads where it led before. */
  lemma {:induction false} EraseThenFind(v: Value, key: string, other: string)
    ensures Erase(v, key).1 <==> Has(v, key)
    ensures Find(Erase(v, key).0, key) == None
    ensures PathOf(key).Some? && PathOf(other).Some? && Diverge(PathOf(key).value, PathOf(other).value)
            ==> Find(Erase(v, key).0, other) == Find(v, other)
  {
    if v.Table? {
      EraseRemoves(v, key);
      if Has(v, key) {
        RemovedIsGone(v, PathOf(key).value, if PathOf(other).Some? then PathOf(other).value else []);
      }
    } else if PathOf(key).Some? {
      assert Steps(PathOf(key).value)[0] == Child(PathOf(key).value[0]);
    }
  }

  // ---------- dotted keys built from escaped keys

  function JoinKeys(ks: seq<string>): string {
    if ks == [] then ""
    else if |ks| == 1 then EscapeKey(ks[0])
    else EscapeKey(ks[0]) + "." + JoinKeys(ks[1..])
  }

  lemma {:induction false} DotReads(s: string)
    ensures NextToken(KeyMode, "." + s) == Lexed(Dot, s)
  {
    assert ("." + s)[1..] == s;
  }

  lemma {:induction false} PathStep(k: string, s: string)
    requires k != "" && PathOf(s).Some?
    ensures PathOf(EscapeKey(k) + ("." + s)) == Some([k] + PathOf(s).value)
  {
    KeyReads(k, "." + s);
    DotReads(s);
  }

  lemma {:induction false} PathLast(k: string)
    requires k != ""
    ensures PathOf(EscapeKey(k)) == Some([k])
  {
    KeyReads(k, "");
    assert EscapeKey(k) + "" == EscapeKey(k);
  }

  /** Escaped keys joined by dots name exactly those keys. */
  lemma {:induction false} JoinedKeysRead(ks: seq<string>)
    requires ks != [] && forall i :: 0 <= i < |ks| ==> ks[i] != ""
    ensures PathOf(JoinKeys(ks)) == Some(ks)
  {
    if |ks| == 1 {
      PathLast(ks[0]);
      assert ks == [ks[0]];
    } else {
      JoinedKeysRead(ks[1..]);
      PathStep(ks[0], JoinKeys(ks[1..]));
      assert JoinKeys(ks) == EscapeKey(ks[0]) + ("." + JoinKeys(ks[1..]));
      assert ks == [ks[0]] + ks[1..];
    }
  }

  lemma {:induction false} EscapeShrinks(s: string)
    ensures Escaped(s).0.Some? ==> |Escaped(s).0.value| + |Escaped(s).1| <= |s|
  {
  }

  lemma {:induction false} QuotedShrinks(s: string, multiline: bool, got: string)
    ensures var l := DoubleQuoted(s, multiline, got); l.token.IsKey() ==> |l.token.text| + |l.rest| <= |got| + |s|
    decreases |s|
  {
    if s == "" {
    } else if s[0] == '\\' {
      EscapeShrinks(s[1..]);
      match Escaped(s[1..])
      case (None, rest) =>
      case (Some(c), rest) => QuotedShrinks(rest, multiline, got + c);
    } else if s[0] == '\"' {
      if multiline {
        if |s| > 1 && s[1] == '\"' {
          if |s| == 2 || s[2] != '\"' {
            QuotedShrinks(s[2..], multiline, got + "\"\"");
          }
        } else {
          QuotedShrinks(s[1..], multiline, got + "\"");
        }
      }
    } else {
      QuotedShrinks(s[1..], multiline, got + [s[0]]);
    }
  }

  lemma {:induction false} NoKeyOverLines(s: string, got: string)
    ensures !SingleQuotedMultiline(s, got).token.IsKey()
    decreases |s|
  {
    if s == "" {
    } else if s[0] == '\'' {
      if |s| > 1 && s[1] == '\'' {
        if |s| == 2 || s[2] != '\'' {
          NoKeyOverLines(s[2..], got + "\'\'");
        }
      } else {
        NoKeyOverLines(s[1..], got + "\'");
      }
    } else {
      NoKeyOverLines(s[1..], got + [s[0]]);
    }
  }

  lemma {:induction false} StringShrinks(s: string)
    ensures DoubleQuote(s).token.IsKey() ==> |DoubleQuote(s).token.text| + |DoubleQuote(s).rest| < |s|
    ensures SingleQuote(s).token.IsKey() ==> |SingleQuote(s).token.text| + |SingleQuote(s).rest| < |s|
  {
    if |s| > 2 {
      QuotedShrinks(SkipOpening(s[3..]), true, "");
      NoKeyOverLines(SkipNewline(s[3..]), "");
    }
    if s != "" {
      QuotedShrinks(s[1..], false, "");
    }
  }

  lemma {:induction false} KeyShrinks(s: string)
    ensures var l := NextToken(KeyMode, s);
      l.token.IsKey() ==> |l.token.text| + |l.rest| < |s| || l.token.text + l.rest == s
    decreases |s|
  {
    hide DoubleQuote, SingleQuote;
    StringShrinks(s);
    if s == "" {
    } else if s[0] == ' ' || s[0] == '\t' || s[0] == '\r' {
      KeyShrinks(s[1..]);
    } else if s[0] == '#' {
      KeyShrinks(SkipLine(s));
    }
  }

  /** A key that reads as another path than itself starts with a shorter key. */
  lemma {:induction false} OtherPath(k: string)
    ensures PathOf(k).Some? && PathOf(k) != Some([k]) ==> |PathOf(k).value[0]| < |k|
  {
    KeyShrinks(k);
    var l := NextToken(KeyMode, k);
    if l.token.IsKey() && |l.token.text| == |k| {
      assert l.rest == "" && l.token.text + l.rest == l.token.text;
    }
  }

  lemma SpacedKey()
    ensures PathOf("x y") == None
  {
    var s := "x y";
    assert Run(s, IsKeyChar) == 1 by {
      assert s[1..] == " y";
    }
    assert NextToken(KeyMode, s) == Lexed(Ident("x"), " y") by {
      assert s[..1] == "x" && s[1..] == " y";
    }
    assert NextToken(KeyMode, " y") == NextToken(KeyMode, "y") by {
      assert " y"[1..] == "y";
    }
    assert Run("y", IsKeyChar) == 1;
  }

  lemma BareKeyPath(k: string)
    requires IsBare(k)
    ensures PathOf(k) == Some([k])
  {
    BareKeyReads(k, "");
    assert k + "" == k;
  }
}
