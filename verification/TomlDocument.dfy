/** A tree that is changed in place through dotted keys. */
module TomlDocument {
  import opened Basics
  import opened TomlLexer
  import opened TomlValue
  import opened TomlPaths
  import opened TomlMerge

  /** Keys that were read before the rest of a path. */
  function Prefixed(ks: seq<string>, tail: Option<seq<string>>): Option<seq<string>> {
    if tail.Some? then Some(ks + tail.value) else None
  }

  lemma {:induction false} StepsAppend(a: seq<string>, b: seq<string>)
    ensures Steps(a + b) == Steps(a) + Steps(b)
  {
    if a == [] {
      assert a + b == b;
    } else {
      assert (a + b)[1..] == a[1..] + b;
      StepsAppend(a[1..], b);
    }
  }

  /** A path that ends, or goes on, at child k of the value at `done`. */
  lemma {:induction false} AtChild(v: Value, done: seq<string>, k: string, tail: seq<string>)
    requires At(v, Steps(done)).Some?
    ensures At(v, Steps(done + [k])) == StepTo(At(v, Steps(done)).value, Child(k))
    ensures tail != [] && !(At(v, Steps(done + [k])).Some? && At(v, Steps(done + [k])).value.Table?)
            ==> At(v, Steps(done + [k] + tail)) == None
  {
    StepsAppend(done, [k]);
    AtAppend(v, Steps(done), Steps([k]));
    assert Steps([k]) == [Child(k)];
    if tail != [] {
      StepsAppend(done + [k], tail);
      AtAppend(v, Steps(done + [k]), Steps(tail));
      assert Steps(tail)[0] == Child(tail[0]);
    }
  }

  /** A dot after k: the path goes on below child k, and leads nowhere when that is no table. */
  lemma {:induction false} FindDot(v: Value, done: seq<string>, k: string,
                                   tail: Option<seq<string>>, path: Option<seq<string>>)
    requires At(v, Steps(done)).Some? && (tail.Some? ==> tail.value != [])
    requires path == Prefixed(done, Prefixed([k], tail))
    ensures path == Prefixed(done + [k], tail)
    ensures At(v, Steps(done + [k])) == StepTo(At(v, Steps(done)).value, Child(k))
    ensures path.Some? && !(At(v, Steps(done + [k])).Some? && At(v, Steps(done + [k])).value.Table?)
            ==> At(v, Steps(path.value)) == None
  {
    AtChild(v, done, k, if tail.Some? then tail.value else []);
    assert tail.Some? ==> done + ([k] + tail.value) == done + [k] + tail.value;
  }

  lemma {:induction false} FindInOther(v: Value, key: string)
    requires !v.Table?
    ensures FindPath(v, key) == None
  {
    if PathOf(key).Some? {
      assert Steps(PathOf(key).value)[0] == Child(PathOf(key).value[0]);
    }
  }

  /** How a path goes on after one key. */
  lemma {:induction false} PathStepOf(s: string, done: seq<string>)
    ensures var l := NextToken(KeyMode, s); var d := NextToken(KeyMode, l.rest);
      Prefixed(done, PathOf(s)) ==
      if !l.token.IsKey() then None
      else if d.token.Dot? then Prefixed(done, Prefixed([l.token.text], PathOf(d.rest)))
      else if d.token.EndOfFile? then Some(done + [l.token.text])
      else None
  {
    hide NextToken;
  }

  /** Where the value a dotted key names is. */
  method FindValue(v: Value, key: string) returns (p: Option<Path>)
    ensures p == FindPath(v, key)
  {
    if !v.Table? {
      FindInOther(v, key);
      return None;
    }
    var lexer := new Lexer(key);
    var current, done: seq<string> := v, [];
    assert lexer.Rest() == key;
    assert PathOf(key).Some? ==> [] + PathOf(key).value == PathOf(key).value;
    assert At(v, Steps([])) == Some(v);
    hide PathOf, NextToken, Steps, At;
    while true
      invariant lexer.Valid() && fresh(lexer)
      invariant current.Table? && At(v, Steps(done)) == Some(current)
      invariant PathOf(key) == Prefixed(done, PathOf(lexer.Rest()))
      decreases |lexer.Rest()|
    {
      PathStepOf(lexer.Rest(), done);
      var t := lexer.Lex(KeyMode);
      if !t.IsKey() {
        return None;
      }
      var part := t.text;
      t := lexer.Lex(KeyMode);
      if t.Dot? {
        FindDot(v, done, part, PathOf(lexer.Rest()), PathOf(key));
        if part !in current.kids || !current.kids[part].Table? {
          return None;
        }
        current, done := current.kids[part], done + [part];
      } else if t.EndOfFile? {
        AtChild(v, done, part, []);
        return if part in current.kids then Some(Steps(done + [part])) else None;
      } else {
        return None;
      }
    }
  }

  /** Replacing a child is replacing its parent by a table with that child. */
  lemma {:induction false} PutChild(v: Value, done: seq<string>, k: string, kids: map<string, Value>, c: Value)
    requires At(v, Steps(done)).Some? && k in kids
    ensures var u := Put(v, Steps(done), Table(kids));
            && At(u, Steps(done)) == Some(Table(kids))
            && At(u, Steps(done + [k])) == Some(kids[k])
            && Put(u, Steps(done + [k]), c) == Put(v, Steps(done), Table(kids[k := c]))
  {
    var p := Steps(done);
    var u := Put(v, p, Table(kids));
    AtPut(v, p, Table(kids));
    PutPut(v, p, Table(kids), Table(kids[k := c]));
    StepsAppend(done, [k]);
    assert Steps([k]) == [Child(k)];
    AtAppend(u, p, [Child(k)]);
    PutAppend(u, p, [Child(k)], c);
  }

  /** Setting along the rest of the key in the table at `done` completes the assignment. */
  ghost predicate Pending(root: Value, done: seq<string>, rest: string, w: Value, goal: (Value, bool)) {
    && At(root, Steps(done)).Some? && At(root, Steps(done)).value.Table?
    && var r := SetAlong(At(root, Steps(done)).value, rest, w);
       goal == (Put(root, Steps(done), r.0), r.1)
  }

  lemma {:induction false} PendingStops(root: Value, done: seq<string>, rest: string, w: Value, goal: (Value, bool))
    requires Pending(root, done, rest, w, goal)
    requires SetAlong(At(root, Steps(done)).value, rest, w) == (At(root, Steps(done)).value, false)
    ensures goal == (root, false)
  {
    PutSame(root, Steps(done));
  }

  /** Passing a dot, with the table after it created when it is missing. */
  lemma {:induction false} PendingChild(root: Value, done: seq<string>, k: string, s: string, w: Value,
                                        goal: (Value, bool))
    requires At(root, Steps(done)).Some? && At(root, Steps(done)).value.Table?
    requires var kids := At(root, Steps(done)).value.kids;
             && (k in kids ==> kids[k].Table?)
             && var r := SetAlong(if k in kids then kids[k] else EMPTY_TABLE, s, w);
                goal == (Put(root, Steps(done), Table(kids[k := r.0])), r.1)
    ensures var kids := At(root, Steps(done)).value.kids;
            Pending(if k in kids then root else Put(root, Steps(done), Table(kids[k := EMPTY_TABLE])),
                    done + [k], s, w, goal)
  {
    var kids := At(root, Steps(done)).value.kids;
    var more := if k in kids then kids else kids[k := EMPTY_TABLE];
    var c := SetAlong(more[k], s, w).0;
    PutChild(root, done, k, more, c);
    PutSame(root, Steps(done));
    assert more[k := c] == kids[k := c];
  }

  /** How setting goes on after one key. */
  lemma {:induction false} SetAlongStep(v: Value, s: string, w: Value)
    requires v.Table?
    ensures var l := NextToken(KeyMode, s); var d := NextToken(KeyMode, l.rest);
      var k := if l.token.IsKey() then l.token.text else "";
      SetAlong(v, s, w) ==
      if !l.token.IsKey() then (v, false)
      else if d.token.Dot? then
        if k in v.kids && !v.kids[k].Table? then (v, false)
        else var r := SetAlong(if k in v.kids then v.kids[k] else EMPTY_TABLE, d.rest, w);
             (Table(v.kids[k := r.0]), r.1)
      else if d.token.EndOfFile? then (Table(v.kids[k := w]), true)
      else (v, false)
  {
    hide NextToken;
  }

  class Document {
    var root: Value

    constructor (root: Value)
      ensures this.root == root
    {
      this.root := root;
    }

    /** Gives the named child of a table, which replaces a null value first. */
    method SetChild(key: string, w: Value) returns (ok: bool)
      modifies this
      ensures ok <==> old(root).Table? || old(root).Null?
      ensures root == if old(root).Table? then Table(old(root).kids[key := w])
                      else if old(root).Null? then Table(map[key := w]) else old(root)
    {
      if root.Null? {
        root := EMPTY_TABLE;
      }
      if !root.Table? {
        return false;
      }
      root := Table(root.kids[key := w]);
      ok := true;
    }

    /** Sets the value a dotted key names, creating the tables on the way. */
    method SetKey(key: string, w: Value) returns (ok: bool)
      modifies this
      ensures (root, ok) == Set(old(root), key, w)
    {
      if root.Null? {
        root := EMPTY_TABLE;
      }
      if !root.Table? {
        return false;
      }
      ghost var start := root;
      var lexer := new Lexer(key);
      var done: seq<string> := [];
      assert lexer.Rest() == key;
      assert Pending(root, [], key, w, SetAlong(start, key, w));
      hide NextToken, Steps, At, Put, SetAlong;
      while true
        invariant lexer.Valid() && fresh(lexer)
        invariant Pending(root, done, lexer.Rest(), w, SetAlong(start, key, w))
        decreases |lexer.Rest()|
      {
        ghost var goal := SetAlong(start, key, w);
        ghost var rest := lexer.Rest();
        var current := At(root, Steps(done)).value;
        SetAlongStep(current, rest, w);
        var t := lexer.Lex(KeyMode);
        if !t.IsKey() {
          PendingStops(root, done, rest, w, goal);
          return false;
        }
        var part := t.text;
        t := lexer.Lex(KeyMode);
        if t.Dot? {
          if part in current.kids && !current.kids[part].Table? {
            PendingStops(root, done, rest, w, goal);
            return false;
          }
          PendingChild(root, done, part, lexer.Rest(), w, goal);
          if part !in current.kids {
            root := Put(root, Steps(done), Table(current.kids[part := EMPTY_TABLE]));
          }
          done := done + [part];
        } else if t.EndOfFile? {
          root := Put(root, Steps(done), Table(current.kids[part := w]));
          return true;
        } else {
          PendingStops(root, done, rest, w, goal);
          return false;
        }
      }
    }

    /** Erases the value a dotted key names. */
    method EraseKey(key: string) returns (ok: bool)
      modifies this
      ensures (root, ok) == Erase(old(root), key)
    {
      if !root.Table? {
        return false;
      }
      ghost var start := root;
      var lexer := new Lexer(key);
      var done: seq<string> := [];
      assert lexer.Rest() == key;
      while true
        invariant lexer.Valid() && fresh(lexer)
        invariant root == start
        invariant At(root, Steps(done)).Some? && At(root, Steps(done)).value.Table?
        invariant var r := EraseAlong(At(root, Steps(done)).value, lexer.Rest());
                  EraseAlong(start, key) == (Put(root, Steps(done), r.0), r.1)
        decreases |lexer.Rest()|
      {
        ghost var p := Steps(done);
        PutSame(root, p);
        var current := At(root, Steps(done)).value;
        var t := lexer.Lex(KeyMode);
        if !t.IsKey() {
          return false;
        }
        var part := t.text;
        t := lexer.Lex(KeyMode);
        if t.Dot? {
          if part !in current.kids || !current.kids[part].Table? {
            return false;
          }
          PutChild(root, done, part, current.kids, EraseAlong(current.kids[part], lexer.Rest()).0);
          done := done + [part];
        } else if t.EndOfFile? {
          root := Put(root, Steps(done), Table(current.kids - {part}));
          return part in current.kids;
        } else {
          return false;
        }
      }
    }

    /** Merges b into the value at p, which is left alone unless both are tables. */
    method MergeAt(p: Path, b: Value) returns (ok: bool)
      requires At(root, p).Some?
      modifies this
      ensures ok == (At(old(root), p).value.Table? && b.Table?) && (!ok ==> root == old(root))
      ensures root == Put(old(root), p, Merge(At(old(root), p).value, b).0)
      decreases b
    {
      ghost var before := root;
      var current := At(root, p).value;
      PutSame(root, p);
      if !current.Table? || !b.Table? {
        return false;
      }
      var ks := SortedKeys(b.kids.Keys);
      for i := 0 to |ks|
        invariant current.Table? && At(root, p) == Some(current) && root == Put(before, p, current)
        invariant MergeFrom(current, b, ks[i..]) == Merge(At(before, p).value, b).0
      {
        var k := ks[i];
        ghost var next := MergeEntry(current, b, k);
        assert ks[i..][0] == k && ks[i..][1..] == ks[i + 1..];
        var q := FindValue(current, k);
        if q.Some? && At(current, q.value).value.Table? && b.kids[k].Table? {
          AtAppend(root, p, q.value);
          ghost var m := Merge(At(current, q.value).value, b.kids[k]).0;
          PutAppend(root, p, q.value, m);
          var done := MergeAt(p + q.value, b.kids[k]);
        } else {
          root := Put(root, p, Table(current.kids[k := b.kids[k]]));
        }
        PutPut(before, p, current, next);
        AtPut(before, p, next);
        current := At(root, p).value;
      }
      ok := true;
    }
  }
}
