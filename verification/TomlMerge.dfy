/** Merging one table into another. */
module TomlMerge {
  import opened Basics
  import opened TomlText
  import opened TomlValue
  import opened TomlPaths

  // ---------- the loop over the entries of the merged table

  /** Takes over the entry for k. The key is looked up as a dotted path, but a value that is
      not merged goes to the child of that very name. */
  function MergeEntry(a: Value, b: Value, k: string): (r: Value)
    requires a.Table? && b.Table? && k in b.kids
    ensures r.Table?
    decreases b, 0
  {
    match FindPath(a, k)
    case None => Table(a.kids[k := b.kids[k]])
    case Some(p) =>
      var tmp := At(a, p).value;
      if tmp.Table? && b.kids[k].Table? then
        Put(a, p, MergeFrom(tmp, b.kids[k], SortedKeys(b.kids[k].kids.Keys)))
      else Table(a.kids[k := b.kids[k]])
  }

  function MergeFrom(a: Value, b: Value, ks: seq<string>): (r: Value)
    requires a.Table? && b.Table? && forall k :: k in ks ==> k in b.kids
    ensures r.Table?
    decreases b, 1, |ks|
  {
    if ks == [] then a else MergeFrom(MergeEntry(a, b, ks[0]), b, ks[1..])
  }

  /** The merged value and whether both values are tables. */
  function Merge(a: Value, b: Value): (Value, bool) {
    if a.Table? && b.Table? then (MergeFrom(a, b, SortedKeys(b.kids.Keys)), true) else (a, false)
  }

  // ---------- the recursive right-biased merge of maps

  function RightMerge(a: Value, b: Value): Value
    decreases b
  {
    if a.Table? && b.Table? then
      Table(map k | k in a.kids.Keys + b.kids.Keys ::
              if k !in b.kids then a.kids[k]
              else if k in a.kids then RightMerge(a.kids[k], b.kids[k])
              else b.kids[k])
    else b
  }

  /** Every key in a value, at every level below tables, is bare. */
  predicate BareKeys(v: Value) {
    v.Table? ==> forall k :: k in v.kids ==> IsBare(k) && BareKeys(v.kids[k])
  }

  // ---------- keys that take no detour

  /** A key that names itself when it is read as a path. */
  predicate Own(k: string) { PathOf(k) == Some([k]) }

  /** No key of a table reads as the path of another one. */
  predicate Straight(v: Value) {
    v.Table? ==> forall k :: k in v.kids ==> (PathOf(k).None? || Own(k)) && Straight(v.kids[k])
  }

  /** What becomes of an entry: tables are merged only under a key that names itself. */
  function Entry(a: Value, b: Value, k: string): Value
    requires a.Table? && b.Table? && k in b.kids
  {
    if k in a.kids && Own(k) && a.kids[k].Table? && b.kids[k].Table? then Merge(a.kids[k], b.kids[k]).0 else b.kids[k]
  }

  /** Table a after the entries of b for the given keys were merged into it. */
  function Partly(a: Value, b: Value, keys: set<string>): Value
    requires a.Table? && b.Table? && keys <= b.kids.Keys
  {
    Table(map k | k in a.kids.Keys + keys ::
            if k !in keys then a.kids[k] else Entry(a, b, k))
  }

  lemma {:induction false} PartlyNone(a: Value, b: Value)
    requires a.Table? && b.Table?
    ensures Partly(a, b, {}) == a
  {
    assert Partly(a, b, {}).kids == a.kids;
  }

  lemma {:induction false} PartlyStep(a: Value, b: Value, keys: set<string>, k: string)
    requires a.Table? && b.Table? && keys <= b.kids.Keys && k in b.kids
    ensures Table(Partly(a, b, keys).kids[k := Entry(a, b, k)]) == Partly(a, b, keys + {k})
  {
    assert Partly(a, b, keys).kids[k := Entry(a, b, k)] == Partly(a, b, keys + {k}).kids;
  }

  lemma {:induction false} FindOwn(a: Value, k: string)
    requires a.Table? && Own(k)
    ensures FindPath(a, k) == if k in a.kids then Some([Child(k)]) else None
  {
    LookupStep(a, k, []);
    assert [k] + [] == [k];
    assert Steps([k]) == [Child(k)];
  }

  lemma {:induction false} PutKid(v: Value, k: string, w: Value)
    requires v.Table? && k in v.kids
    ensures At(v, [Child(k)]) == Some(v.kids[k]) && Put(v, [Child(k)], w) == Table(v.kids[k := w])
  {
    assert [Child(k)][1..] == [];
  }

  lemma {:induction false} MergeOne(a: Value, b: Value, keys: set<string>, k: string)
    requires a.Table? && b.Table? && keys <= b.kids.Keys && k in b.kids && k !in keys && (PathOf(k).None? || Own(k))
    ensures MergeEntry(Partly(a, b, keys), b, k) == Partly(a, b, keys + {k})
  {
    var now := Partly(a, b, keys);
    PartlyStep(a, b, keys, k);
    if Own(k) {
      FindOwn(now, k);
      if k in a.kids {
        PutKid(now, k, Entry(a, b, k));
      }
    }
  }

  lemma {:induction false} MergeFromStraight(a: Value, b: Value, keys: set<string>, ks: seq<string>)
    requires a.Table? && b.Table? && Straight(b) && keys <= b.kids.Keys
    requires forall k :: k in ks ==> k in b.kids && k !in keys
    requires forall i, j :: 0 <= i < j < |ks| ==> ks[i] != ks[j]
    ensures MergeFrom(Partly(a, b, keys), b, ks) == Partly(a, b, keys + set k | k in ks)
    decreases |ks|
  {
    if ks == [] {
      assert keys + (set k | k in ks) == keys;
    } else {
      MergeOne(a, b, keys, ks[0]);
      MergeFromStraight(a, b, keys + {ks[0]}, ks[1..]);
      assert keys + {ks[0]} + (set k | k in ks[1..]) == keys + set k | k in ks;
    }
  }

  /** Merging a table whose keys take no detour treats each entry by itself. */
  lemma {:induction false} MergeStraight(a: Value, b: Value)
    requires a.Table? && b.Table? && Straight(b)
    ensures Merge(a, b) == (Partly(a, b, b.kids.Keys), true)
  {
    var ks := SortedKeys(b.kids.Keys);
    SortedKeysDistinct(b.kids.Keys);
    PartlyNone(a, b);
    MergeFromStraight(a, b, {}, ks);
    assert {} + (set k | k in ks) == b.kids.Keys;
  }

  /** Where both values are tables, w has every key of x, and so on below. */
  predicate Covers(w: Value, x: Value)
    decreases w
  {
    x.Table? && w.Table? ==>
      x.kids.Keys <= w.kids.Keys && forall k :: k in x.kids && k in w.kids ==> Covers(w.kids[k], x.kids[k])
  }

  lemma {:induction false} CoveredIsReplaced(x: Value, w: Value)
    ensures RightMerge(x, w) == w <==> Covers(w, x)
    decreases w
  {
    if x.Table? && w.Table? {
      RightMergeKeys(x, w);
      forall k | k in x.kids && k in w.kids
        ensures RightMerge(x.kids[k], w.kids[k]) == w.kids[k] <==> Covers(w.kids[k], x.kids[k])
      {
        CoveredIsReplaced(x.kids[k], w.kids[k]);
      }
      if x.kids.Keys <= w.kids.Keys {
        assert RightMerge(x, w) == w <==> RightMerge(x, w).kids == w.kids;
      }
    }
  }

  /** Under a key that names itself tables are merged in the same way; under one that is no path
      the old table holds nothing that the new one does not. */
  predicate Fits(a: Value, b: Value)
    decreases b
  {
    a.Table? && b.Table? ==> forall k :: k in a.kids && k in b.kids ==>
      if Own(k) then Fits(a.kids[k], b.kids[k]) else Covers(b.kids[k], a.kids[k])
  }

  /** When no key of the merged table takes a detour, merging always succeeds, and it computes the
      recursive right-biased merge exactly when the tables fit. */
  lemma {:induction false} MergeExactly(a: Value, b: Value)
    requires a.Table? && b.Table? && Straight(b)
    ensures Merge(a, b).1 && (Merge(a, b).0 == RightMerge(a, b) <==> Fits(a, b))
    decreases b
  {
    MergeStraight(a, b);
    RightMergeKeys(a, b);
    var m := Partly(a, b, b.kids.Keys);
    assert m.kids.Keys == RightMerge(a, b).kids.Keys;
    forall k | k in a.kids && k in b.kids
      ensures m.kids[k] == RightMerge(a, b).kids[k] <==>
        if Own(k) then Fits(a.kids[k], b.kids[k]) else Covers(b.kids[k], a.kids[k])
    {
      EntryFits(a, b, k);
    }
    assert m == RightMerge(a, b) <==> m.kids == RightMerge(a, b).kids;
  }

  lemma {:induction false} EntryFits(a: Value, b: Value, k: string)
    requires a.Table? && b.Table? && Straight(b) && k in a.kids && k in b.kids
    ensures Entry(a, b, k) == RightMerge(a.kids[k], b.kids[k]) <==>
      if Own(k) then Fits(a.kids[k], b.kids[k]) else Covers(b.kids[k], a.kids[k])
    decreases b, 0
  {
    if !Own(k) {
      CoveredIsReplaced(a.kids[k], b.kids[k]);
    } else if a.kids[k].Table? && b.kids[k].Table? {
      MergeExactly(a.kids[k], b.kids[k]);
    }
  }

  lemma {:induction false} BareFits(a: Value, b: Value)
    requires BareKeys(b)
    ensures Straight(b) && Fits(a, b)
    decreases b
  {
    if b.Table? {
      forall k | k in b.kids
        ensures Own(k) && Straight(b.kids[k])
      {
        BareKeyPath(k);
        BareFits(b.kids[k], b.kids[k]);
      }
      if a.Table? {
        forall k | k in a.kids && k in b.kids
          ensures Fits(a.kids[k], b.kids[k])
        {
          BareFits(a.kids[k], b.kids[k]);
        }
      }
    }
  }

  /** When the keys of the merged table are bare, merging always succeeds and computes the
      recursive right-biased merge. */
  lemma {:induction false} MergeIsRightMerge(a: Value, b: Value)
    requires a.Table? && b.Table? && BareKeys(b)
    ensures Merge(a, b) == (RightMerge(a, b), true)
  {
    BareFits(a, b);
    MergeExactly(a, b);
  }

  lemma {:induction false} RightMergeTwice(a: Value, b: Value)
    ensures RightMerge(RightMerge(a, b), b) == RightMerge(a, b)
    decreases b
  {
    if a.Table? && b.Table? {
      forall k | k in a.kids && k in b.kids
        ensures RightMerge(RightMerge(a.kids[k], b.kids[k]), b.kids[k]) == RightMerge(a.kids[k], b.kids[k])
      {
        RightMergeTwice(a.kids[k], b.kids[k]);
      }
      forall k | k in b.kids
        ensures RightMerge(b.kids[k], b.kids[k]) == b.kids[k]
      {
        RightMergeSelf(b.kids[k]);
      }
      RightMergeKeys(RightMerge(a, b), b);
    } else {
      RightMergeSelf(b);
    }
  }

  lemma {:induction false} RightMergeSelf(b: Value)
    ensures RightMerge(b, b) == b
  {
    if b.Table? {
      forall k | k in b.kids
        ensures RightMerge(b.kids[k], b.kids[k]) == b.kids[k]
      {
        RightMergeSelf(b.kids[k]);
      }
    }
  }

  lemma RightMergeKeys(a: Value, b: Value)
    requires a.Table? && b.Table?
    ensures RightMerge(a, b).kids.Keys == a.kids.Keys + b.kids.Keys
  {
  }

  /** Merging the same table a second time changes nothing, and merging a table into a copy
      of itself changes nothing. */
  lemma {:induction false} MergeTwice(a: Value, b: Value)
    requires a.Table? && b.Table? && BareKeys(b)
    ensures Merge(Merge(a, b).0, b) == Merge(a, b)
    ensures Merge(b, b) == (b, true)
  {
    MergeIsRightMerge(a, b);
    MergeIsRightMerge(RightMerge(a, b), b);
    RightMergeTwice(a, b);
    MergeIsRightMerge(b, b);
    RightMergeSelf(b);
  }

  // ---------- keys that are looked up as paths

  lemma OneKey(k: string)
    ensures SortedKeys({k}) == [k]
  {
    var ks := SortedKeys({k});
    assert forall x :: x in ks <==> x == k;
    assert ks != [] && ks[0] in ks;
    BeforeIrreflexive(k);
    assert ks[|ks| - 1] in ks;
    assert !Before(ks[0], ks[|ks| - 1]);
  }

  /** Every entry of w is in x already. */
  predicate Holds(x: Value, w: Value)
    decreases w
  {
    if x.Table? && w.Table? then
      w.kids.Keys <= x.kids.Keys && forall k :: k in w.kids && k in x.kids ==> Holds(x.kids[k], w.kids[k])
    else x == w
  }

  lemma {:induction false} HeldIsNotChanged(x: Value, w: Value)
    ensures RightMerge(x, w) == x <==> Holds(x, w)
    decreases w
  {
    if x.Table? && w.Table? {
      RightMergeKeys(x, w);
      forall k | k in x.kids && k in w.kids
        ensures RightMerge(x.kids[k], w.kids[k]) == x.kids[k] <==> Holds(x.kids[k], w.kids[k])
      {
        HeldIsNotChanged(x.kids[k], w.kids[k]);
      }
      if w.kids.Keys <= x.kids.Keys {
        assert RightMerge(x, w) == x <==> RightMerge(x, w).kids == x.kids;
      }
    }
  }

  /** The table an entry is merged into, if its key reads as the path of one. */
  function Destination(a: Value, k: string, w: Value): Option<Path>
    requires a.Table?
  {
    match FindPath(a, k)
    case None => None
    case Some(p) => if At(a, p).value.Table? && w.Table? then Some(p) else None
  }

  /** Without such a table, the old value holds nothing that the new one does not. Under a key
      that names itself, the tables merge in the same way. Elsewhere, there is nothing to do. */
  predicate Kept(a: Value, k: string, w: Value)
    requires a.Table?
  {
    match Destination(a, k, w)
    case None => k in a.kids ==> Covers(w, a.kids[k])
    case Some(p) =>
      var tmp := At(a, p).value;
      if Own(k) then Merge(tmp, w).0 == RightMerge(tmp, w)
      else k in a.kids && Holds(a.kids[k], w) && Merge(tmp, w).0 == tmp
  }

  lemma {:induction false} RightMergeOne(a: Value, k: string, w: Value)
    requires a.Table?
    ensures RightMerge(a, Table(map[k := w])) ==
      Table(a.kids[k := if k in a.kids then RightMerge(a.kids[k], w) else w])
  {
    var b := Table(map[k := w]);
    assert b.kids.Keys == {k} && b.kids[k] == w;
    assert RightMerge(a, b).kids == a.kids[k := if k in a.kids then RightMerge(a.kids[k], w) else w];
  }

  lemma {:induction false} MergeOnlyEntry(a: Value, k: string, w: Value)
    requires a.Table?
    ensures Merge(a, Table(map[k := w])) == (MergeEntry(a, Table(map[k := w]), k), true)
  {
    var b := Table(map[k := w]);
    assert b.kids.Keys == {k};
    OneKey(k);
    assert [k][1..] == [];
    assert MergeFrom(MergeEntry(a, b, k), b, []) == MergeEntry(a, b, k);
  }

  /** Assigning below another key leaves the value under k alone, and changes nothing only if
      the value assigned was there before. */
  lemma {:induction false} PutElsewhere(v: Value, p: Path, w: Value, k: string)
    requires v.Table? && p != [] && p[0].Child? && p[0] != Child(k) && At(v, p).Some?
    ensures Put(v, p, w).Table? && Put(v, p, w).kids.Keys == v.kids.Keys
    ensures k in v.kids ==> Put(v, p, w).kids[k] == v.kids[k]
    ensures Put(v, p, w) == v <==> w == At(v, p).value
  {
    AtPut(v, p, w);
    PutSame(v, p);
  }

  /** Merging in one entry under any key always succeeds, and gives the right-biased merge exactly
      when the entry is kept. A new key that reads as the path of another table is not added. */
  lemma {:induction false} MergeOneEntry(a: Value, k: string, w: Value)
    requires a.Table?
    ensures var b := Table(map[k := w]); Merge(a, b).1 && (Merge(a, b).0 == RightMerge(a, b) <==> Kept(a, k, w))
    ensures Destination(a, k, w).Some? ==> Merge(a, Table(map[k := w])).0.kids.Keys == a.kids.Keys
  {
    hide Merge, RightMerge, Covers, Holds, PathOf;
    var b := Table(map[k := w]);
    assert b.kids[k] == w;
    RightMergeOne(a, k, w);
    MergeOnlyEntry(a, k, w);
    if k in a.kids {
      CoveredIsReplaced(a.kids[k], w);
      HeldIsNotChanged(a.kids[k], w);
    }
    match Destination(a, k, w)
    case None =>
      assert Merge(a, b).0 == Table(a.kids[k := w]);
      assert a.kids[k := w][k] == w;
    case Some(p) =>
      MergeInto(a, k, w, p);
  }

  lemma {:induction false} MergeInto(a: Value, k: string, w: Value, p: Path)
    requires a.Table? && Destination(a, k, w) == Some(p)
    ensures var merged := Put(a, p, Merge(At(a, p).value, w).0);
      && MergeEntry(a, Table(map[k := w]), k) == merged && merged.Table? && merged.kids.Keys == a.kids.Keys
      && (merged.kids == a.kids[k := if k in a.kids then RightMerge(a.kids[k], w) else w] <==>
          if Own(k) then Merge(At(a, p).value, w).0 == RightMerge(At(a, p).value, w)
          else k in a.kids && RightMerge(a.kids[k], w) == a.kids[k] && Merge(At(a, p).value, w).0 == At(a, p).value)
  {
    hide RightMerge, PathOf;
    var tmp := At(a, p).value;
    var m := Merge(tmp, w).0;
    var b := Table(map[k := w]);
    assert b.kids[k] == w;
    assert MergeEntry(a, b, k) == Put(a, p, m);
    if Own(k) {
      FindOwn(a, k);
      PutKid(a, k, m);
      assert a.kids[k := m][k] == m;
    } else {
      OtherPath(k);
      PutElsewhere(a, p, m, k);
      if k in a.kids {
        assert a.kids[k := RightMerge(a.kids[k], w)][k] == RightMerge(a.kids[k], w);
        assert a.kids[k := a.kids[k]] == a.kids;
        assert Put(a, p, m) == a <==> Put(a, p, m).kids == a.kids;
      }
    }
  }

  /** Merging w into x changes nothing: where both are tables, every key of w is in x, with the
      same value unless it is a table under a key that names itself, and so on below. */
  predicate Settled(x: Value, w: Value)
    requires x.Table? && w.Table?
    decreases w
  {
    forall k :: k in w.kids ==>
      && k in x.kids
      && if Own(k) && x.kids[k].Table? && w.kids[k].Table? then Settled(x.kids[k], w.kids[k])
         else x.kids[k] == w.kids[k]
  }

  lemma {:induction false} SettledIsNotChanged(x: Value, w: Value)
    requires x.Table? && w.Table? && Straight(w)
    ensures Merge(x, w).0 == x <==> Settled(x, w)
    decreases w
  {
    hide Merge, PathOf;
    MergeStraight(x, w);
    var m := Partly(x, w, w.kids.Keys);
    forall k | k in w.kids && k in x.kids
      ensures m.kids[k] == x.kids[k] <==>
        if Own(k) && x.kids[k].Table? && w.kids[k].Table? then Settled(x.kids[k], w.kids[k])
        else x.kids[k] == w.kids[k]
    {
      if Own(k) && x.kids[k].Table? && w.kids[k].Table? {
        SettledIsNotChanged(x.kids[k], w.kids[k]);
      }
    }
    assert m == x <==> m.kids == x.kids;
    assert m.kids.Keys == x.kids.Keys + w.kids.Keys;
    assert w.kids.Keys <= x.kids.Keys ==> m.kids.Keys == x.kids.Keys;
  }

  /** The same without the merge. Without a table to merge into, the new value has all that the
      old one has. Under a key that names itself, the tables fit. Elsewhere, the entry is there
      and in the other table already. */
  predicate StraightlyKept(a: Value, k: string, w: Value)
    requires a.Table?
  {
    match Destination(a, k, w)
    case None => k in a.kids ==> Covers(w, a.kids[k])
    case Some(p) =>
      if Own(k) then Fits(At(a, p).value, w)
      else k in a.kids && Holds(a.kids[k], w) && Settled(At(a, p).value, w)
  }

  /** For one entry under any key, with a value in which no key takes a detour: merging gives the
      right-biased merge exactly when that holds. */
  lemma {:induction false} MergeOneStraightEntry(a: Value, k: string, w: Value)
    requires a.Table? && Straight(w)
    ensures var b := Table(map[k := w]); Merge(a, b).0 == RightMerge(a, b) <==> StraightlyKept(a, k, w)
  {
    hide Merge, RightMerge, Covers, Holds, PathOf, Fits, Settled, Straight;
    MergeOneEntry(a, k, w);
    match Destination(a, k, w)
    case None =>
    case Some(p) =>
      MergeExactly(At(a, p).value, w);
      SettledIsNotChanged(At(a, p).value, w);
  }

  /** Such a key: `a.b` next to a table `a` that holds a table `b`. */
  lemma DottedKeyGoesElsewhere(w: Value)
    requires w.Table?
    ensures var a := Table(map["a" := Table(map["b" := Table(map[])])]);
      Merge(a, Table(map["a.b" := w])) != (RightMerge(a, Table(map["a.b" := w])), true)
  {
    hide Merge, RightMerge, PathOf;
    var inner := Table(map[]);
    var middle := Table(map["b" := inner]);
    var a := Table(map["a" := middle]);
    DottedPath();
    assert At(a, Steps(["a", "b"])) == Some(inner) by {
      assert Steps(["a", "b"]) == [Child("a"), Child("b")];
      assert [Child("a"), Child("b")][1..] == [Child("b")] && [Child("b")][1..] == [];
      assert At(inner, []) == Some(inner) && At(middle, [Child("b")]) == Some(inner);
    }
    assert |["a", "b"]| != |["a.b"]|;
    MergeOneEntry(a, "a.b", w);
  }

  lemma DottedPath()
    ensures PathOf("a.b") == Some(["a", "b"])
  {
    hide PathOf;
    JoinedKeysRead(["a", "b"]);
    assert ["a", "b"][1..] == ["b"] && JoinKeys(["b"]) == "b";
    assert JoinKeys(["a", "b"]) == "a.b";
  }

  /** A key that is no path at all: the table that is merged in replaces the one that was there,
      so the entry under p is lost. */
  lemma {:induction false} SpacedKeyLosesTable(p: string, v: Value, q: string, w: Value)
    requires p != q
    ensures var a := Table(map["x y" := Table(map[p := v])]);
      var b := Table(map["x y" := Table(map[q := w])]);
      Merge(a, b).0 == b && Merge(a, b).0 != RightMerge(a, b)
  {
    hide RightMerge, PathOf;
    var was, now := Table(map[p := v]), Table(map[q := w]);
    var a, b := Table(map["x y" := was]), Table(map["x y" := now]);
    SpacedKey();
    MergeOneEntry(a, "x y", now);
    assert p in was.kids && p !in now.kids;
    assert !Covers(now, was);
    MergeOnlyEntry(a, "x y", now);
    assert a.kids["x y" := now] == b.kids;
  }
}
