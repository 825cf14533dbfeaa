/** Which version every loaded object sees. */
module CerealVersions {
  import opened Basics
  import opened CerealArchive
  import opened CerealRoundTrip

  // ---------- the classes in the order in which their objects are met

  /** The versioned classes that a walk over the graph meets, and the objects behind it. */
  ghost function WalkObject(sch: Schema, h: Heap, done: set<nat>, o: Obj): (r: (seq<Class>, set<nat>))
    ensures done <= r.1
    decreases |h.Keys - done|, o, 1
  {
    var (cs, after) := WalkContents(sch, h, done, o.contents);
    ((if o.cls in sch && sch[o.cls].versioned then [sch[o.cls]] else []) + cs, after)
  }

  ghost function WalkContents(sch: Schema, h: Heap, done: set<nat>, contents: seq<Content>): (r: (seq<Class>, set<nat>))
    ensures done <= r.1
    decreases |h.Keys - done|, contents, 0
  {
    if contents == [] then ([], done) else
      var (cs, after) := WalkContent(sch, h, done, contents[0]);
      Subset(h.Keys - after, h.Keys - done);
      var (more, last) := WalkContents(sch, h, after, contents[1..]);
      (cs + more, last)
  }

  /** Every object behind a pointer is met once. */
  ghost function WalkContent(sch: Schema, h: Heap, done: set<nat>, c: Content): (r: (seq<Class>, set<nat>))
    ensures done <= r.1
    decreases |h.Keys - done|, c, 0
  {
    match c
    case Embedded(o) => WalkObject(sch, h, done, o)
    case Pointer(a) =>
      if a == 0 || a in done || a !in h then ([], done) else
        assert h.Keys - (done + {a}) == (h.Keys - done) - {a};
        WalkObject(sch, h, done + {a}, h[a])
  }

  // ---------- the versions that are registered for them

  ghost predicate Met(cs: seq<Class>, hash: nat) { exists i :: 0 <= i < |cs| && cs[i].hash == hash }

  /** The version of the first class with a hash. */
  function FirstVersion(cs: seq<Class>, hash: nat): nat
    decreases |cs|
  {
    if cs == [] then 0 else if cs[0].hash == hash then cs[0].version else FirstVersion(cs[1..], hash)
  }

  lemma {:induction false} FirstVersionIs(cs: seq<Class>, hash: nat) returns (i: nat)
    requires Met(cs, hash)
    ensures i < |cs| && cs[i].hash == hash && FirstVersion(cs, hash) == cs[i].version
    ensures forall k :: 0 <= k < i ==> cs[k].hash != hash
    decreases |cs|
  {
    i := 0;
    if cs[0].hash != hash {
      var k :| 0 <= k < |cs| && cs[k].hash == hash;
      assert cs[1..][k - 1] == cs[k];
      var j := FirstVersionIs(cs[1..], hash);
      i := j + 1;
      assert forall k :: 0 < k < i ==> cs[k] == cs[1..][k - 1];
    }
  }

  /** A table after classes were met: it keeps what it had, and has the version of the first class
      of every other hash. */
  ghost predicate Declares(table: map<nat, nat>, cs: seq<Class>, table': map<nat, nat>) {
    && (forall hash :: hash in table' <==> hash in table || Met(cs, hash))
    && (forall hash :: hash in table' ==>
          table'[hash] == if hash in table then table[hash] else FirstVersion(cs, hash))
  }

  lemma {:induction false} FirstOfBoth(cs: seq<Class>, more: seq<Class>, hash: nat)
    ensures Met(cs + more, hash) <==> Met(cs, hash) || Met(more, hash)
    ensures FirstVersion(cs + more, hash)
            == if Met(cs, hash) then FirstVersion(cs, hash) else FirstVersion(more, hash)
    decreases |cs|
  {
    MetByBoth(cs, more, hash);
    if cs == [] {
      assert cs + more == more;
    } else {
      assert (cs + more)[1..] == cs[1..] + more && [cs[0]] + cs[1..] == cs;
      FirstOfBoth(cs[1..], more, hash);
      MetByBoth([cs[0]], cs[1..], hash);
      assert Met([cs[0]], hash) <==> [cs[0]][0].hash == hash;
    }
  }

  lemma MetByBoth(cs: seq<Class>, more: seq<Class>, hash: nat)
    ensures Met(cs + more, hash) <==> Met(cs, hash) || Met(more, hash)
  {
    if i :| 0 <= i < |cs| && cs[i].hash == hash {
      assert (cs + more)[i] == cs[i];
    }
    if i :| 0 <= i < |more| && more[i].hash == hash {
      assert (cs + more)[|cs| + i] == more[i];
    }
  }

  lemma {:induction false} DeclaresThen(t: map<nat, nat>, cs: seq<Class>, t': map<nat, nat>, more: seq<Class>,
                                        t'': map<nat, nat>)
    requires Declares(t, cs, t') && Declares(t', more, t'')
    ensures Declares(t, cs + more, t'')
  {
    hide Met, FirstVersion;
    forall hash
      ensures Met(cs + more, hash) <==> Met(cs, hash) || Met(more, hash)
      ensures FirstVersion(cs + more, hash)
              == if Met(cs, hash) then FirstVersion(cs, hash) else FirstVersion(more, hash)
    {
      FirstOfBoth(cs, more, hash);
    }
  }

  lemma NothingDeclared(t: map<nat, nat>)
    ensures Declares(t, [], t)
  {
  }

  lemma OneDeclared(w: Out, c: Class)
    ensures Declares(w.table, [c], RegisterVersion(w, c).1.table)
  {
    assert [c][0] == c;
  }

  // ---------- the writer meets them in the same order

  /** A save registers what the walk meets. */
  ghost predicate Follows(w: Out, walk: (seq<Class>, set<nat>), w': Out) {
    w'.ptrs.Keys == walk.1 && Declares(w.table, walk.0, w'.table)
  }

  /** What registering a pointer leaves alone. */
  lemma PointerAside(w: Out, a: nat)
    ensures var w1 := RegisterPointer(w, a).1;
            w1.table == w.table && w1.ptrs.Keys == w.ptrs.Keys + (if a == 0 then {} else {a})
  {
    hide Tag, Increment;
  }

  lemma SavePointerIs(sch: Schema, h: Heap, w: Out, a: nat)
    requires Counts(sch, h, w) && (a == 0 || a in h) && Counts(sch, h, RegisterPointer(w, a).1)
    requires HasMsb(RegisterPointer(w, a).0) <==> a != 0 && a !in w.ptrs
    requires a != 0 && a !in w.ptrs ==> FitsObj(sch, h, h[a])
    ensures SavePointer(sch, h, w, a).1 == if a != 0 && a !in w.ptrs
              then SaveObject(sch, h, RegisterPointer(w, a).1, h[a]).1 else RegisterPointer(w, a).1
  {
    hide FitsObj, SaveObject, Left, OkSchema, HasMsb, Strip, Counts, Grows, RegisterPointer;
  }

  lemma {:induction false} PointerFollows(sch: Schema, h: Heap, w: Out, a: nat)
    requires Counts(sch, h, w) && (a == 0 || a in h)
    ensures Follows(w, WalkContent(sch, h, w.ptrs.Keys, Pointer(a)), SavePointer(sch, h, w, a).1)
    decreases 2 * Left(h, w)
  {
    hide FitsObj, SaveObject, WalkObject, Left, Counts, Declares, OkSchema, Tag, HasMsb, Strip, Increment, Grows;
    hide RegisterPointer, SavePointer;
    PointerRegistered(sch, h, w, a);
    PointerAside(w, a);
    NothingDeclared(w.table);
    if a != 0 {
      ObjectAt(sch, h, w, a);
    }
    SavePointerIs(sch, h, w, a);
    if a != 0 && a !in w.ptrs {
      ObjectFollows(sch, h, RegisterPointer(w, a).1, h[a]);
    }
  }

  lemma {:induction false} ObjectFollows(sch: Schema, h: Heap, w: Out, o: Obj)
    requires Counts(sch, h, w) && FitsObj(sch, h, o)
    ensures Follows(w, WalkObject(sch, h, w.ptrs.Keys, o), SaveObject(sch, h, w, o).1)
    decreases 2 * Left(h, w) + 1, o, 3
  {
    hide SaveContents, WalkContents, Left, Counts, Declares, OkSchema, RegisterVersion, FitsContent, Words;
    var c := sch[o.cls];
    VersionRegistered(sch, h, w, c);
    var w1 := if c.versioned then RegisterVersion(w, c).1 else w;
    LeftShrinks(h, w, w1);
    ContentsFollow(sch, h, w1, c.members, o.contents);
    NothingDeclared(w.table);
    OneDeclared(w, c);
    DeclaresThen(w.table, if c.versioned then [c] else [], w1.table,
                 WalkContents(sch, h, w.ptrs.Keys, o.contents).0,
                 SaveContents(sch, h, w1, c.members, o.contents).1.table);
  }

  lemma {:induction false} ContentsFollow(sch: Schema, h: Heap, w: Out, ds: seq<Decl>, cs: seq<Content>)
    requires Counts(sch, h, w) && FitsAll(sch, h, ds, cs)
    ensures Follows(w, WalkContents(sch, h, w.ptrs.Keys, cs), SaveContents(sch, h, w, ds, cs).1)
    decreases 2 * Left(h, w) + 1, cs, 0
  {
    hide SaveContent, WalkContent, Left, Counts, Declares, OkSchema, FitsContent;
    if cs == [] {
      NothingDeclared(w.table);
    } else {
      var w1 := SaveContent(sch, h, w, ds[0], cs[0]).1;
      LeftShrinks(h, w, w1);
      ContentFollows(sch, h, w, ds[0], cs[0]);
      ContentsFollow(sch, h, w1, ds[1..], cs[1..]);
      DeclaresThen(w.table, WalkContent(sch, h, w.ptrs.Keys, cs[0]).0, w1.table,
                   WalkContents(sch, h, w1.ptrs.Keys, cs[1..]).0, SaveContents(sch, h, w1, ds[1..], cs[1..]).1.table);
    }
  }

  lemma {:induction false} ContentFollows(sch: Schema, h: Heap, w: Out, d: Decl, c: Content)
    requires Counts(sch, h, w) && FitsContent(sch, h, d, c)
    ensures Follows(w, WalkContent(sch, h, w.ptrs.Keys, c), SaveContent(sch, h, w, d, c).1)
    decreases 2 * Left(h, w) + 1, c, 2
  {
    hide SavePointer, SaveObject, WalkObject, Left, Counts, Declares, OkSchema, FitsObj, RegisterName, HasMsb;
    if d.Inside? {
      ObjectFollows(sch, h, w, c.obj);
    } else if d.Poly? && c.addr == 0 {
      NothingDeclared(w.table);
    } else {
      PointerFollows(sch, h, w, c.addr);
      if d.Poly? {
        ObjectAt(sch, h, w, c.addr);
        var w1 := RegisterName(w, h[c.addr].cls).1;
        NameRegistered(sch, h, w, h[c.addr].cls);
        NameAside(w, h[c.addr].cls);
        LeftShrinks(h, w, w1);
        PointerFollows(sch, h, w1, c.addr);
      }
    }
  }

  lemma NameAside(w: Out, name: string)
    ensures var w' := RegisterName(w, name).1; w'.ptrs == w.ptrs && w'.table == w.table
  {
  }

  // ---------- what the loaded objects see

  /** The version that an object of a class sees after a save: that of the program for its hash,
      otherwise the declared one of the first class with that hash that was met. */
  ghost function Seen(sch: Schema, table: map<nat, nat>, met: seq<Class>, cls: string): nat {
    if cls !in sch || !sch[cls].versioned then 0
    else if sch[cls].hash in table then table[sch[cls].hash]
    else FirstVersion(met, sch[cls].hash)
  }

  lemma ImageSees(sch: Schema, table: map<nat, nat>, met: seq<Class>, w: Out, o: Obj)
    requires Declares(table, met, w.table) && Known(sch, w, o)
    ensures Image(sch, w, o).version == Seen(sch, table, met, o.cls)
  {
    hide KnownPart, ImagePart, Images;
  }

  /** The program has no version for a versioned class, and no other class that is met has its hash. */
  ghost predicate OnItsOwn(sch: Schema, table: map<nat, nat>, met: seq<Class>, cls: string) {
    && cls in sch && sch[cls].versioned && sch[cls].hash !in table
    && forall i :: 0 <= i < |met| && met[i].hash == sch[cls].hash ==> met[i] == sch[cls]
  }

  lemma {:induction false} OwnVersion(sch: Schema, table: map<nat, nat>, met: seq<Class>, w: Out, o: Obj)
    requires Declares(table, met, w.table) && Known(sch, w, o) && OnItsOwn(sch, table, met, o.cls)
    ensures Seen(sch, table, met, o.cls) == sch[o.cls].version
  {
    hide KnownPart;
    var i := FirstVersionIs(met, sch[o.cls].hash);
  }

  /** Every loaded object of a versioned class, also one inside another, has the version that the
      program had for the hash of its class when the save began. Without one it has the declared
      version of the first class of that hash that was saved, and so its own if no other class
      with that hash was. */
  lemma {:induction false} VersionsRoundTrip(sch: Schema, h: Heap, table: map<nat, nat>, ds: seq<Decl>,
                                             cs: seq<Content>, depth: nat)
    requires FitsHeap(sch, h) && |h| < MSB && |sch| < MSB2 && FitsAll(sch, h, ds, cs) && Below(sch, ds, depth)
    ensures var (items, w) := SaveContents(sch, h, NewOut(table), ds, cs);
            var result := LoadContents(sch, NewIn(items), ds, depth);
            var (met, found) := WalkContents(sch, h, {}, cs);
            && result.Some? && KnownAll(sch, w, cs) && result.value.0 == Images(sch, w, cs)
            && Isomorphic(sch, h, w, result.value.1.heap) && w.ptrs.Keys == found && Declares(table, met, w.table)
            && forall o :: Known(sch, w, o) ==>
                 && Image(sch, w, o).version == Seen(sch, table, met, o.cls)
                 && (OnItsOwn(sch, table, met, o.cls) ==> Image(sch, w, o).version == sch[o.cls].version)
  {
    hide SaveContents, LoadContents, FitsAll, Below, KnownAll, Images, FitsHeap, Counts, Completes, Sync, OkSchema;
    hide WalkContents, Seen, Declares, KnownPart, Isomorphic;
    Started(sch, h, table);
    GraphRoundTrip(sch, h, table, ds, cs, depth);
    ContentsFollow(sch, h, NewOut(table), ds, cs);
    assert NewOut(table).ptrs.Keys == {};
    var w := SaveContents(sch, h, NewOut(table), ds, cs).1;
    var met := WalkContents(sch, h, {}, cs).0;
    forall o | Known(sch, w, o)
      ensures Image(sch, w, o).version == Seen(sch, table, met, o.cls)
      ensures OnItsOwn(sch, table, met, o.cls) ==> Image(sch, w, o).version == sch[o.cls].version
    {
      ImageSees(sch, table, met, w, o);
      if OnItsOwn(sch, table, met, o.cls) {
        OwnVersion(sch, table, met, w, o);
      }
    }
  }
}
