/** The reader rebuilds the saved object graph. */
module CerealRoundTrip {
  import opened Basics
  import opened CerealArchive

  // ---------- writer and reader in step

  /** The reader has an object for every id that was given out. */
  ghost predicate PtrSync(ptrs: map<nat, nat>, objs: map<nat, nat>, size: nat) {
    && size == |ptrs| && 0 !in ptrs
    && (forall id :: id in objs <==> 1 <= id <= size)
    && (forall id :: id in objs ==> objs[id] == id)
  }

  ghost predicate NameSync(ids: map<string, nat>, names: map<nat, string>) {
    && (forall name :: name in ids ==> ids[name] in names && names[ids[name]] == name)
    && (forall id :: id in names ==> id <= |ids|)
  }

  ghost predicate VersionSync(seen: set<nat>, table: map<nat, nat>, versions: map<nat, nat>) {
    versions.Keys == seen && forall hash :: hash in seen ==> hash in table && versions[hash] == table[hash]
  }

  ghost predicate Sync(w: Out, r: In) {
    PtrSync(w.ptrs, r.objs, |r.heap|) && NameSync(w.names, r.names) && VersionSync(w.seen, w.table, r.versions)
  }

  /** The reference that stands for an address. */
  function IdOf(w: Out, a: nat): nat { if a in w.ptrs then w.ptrs[a] else 0 }

  /** The loaded form of an object: the same class and numbers, the version the writer used,
      and references for its pointers. */
  function Image(sch: Schema, w: Out, o: Obj): Loaded
    decreases o, 1
  {
    var version := if o.cls in sch && sch[o.cls].versioned && sch[o.cls].hash in w.table
                   then w.table[sch[o.cls].hash] else 0;
    Loaded(o.cls, version, o.data, Images(sch, w, o.contents))
  }

  function Images(sch: Schema, w: Out, cs: seq<Content>): (parts: seq<Part>)
    decreases cs, 0
  {
    if cs == [] then [] else [ImagePart(sch, w, cs[0])] + Images(sch, w, cs[1..])
  }

  function ImagePart(sch: Schema, w: Out, c: Content): Part
    decreases c, 0
  {
    match c
    case Pointer(a) => Ref(IdOf(w, a))
    case Embedded(o) => Inner(Image(sch, w, o))
  }

  /** Every pointer in an object is registered, and so is the version of every class in it. */
  predicate Known(sch: Schema, w: Out, o: Obj)
    decreases o, 1
  {
    && (o.cls in sch && sch[o.cls].versioned ==> sch[o.cls].hash in w.table)
    && forall i :: 0 <= i < |o.contents| ==> KnownPart(sch, w, o.contents[i])
  }

  predicate KnownPart(sch: Schema, w: Out, c: Content)
    decreases c, 0
  {
    match c
    case Pointer(a) => a == 0 || a in w.ptrs
    case Embedded(o) => Known(sch, w, o)
  }

  predicate KnownAll(sch: Schema, w: Out, cs: seq<Content>) {
    forall i :: 0 <= i < |cs| ==> KnownPart(sch, w, cs[i])
  }

  lemma {:induction false} ImageStays(sch: Schema, w: Out, w': Out, o: Obj)
    requires 0 !in w'.ptrs && Grows(w, w') && Known(sch, w, o)
    ensures Known(sch, w', o) && Image(sch, w', o) == Image(sch, w, o)
    decreases o, 1
  {
    ImagesStay(sch, w, w', o.contents);
  }

  lemma {:induction false} ImagesStay(sch: Schema, w: Out, w': Out, cs: seq<Content>)
    requires 0 !in w'.ptrs && Grows(w, w') && KnownAll(sch, w, cs)
    ensures KnownAll(sch, w', cs) && Images(sch, w', cs) == Images(sch, w, cs)
    decreases cs, 0
  {
    if cs != [] {
      ImagePartStays(sch, w, w', cs[0]);
      ImagesStay(sch, w, w', cs[1..]);
      assert forall i :: 0 < i < |cs| ==> cs[i] == cs[1..][i - 1];
    }
  }

  lemma {:induction false} ImagePartStays(sch: Schema, w: Out, w': Out, c: Content)
    requires 0 !in w'.ptrs && Grows(w, w') && KnownPart(sch, w, c)
    ensures KnownPart(sch, w', c) && ImagePart(sch, w', c) == ImagePart(sch, w, c)
    decreases c, 0
  {
    if c.Embedded? {
      ImageStays(sch, w, w', c.obj);
    }
  }

  /** The objects registered between w and w' are loaded completely, behind those that were
      there before. */
  ghost predicate Completes(sch: Schema, h: Heap, w: Out, w': Out, r: In, r': In) {
    && r.heap <= r'.heap
    && forall a :: a in w'.ptrs && a !in w.ptrs ==>
         && a in h && |r.heap| < w'.ptrs[a] <= |r'.heap|
         && Known(sch, w', h[a]) && r'.heap[w'.ptrs[a] - 1] == Image(sch, w', h[a])
  }

  ghost predicate Loads(sch: Schema, h: Heap, w: Out, w': Out, r: In, r': In, rest: seq<Item>) {
    r'.items == rest && Sync(w', r') && Completes(sch, h, w, w', r, r')
  }

  lemma {:induction false} LoadsThen(sch: Schema, h: Heap, w: Out, w1: Out, w2: Out, r: In, r1: In, r2: In)
    requires Completes(sch, h, w, w1, r, r1) && Completes(sch, h, w1, w2, r1, r2)
    requires Grows(w, w1) && Grows(w1, w2) && 0 !in w2.ptrs
    ensures Completes(sch, h, w, w2, r, r2)
  {
    hide Known, Image;
    forall a | a in w2.ptrs && a !in w.ptrs
      ensures a in h && |r.heap| < w2.ptrs[a] <= |r2.heap|
      ensures Known(sch, w2, h[a]) && r2.heap[w2.ptrs[a] - 1] == Image(sch, w2, h[a])
    {
      if a in w1.ptrs {
        ImageStays(sch, w1, w2, h[a]);
      }
    }
  }

  lemma {:induction false} NothingNew(sch: Schema, h: Heap, w: Out, w': Out, r: In, r': In)
    requires w'.ptrs == w.ptrs && r'.heap == r.heap
    ensures Completes(sch, h, w, w', r, r')
  {
  }

  // ---------- the steps

  lemma {:induction false} WordsRead(r: In, data: seq<nat>, rest: seq<Item>)
    requires r.items == Words(data) + rest
    ensures ReadWords(r, |data|) == Some((data, r.(items := rest)))
    decreases |data|
  {
    if data == [] {
      assert r.items == rest;
    } else {
      var r1 := r.(items := Words(data[1..]) + rest);
      assert r.items[1..] == r1.items;
      WordsRead(r1, data[1..], rest);
      assert [data[0]] + data[1..] == data;
    }
  }

  lemma {:induction false} VersionLoads(w: Out, c: Class, r: In, rest: seq<Item>)
    requires Sync(w, r) && r.items == RegisterVersion(w, c).0 + rest
    ensures var w' := RegisterVersion(w, c).1;
            var result := LoadVersion(r, c);
            && result.Some? && c.hash in w'.table && result.value.0 == w'.table[c.hash]
            && result.value.1.items == rest && Sync(w', result.value.1)
            && result.value.1.heap == r.heap
  {
    hide PtrSync, NameSync;
    if c.hash in w.seen {
      assert r.items == rest;
    } else {
      assert r.items[1..] == rest;
    }
  }

  lemma {:induction false} NameLoads(w: Out, name: string, r: In, rest: seq<Item>)
    requires Sync(w, r) && w.nextName == |w.names| + 1 && |w.names| < MSB2 && (name !in w.names ==> w.nextName < MSB2)
    requires Numbered(w.names)
    requires var id := RegisterName(w, name).0; r.items == (if HasMsb(id) then [Text(name)] else []) + rest
    ensures var (id, w') := RegisterName(w, name);
            var result := LoadName(r, id);
            && result.Some? && result.value.0 == name
            && result.value.1.items == rest && Sync(w', result.value.1)
            && result.value.1.heap == r.heap
  {
    hide PtrSync, VersionSync;
    if name in w.names {
      NumberOf(w.names, name);
      assert r.items == rest;
    } else {
      OneMore(w.names, name, w.nextName);
      assert r.items[1..] == rest;
    }
  }

  lemma SchemaOf(sch: Schema, h: Heap, w: Out)
    requires Counts(sch, h, w)
    ensures OkSchema(sch)
  {
  }

  lemma ObjectAt(sch: Schema, h: Heap, w: Out, a: nat)
    requires Counts(sch, h, w) && a in h
    ensures OkSchema(sch) && a != 0 && FitsObj(sch, h, h[a]) && h[a].cls in sch
  {
  }

  lemma IdAt(sch: Schema, h: Heap, w: Out, a: nat)
    requires Counts(sch, h, w) && a in w.ptrs
    ensures 1 <= w.ptrs[a] <= |w.ptrs|
  {
    hide FitsHeap;
  }

  // ---------- the recursion

  lemma {:induction false} PointerLoads(sch: Schema, h: Heap, w: Out, a: nat, cls: string, r: In, rest: seq<Item>)
    requires Counts(sch, h, w) && Sync(w, r) && cls in sch && (a == 0 || (a in h && h[a].cls == cls))
    requires r.items == SavePointer(sch, h, w, a).0 + rest
    ensures var w' := SavePointer(sch, h, w, a).1;
            var result := LoadPointer(sch, r, cls);
            && result.Some? && result.value.0 == IdOf(w', a)
            && Loads(sch, h, w, w', r, result.value.1, rest)
    decreases 2 * Left(h, w)
  {
    hide FitsObj, LoadObject, SaveObject, Known, Image, NameSync, VersionSync, Left, Counts, Grows, Completes, OkSchema;
    SchemaOf(sch, h, w);
    if a != 0 {
      ObjectAt(sch, h, w, a);
    }
    PointerRegistered(sch, h, w, a);
    var (id, w1) := RegisterPointer(w, a);
    var r1 := r.(items := r.items[1..]);
    assert ReadWord(r) == Some((id, r1));
    if HasMsb(id) {
      var items := SaveObject(sch, h, w1, h[a]).0;
      assert r1.items == items + rest;
      NewPointerLoads(sch, h, w, a, r, r1, rest);
    } else {
      assert r1.items == rest;
      if a != 0 {
        IdAt(sch, h, w, a);
      }
      NothingNew(sch, h, w, w1, r, r1);
    }
  }

  lemma {:induction false} PtrSyncNew(ptrs: map<nat, nat>, objs: map<nat, nat>, size: nat, a: nat)
    requires PtrSync(ptrs, objs, size) && a !in ptrs && a != 0
    ensures PtrSync(ptrs[a := size + 1], objs[size + 1 := size + 1], size + 1)
  {
    OneMore(ptrs, a, size + 1);
  }

  /** The first time an object is met: it is registered before its members are loaded. */
  lemma {:induction false} NewPointerLoads(sch: Schema, h: Heap, w: Out, a: nat, r: In, r1: In, rest: seq<Item>)
    requires Counts(sch, h, w) && Sync(w, r) && a in h && a !in w.ptrs
    requires Counts(sch, h, RegisterPointer(w, a).1) && Left(h, RegisterPointer(w, a).1) < Left(h, w)
    requires r1 == r.(items := SaveObject(sch, h, RegisterPointer(w, a).1, h[a]).0 + rest)
    ensures var w1 := RegisterPointer(w, a).1;
            var w2 := SaveObject(sch, h, w1, h[a]).1;
            var ref := |r1.heap| + 1;
            var result := LoadObject(sch, r1.(objs := r1.objs[ref := ref], heap := r1.heap + [BLANK]), h[a].cls);
            && result.Some? && w2.ptrs[a] == ref == w1.ptrs[a]
            && Loads(sch, h, w, w2, r, result.value.1.(heap := result.value.1.heap[ref - 1 := result.value.0]), rest)
    decreases 2 * Left(h, w) - 1
  {
    hide FitsObj, LoadObject, SaveObject, Known, Image, NameSync, VersionSync, Left, PtrSync, Completes, FitsHeap,
         OkSchema;
    ObjectAt(sch, h, w, a);
    var w1 := RegisterPointer(w, a).1;
    var ref := |r1.heap| + 1;
    var r2 := r1.(objs := r1.objs[ref := ref], heap := r1.heap + [BLANK]);
    assert |r.heap| == |w.ptrs| by { PtrSyncSize(w.ptrs, r.objs, |r.heap|); }
    PtrSyncNew(w.ptrs, r.objs, |r.heap|, a);
    ObjectLoads(sch, h, w1, h[a], r2, rest);
    var w2 := SaveObject(sch, h, w1, h[a]).1;
    var (obj, r3) := LoadObject(sch, r2, h[a].cls).value;
    FilledIn(sch, h, w, w1, w2, r, r2, r3, a, obj);
  }

  lemma PtrSyncSize(ptrs: map<nat, nat>, objs: map<nat, nat>, size: nat)
    requires PtrSync(ptrs, objs, size)
    ensures size == |ptrs| && 0 !in ptrs
  {
  }

  lemma {:induction false} FilledIn(sch: Schema, h: Heap, w: Out, w1: Out, w2: Out, r: In, r2: In, r3: In, a: nat,
                                    obj: Loaded)
    requires Completes(sch, h, w1, w2, r2, r3) && Grows(w1, w2)
    requires a in h && w1.ptrs == w.ptrs[a := |r.heap| + 1] && r2.heap == r.heap + [BLANK]
    requires Known(sch, w2, h[a]) && obj == Image(sch, w2, h[a])
    ensures |r.heap| < |r3.heap| && Completes(sch, h, w, w2, r, r3.(heap := r3.heap[|r.heap| := obj]))
  {
    hide Known, Image;
    assert |r2.heap| <= |r3.heap|;
    var r4 := r3.(heap := r3.heap[|r.heap| := obj]);
    assert r.heap <= r2.heap;
    assert r.heap <= r4.heap;
  }

  /** Loading an object from its three parts. */
  lemma {:induction false} LoadObjectOf(sch: Schema, r: In, cls: string, version: nat, r1: In, data: seq<nat>, r2: In,
                                        parts: seq<Part>, r3: In)
    requires OkSchema(sch) && cls in sch
    requires (if sch[cls].versioned then LoadVersion(r, sch[cls]) else Some((0, r))) == Some((version, r1))
    requires ReadWords(r1, sch[cls].size) == Some((data, r2)) && |r2.items| <= |r.items|
    requires LoadContents(sch, r2, sch[cls].members, sch[cls].depth) == Some((parts, r3))
    ensures LoadObject(sch, r, cls) == Some((Loaded(cls, version, data, parts), r3))
  {
    hide LoadVersion, ReadWords, LoadContents;
  }

  /** The version and the numbers of an object. */
  lemma {:induction false} HeadLoads(w: Out, c: Class, data: seq<nat>, r: In, rest: seq<Item>)
    returns (number: nat, r1: In)
    requires Sync(w, r)
    requires r.items == (if c.versioned then RegisterVersion(w, c).0 else []) + (Words(data) + rest)
    ensures (if c.versioned then LoadVersion(r, c) else Some((0, r))) == Some((number, r1))
    ensures ReadWords(r1, |data|) == Some((data, r1.(items := rest))) && |rest| <= |r.items| && r1.heap == r.heap
    ensures Sync(if c.versioned then RegisterVersion(w, c).1 else w, r1.(items := rest))
    ensures if !c.versioned then number == 0 else
              var table := RegisterVersion(w, c).1.table; c.hash in table && number == table[c.hash]
  {
    hide PtrSync, NameSync, VersionSync, LoadVersion, RegisterVersion, Words, ReadWords;
    var tail := Words(data) + rest;
    number, r1 := 0, r;
    if c.versioned {
      VersionLoads(w, c, r, tail);
      number, r1 := LoadVersion(r, c).value.0, LoadVersion(r, c).value.1;
    } else {
      assert r.items == tail;
    }
    WordsRead(r1, data, rest);
  }

  lemma {:induction false} ImageIs(sch: Schema, w: Out, w': Out, o: Obj, number: nat, parts: seq<Part>)
    requires o.cls in sch && Grows(w, w') && KnownAll(sch, w', o.contents) && parts == Images(sch, w', o.contents)
    requires var c := sch[o.cls];
      if !c.versioned then number == 0 else c.hash in w.table && number == w.table[c.hash]
    ensures Known(sch, w', o) && Loaded(o.cls, number, o.data, parts) == Image(sch, w', o)
  {
    hide KnownPart, Images;
  }

  lemma {:induction false} ObjectLoads(sch: Schema, h: Heap, w: Out, o: Obj, r: In, rest: seq<Item>)
    requires Counts(sch, h, w) && Sync(w, r) && FitsObj(sch, h, o)
    requires r.items == SaveObject(sch, h, w, o).0 + rest
    ensures var w' := SaveObject(sch, h, w, o).1;
            var result := LoadObject(sch, r, o.cls);
            && result.Some? && Known(sch, w', o) && result.value.0 == Image(sch, w', o)
            && Loads(sch, h, w, w', r, result.value.1, rest)
    decreases 2 * Left(h, w) + 1, o, 3
  {
    hide LoadContents, SaveContents, PtrSync, NameSync, VersionSync, Completes, Left, LoadVersion, RegisterVersion,
         Counts, KnownPart, ImagePart, Images, FitsContent, ReadWords, Words, LoadObject, Known, Image, KnownAll;
    SchemaOf(sch, h, w);
    var c := sch[o.cls];
    VersionRegistered(sch, h, w, c);
    var (version, w1) := if c.versioned then RegisterVersion(w, c) else ([], w);
    var (items, w2) := SaveContents(sch, h, w1, c.members, o.contents);
    assert r.items == version + (Words(o.data) + (items + rest));
    var number, r1 := HeadLoads(w, c, o.data, r, items + rest);
    var r2 := r1.(items := items + rest);
    LeftShrinks(h, w, w1);
    ContentsLoad(sch, h, w1, c.members, o.contents, c.depth, r2, rest);
    var (parts, r3) := LoadContents(sch, r2, c.members, c.depth).value;
    LoadObjectOf(sch, r, o.cls, number, r1, o.data, r2, parts, r3);
    ImageIs(sch, w1, w2, o, number, parts);
    NothingNew(sch, h, w, w1, r, r2);
    PtrSyncSize(w2.ptrs, r3.objs, |r3.heap|);
    LoadsThen(sch, h, w, w1, w2, r, r2, r3);
  }

  lemma {:induction false} ContentsLoad(sch: Schema, h: Heap, w: Out, ds: seq<Decl>, cs: seq<Content>, depth: nat,
                                        r: In, rest: seq<Item>)
    requires Counts(sch, h, w) && Sync(w, r) && FitsAll(sch, h, ds, cs) && Below(sch, ds, depth)
    requires r.items == SaveContents(sch, h, w, ds, cs).0 + rest
    ensures var w' := SaveContents(sch, h, w, ds, cs).1;
            var result := LoadContents(sch, r, ds, depth);
            && result.Some? && KnownAll(sch, w', cs) && result.value.0 == Images(sch, w', cs)
            && Loads(sch, h, w, w', r, result.value.1, rest)
    decreases 2 * Left(h, w) + 1, cs, 0
  {
    hide LoadContent, SaveContent, PtrSync, NameSync, VersionSync, KnownPart, ImagePart, Completes, Left, Counts,
         FitsContent;
    SchemaOf(sch, h, w);
    if cs == [] {
      assert r.items == rest;
      NothingNew(sch, h, w, w, r, r);
    } else {
      var (first, w1) := SaveContent(sch, h, w, ds[0], cs[0]);
      LeftShrinks(h, w, w1);
      var (more, w2) := SaveContents(sch, h, w1, ds[1..], cs[1..]);
      assert r.items == first + (more + rest);
      ContentLoads(sch, h, w, ds[0], cs[0], depth, r, more + rest);
      var r1 := LoadContent(sch, r, ds[0], depth).value.1;
      ContentsLoad(sch, h, w1, ds[1..], cs[1..], depth, r1, rest);
      var r2 := LoadContents(sch, r1, ds[1..], depth).value.1;
      PtrSyncSize(w2.ptrs, r2.objs, |r2.heap|);
      ImagePartStays(sch, w1, w2, cs[0]);
      LoadsThen(sch, h, w, w1, w2, r, r1, r2);
      assert forall i :: 0 < i < |cs| ==> cs[i] == cs[1..][i - 1];
    }
  }

  lemma {:induction false} ContentLoads(sch: Schema, h: Heap, w: Out, d: Decl, c: Content, depth: nat, r: In,
                                        rest: seq<Item>)
    requires Counts(sch, h, w) && Sync(w, r) && FitsContent(sch, h, d, c)
    requires d.cls in sch && (d.Inside? ==> sch[d.cls].depth < depth)
    requires r.items == SaveContent(sch, h, w, d, c).0 + rest
    ensures var w' := SaveContent(sch, h, w, d, c).1;
            var result := LoadContent(sch, r, d, depth);
            && result.Some? && KnownPart(sch, w', c) && result.value.0 == ImagePart(sch, w', c)
            && Loads(sch, h, w, w', r, result.value.1, rest)
    decreases 2 * Left(h, w) + 1, c, 2
  {
    hide LoadPointer, SavePointer, LoadObject, SaveObject, Sync, Known, Image, Completes, Left, Counts;
    match d
    case Inside(cls) => ObjectLoads(sch, h, w, c.obj, r, rest);
    case Plain(cls) => PointerLoads(sch, h, w, c.addr, cls, r, rest);
    case Poly(cls, isAbstract) => PolyLoads(sch, h, w, d, c, depth, r, rest);
  }

  lemma {:induction false} PolyLoads(sch: Schema, h: Heap, w: Out, d: Decl, c: Content, depth: nat, r: In,
                                     rest: seq<Item>)
    requires Counts(sch, h, w) && Sync(w, r) && FitsContent(sch, h, d, c) && d.Poly? && d.cls in sch
    requires r.items == SaveContent(sch, h, w, d, c).0 + rest
    ensures var w' := SaveContent(sch, h, w, d, c).1;
            var result := LoadContent(sch, r, d, depth);
            && result.Some? && KnownPart(sch, w', c) && result.value.0 == ImagePart(sch, w', c)
            && Loads(sch, h, w, w', r, result.value.1, rest)
    decreases 2 * Left(h, w) + 1, c, 1
  {
    hide LoadPointer, SavePointer, Known, Image, FitsObj, Sync, Completes, Left, Counts, Grows, OkSchema, LoadName,
         RegisterName, HasMsb, ReadWord;
    SchemaOf(sch, h, w);
    if c.addr == 0 {
      NullLoads(sch, h, w, r, rest);
    } else {
      ObjectAt(sch, h, w, c.addr);
      NameRegistered(sch, h, w, h[c.addr].cls);
      if h[c.addr].cls == d.cls && !d.isAbstract {
        SameClassLoads(sch, h, w, c.addr, r, rest);
      } else {
        NamedLoads(sch, h, w, c.addr, r, rest);
      }
    }
  }

  lemma {:induction false} NullLoads(sch: Schema, h: Heap, w: Out, r: In, rest: seq<Item>)
    requires Sync(w, r) && r.items == [Word(0)] + rest
    ensures var r1 := r.(items := rest);
            !HasMsb2(0) && ReadWord(r) == Some((0, r1)) && IdOf(w, 0) == 0 && Loads(sch, h, w, w, r, r1, rest)
  {
    hide NameSync, VersionSync;
    assert r.items[1..] == rest;
  }

  /** A polymorphic pointer to an object of the declared class. */
  lemma {:induction false} SameClassLoads(sch: Schema, h: Heap, w: Out, a: nat, r: In, rest: seq<Item>)
    requires Counts(sch, h, w) && Sync(w, r) && a in h && a != 0 && h[a].cls in sch
    requires r.items == [Word(MSB2)] + SavePointer(sch, h, w, a).0 + rest
    ensures var w' := SavePointer(sch, h, w, a).1;
            var r1 := r.(items := r.items[1..]);
            && HasMsb2(MSB2) && OkSchema(sch) && ReadWord(r) == Some((MSB2, r1))
            && var result := LoadPointer(sch, r1, h[a].cls);
               && result.Some? && result.value.0 == IdOf(w', a) && a in w'.ptrs
               && Loads(sch, h, w, w', r, result.value.1, rest)
    decreases 2 * Left(h, w) + 1, Pointer(a), 0
  {
    hide LoadPointer, SavePointer, FitsObj, PtrSync, NameSync, VersionSync, Completes, Left, Counts, OkSchema;
    SchemaOf(sch, h, w);
    var r1 := r.(items := r.items[1..]);
    assert r1.items == SavePointer(sch, h, w, a).0 + rest;
    PointerLoads(sch, h, w, a, h[a].cls, r1, rest);
    SameStart(sch, h, w, SavePointer(sch, h, w, a).1, r1, r, LoadPointer(sch, r1, h[a].cls).value.1);
  }

  lemma SameStart(sch: Schema, h: Heap, w: Out, w': Out, r: In, r1: In, r': In)
    requires r1.heap == r.heap && Completes(sch, h, w, w', r, r')
    ensures Completes(sch, h, w, w', r1, r')
  {
  }

  /** A pointer preceded by the name of its class. */
  lemma {:induction false} NamedLoads(sch: Schema, h: Heap, w: Out, a: nat, r: In, rest: seq<Item>)
    requires Counts(sch, h, w) && Sync(w, r) && a in h && a != 0 && h[a].cls in sch
    requires var (id, w1) := RegisterName(w, h[a].cls);
             Counts(sch, h, w1) && r.items == [Word(id)] + (if HasMsb(id) then [Text(h[a].cls)] else [])
                                              + SavePointer(sch, h, w1, a).0 + rest
    ensures var (id, w1) := RegisterName(w, h[a].cls);
            var w' := SavePointer(sch, h, w1, a).1;
            var r1 := r.(items := r.items[1..]);
            && !HasMsb2(id) && id != 0 && ReadWord(r) == Some((id, r1))
            && LoadName(r1, id).Some? && LoadName(r1, id).value.0 == h[a].cls
            && var result := LoadPointer(sch, LoadName(r1, id).value.1, h[a].cls);
               && result.Some? && result.value.0 == IdOf(w', a) && a in w'.ptrs
               && Loads(sch, h, w, w', r, result.value.1, rest)
    decreases 2 * Left(h, w) + 1, Pointer(a), 0
  {
    hide LoadPointer, SavePointer, FitsObj, PtrSync, NameSync, VersionSync, Completes, Left, LoadName, FitsHeap,
         Grows, OkSchema, Numbered, HasMsb, HasMsb2;
    SchemaOf(sch, h, w);
    var name := h[a].cls;
    NameRegistered(sch, h, w, name);
    var (id, w1) := RegisterName(w, name);
    var items := SavePointer(sch, h, w1, a).0;
    var r1 := r.(items := r.items[1..]);
    var head: seq<Item> := if HasMsb(id) then [Text(name)] else [];
    assert r.items == [Word(id)] + (head + (items + rest));
    assert r1.items == head + (items + rest);
    SizeOf(w.names, sch.Keys);
    NameLoads(w, name, r1, items + rest);
    var r2 := LoadName(r1, id).value.1;
    LeftShrinks(h, w, w1);
    PointerLoads(sch, h, w1, a, name, r2, rest);
    var (w2, r3) := (SavePointer(sch, h, w1, a).1, LoadPointer(sch, r2, name).value.1);
    NothingNew(sch, h, w, w1, r, r2);
    PtrSyncSize(w2.ptrs, r3.objs, |r3.heap|);
    LoadsThen(sch, h, w, w1, w2, r, r2, r3);
  }

  // ---------- whole archives

  /** A new output archive in a program with the given versions. */
  function NewOut(table: map<nat, nat>): Out { Out(map[], 1, map[], 1, {}, table) }

  function NewIn(items: seq<Item>): In { In(map[], map[], map[], [], items) }

  /** Loaded objects and saved objects correspond one to one: equal addresses and only these
      give equal references, and every loaded object is the image of the saved one. */
  ghost predicate Isomorphic(sch: Schema, h: Heap, w: Out, heap: seq<Loaded>) {
    && |heap| == |w.ptrs| && 0 !in w.ptrs
    && (forall a :: a in w.ptrs ==>
          && a in h && 1 <= w.ptrs[a] <= |heap|
          && Known(sch, w, h[a]) && heap[w.ptrs[a] - 1] == Image(sch, w, h[a]))
    && Numbered(w.ptrs)
  }

  /** Every sequence of members saved in one archive, with all they lead to through shared,
      cyclic and polymorphic pointers, loads without an exception, uses up the stream, and
      gives an isomorphic graph in which every object sees the version the writer used. */
  lemma {:induction false} GraphRoundTrip(sch: Schema, h: Heap, table: map<nat, nat>, ds: seq<Decl>, cs: seq<Content>,
                                          depth: nat)
    requires FitsHeap(sch, h) && |h| < MSB && |sch| < MSB2 && FitsAll(sch, h, ds, cs) && Below(sch, ds, depth)
    ensures var (items, w) := SaveContents(sch, h, NewOut(table), ds, cs);
            var result := LoadContents(sch, NewIn(items), ds, depth);
            && result.Some? && result.value.1.items == []
            && KnownAll(sch, w, cs) && result.value.0 == Images(sch, w, cs)
            && Isomorphic(sch, h, w, result.value.1.heap)
            && forall hash :: hash in table ==> hash in w.table && w.table[hash] == table[hash]
  {
    hide SaveContents, LoadContents, FitsAll, Below, KnownAll, Images, Known, Image, FitsHeap;
    hide Counts, Isomorphic, Completes, Sync, OkSchema;
    var w0 := NewOut(table);
    Started(sch, h, table);
    var (items, w) := SaveContents(sch, h, w0, ds, cs);
    assert items + [] == items;
    SchemaOf(sch, h, w);
    ContentsLoad(sch, h, w0, ds, cs, depth, NewIn(items), []);
    Finished(sch, h, table, w, NewIn(items), LoadContents(sch, NewIn(items), ds, depth).value.1);
  }

  lemma {:induction false} Started(sch: Schema, h: Heap, table: map<nat, nat>)
    requires FitsHeap(sch, h) && |h| < MSB && |sch| < MSB2
    ensures Counts(sch, h, NewOut(table)) && forall items :: Sync(NewOut(table), NewIn(items))
  {
    hide FitsHeap;
  }

  lemma {:induction false} Finished(sch: Schema, h: Heap, table: map<nat, nat>, w: Out, r: In, r': In)
    requires Counts(sch, h, w) && Sync(w, r') && Completes(sch, h, NewOut(table), w, r, r')
    ensures Isomorphic(sch, h, w, r'.heap)
  {
    hide FitsHeap, Known, Image, NameSync, VersionSync;
  }

  lemma {:induction false} ImagesAt(sch: Schema, w: Out, cs: seq<Content>, i: nat)
    requires i < |cs|
    ensures |Images(sch, w, cs)| == |cs| && Images(sch, w, cs)[i] == ImagePart(sch, w, cs[i])
    decreases |cs|
  {
    hide ImagePart;
    if |cs| > 1 {
      ImagesAt(sch, w, cs[1..], if i > 0 then i - 1 else 0);
    } else {
      assert cs[1..] == [];
    }
  }

  /** Two pointers in the saved sequence load as the same reference exactly when they were
      equal, and null loads as null only. */
  lemma {:induction false} AliasingKept(sch: Schema, h: Heap, table: map<nat, nat>, ds: seq<Decl>, cs: seq<Content>,
                                        depth: nat,
                                        i: nat, j: nat)
    requires FitsHeap(sch, h) && |h| < MSB && |sch| < MSB2 && FitsAll(sch, h, ds, cs) && Below(sch, ds, depth)
    requires i < |cs| && j < |cs| && cs[i].Pointer? && cs[j].Pointer?
    ensures var result := LoadContents(sch, NewIn(SaveContents(sch, h, NewOut(table), ds, cs).0), ds, depth);
            && result.Some? && |result.value.0| == |cs|
            && (result.value.0[i] == result.value.0[j] <==> cs[i].addr == cs[j].addr)
            && (result.value.0[i] == Ref(0) <==> cs[i].addr == 0)
  {
    hide SaveContents, LoadContents, FitsHeap, FitsAll, Below, Images, Known, Image;
    GraphRoundTrip(sch, h, table, ds, cs, depth);
    var w := SaveContents(sch, h, NewOut(table), ds, cs).1;
    ImagesAt(sch, w, cs, i);
    ImagesAt(sch, w, cs, j);
    assert KnownPart(sch, w, cs[i]) && KnownPart(sch, w, cs[j]);
  }

  /** Beyond the ids that fit below the tag the scheme breaks: the id of a registered pointer
      carries the tag of a new one exactly when it is 2^31 or more. */
  lemma {:induction false} RepeatedId(w: Out, a: nat)
    requires a != 0 && a !in w.ptrs && w.nextPtr < 0x1_0000_0000
    ensures var (first, w') := RegisterPointer(w, a);
            HasMsb(first) && (HasMsb(RegisterPointer(w', a).0) <==> w.nextPtr >= MSB)
  {
  }
}
