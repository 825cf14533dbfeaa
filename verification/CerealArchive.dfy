/** Object graphs in an archive: shared pointers with ids, names of polymorphic types and
    class versions, as the writer emits them and the reader takes them from one stream. */
module CerealArchive {

  import opened Basics

  // ---------- 32-bit ids

  const MSB: nat := 0x8000_0000
  const MSB2: nat := 0x4000_0000

  /** `id | msb_32bit` */
  function Tag(id: nat): nat { if id >= MSB then id else id + MSB }

  predicate HasMsb(id: nat) { id >= MSB }

  predicate HasMsb2(id: nat) { id / MSB2 % 2 == 1 }

  /** `id & ~msb_32bit` */
  function Strip(id: nat): nat { if id >= MSB then id - MSB else id }

  function Increment(id: nat): nat { (id + 1) % 0x1_0000_0000 }

  lemma SmallId(id: nat)
    requires id < MSB
    ensures !HasMsb(id) && HasMsb(Tag(id)) && Strip(Tag(id)) == id && Strip(id) == id && Increment(id) == id + 1
  {
  }

  /** The tags as bits of a 32-bit word: the one of a new id leaves all lower bits as they are, and
      the second one is set in two of the four quarters. */
  lemma {:induction false} TagBits(id: nat)
    requires id < 0x1_0000_0000
    ensures HasMsb(Tag(id)) && Tag(id) < 0x1_0000_0000 && Tag(id) % MSB == id % MSB == Strip(id)
    ensures HasMsb2(id) <==> MSB2 <= id < MSB || MSB + MSB2 <= id
  {
    assert id / MSB2 == (if id < MSB2 then 0 else if id < MSB then 1 else if id < MSB + MSB2 then 2 else 3);
  }

  lemma SmallNameId(id: nat)
    requires 0 < id < MSB2
    ensures !HasMsb2(id) && !HasMsb2(Tag(id)) && Tag(id) != 0
  {
  }

  // ---------- classes and objects

  /** The declared type of a member: a pointer to a class without virtual functions, a pointer
      to a polymorphic class (which may be abstract), or an object stored in place. */
  datatype Decl = Plain(cls: string) | Poly(cls: string, isAbstract: bool) | Inside(cls: string)

  /** A class: hash and version of its type, whether it is versioned, how many numbers it
      holds, and its other members; depth is larger than that of any class stored inside. */
  datatype Class = Class(hash: nat, version: nat, versioned: bool, size: nat, members: seq<Decl>, depth: nat)

  type Schema = map<string, Class>

  ghost predicate OkSchema(sch: Schema) {
    forall cls, i {:trigger sch[cls].members[i]} :: cls in sch && 0 <= i < |sch[cls].members| ==>
      var d := sch[cls].members[i]; d.cls in sch && (d.Inside? ==> sch[d.cls].depth < sch[cls].depth)
  }

  datatype Content = Pointer(addr: nat) | Embedded(obj: Obj)

  datatype Obj = Obj(cls: string, data: seq<nat>, contents: seq<Content>)

  /** The objects to save, by address; 0 is the null pointer. */
  type Heap = map<nat, Obj>

  predicate FitsObj(sch: Schema, h: Heap, o: Obj)
    decreases o, 1
  {
    && o.cls in sch && |o.data| == sch[o.cls].size && |o.contents| == |sch[o.cls].members|
    && forall i :: 0 <= i < |o.contents| ==> FitsContent(sch, h, sch[o.cls].members[i], o.contents[i])
  }

  predicate FitsContent(sch: Schema, h: Heap, d: Decl, c: Content)
    decreases c, 0
  {
    match d
    case Inside(cls) => c.Embedded? && c.obj.cls == cls && FitsObj(sch, h, c.obj)
    case Plain(cls) => c.Pointer? && (c.addr == 0 || (c.addr in h && h[c.addr].cls == cls))
    case Poly(cls, isAbstract) =>
      c.Pointer? && (c.addr == 0 || (c.addr in h && (isAbstract ==> h[c.addr].cls != cls)))
  }

  ghost predicate FitsHeap(sch: Schema, h: Heap) {
    OkSchema(sch) && 0 !in h && forall a :: a in h ==> FitsObj(sch, h, h[a])
  }

  // ---------- the writer

  datatype Item = Word(n: nat) | Text(s: string)

  /** What an output archive keeps, and the version table of the program. */
  datatype Out = Out(ptrs: map<nat, nat>, nextPtr: nat, names: map<string, nat>, nextName: nat,
                     seen: set<nat>, table: map<nat, nat>)

  function RegisterPointer(w: Out, a: nat): (nat, Out) {
    if a == 0 then (0, w)
    else if a in w.ptrs then (w.ptrs[a], w)
    else (Tag(w.nextPtr), w.(ptrs := w.ptrs[a := w.nextPtr], nextPtr := Increment(w.nextPtr)))
  }

  function RegisterName(w: Out, name: string): (nat, Out) {
    if name in w.names then (w.names[name], w)
    else (Tag(w.nextName), w.(names := w.names[name := w.nextName], nextName := Increment(w.nextName)))
  }

  /** The first version that is registered for a hash stays. */
  function FindVersion(table: map<nat, nat>, hash: nat, version: nat): (r: (nat, map<nat, nat>))
    ensures r.1.Keys == table.Keys + {hash} && r.0 == r.1[hash] && (hash in table ==> r.1 == table)
    ensures hash !in table ==> r.0 == version && forall k :: k in table ==> r.1[k] == table[k]
  {
    if hash in table then (table[hash], table) else (version, table[hash := version])
  }

  function RegisterVersion(w: Out, c: Class): (seq<Item>, Out) {
    var (version, table) := FindVersion(w.table, c.hash, c.version);
    (if c.hash in w.seen then [] else [Word(version)], w.(seen := w.seen + {c.hash}, table := table))
  }

  function Words(data: seq<nat>): (items: seq<Item>)
    ensures |items| == |data|
  {
    if data == [] then [] else [Word(data[0])] + Words(data[1..])
  }

  /** The ids are in step with the number of entries, and small enough for their tags. */
  ghost predicate Counts(sch: Schema, h: Heap, w: Out) {
    && FitsHeap(sch, h) && |h| < MSB && |sch| < MSB2
    && w.ptrs.Keys <= h.Keys && w.nextPtr == |w.ptrs| + 1 && Numbered(w.ptrs)
    && w.names.Keys <= sch.Keys && w.nextName == |w.names| + 1 && Numbered(w.names)
    && w.seen <= w.table.Keys
  }

  /** The keys have different numbers from 1 on. */
  ghost predicate Numbered<K(!new)>(ids: map<K, nat>) {
    && (forall k :: k in ids ==> 1 <= ids[k] <= |ids|)
    && (forall k, k' :: k in ids && k' in ids && ids[k] == ids[k'] ==> k == k')
  }

  /** Nothing that was registered changes. */
  ghost predicate Grows(w: Out, w': Out) {
    && (forall a :: a in w.ptrs ==> a in w'.ptrs && w'.ptrs[a] == w.ptrs[a])
    && (forall name :: name in w.names ==> name in w'.names && w'.names[name] == w.names[name])
    && w.seen <= w'.seen
    && (forall hash :: hash in w.table ==> hash in w'.table && w'.table[hash] == w.table[hash])
  }

  /** How many objects are not saved yet. */
  ghost function Left(h: Heap, w: Out): nat { |h.Keys - w.ptrs.Keys| }

  lemma {:induction false} SizeOf<K, V>(m: map<K, V>, keys: set<K>)
    requires m.Keys <= keys
    ensures |m| <= |keys| && (m.Keys != keys ==> |m| < |keys|)
  {
    assert m.Keys + (keys - m.Keys) == keys;
    assert |m| == |m.Keys|;
  }

  lemma {:induction false} OneMore<K, V>(m: map<K, V>, k: K, v: V)
    requires k !in m
    ensures |m[k := v]| == |m| + 1
  {
    assert m[k := v].Keys == m.Keys + {k};
    assert |m[k := v]| == |m[k := v].Keys|;
  }

  lemma {:induction false} NumberedOn<K(!new)>(ids: map<K, nat>, k: K)
    requires Numbered(ids) && k !in ids
    ensures Numbered(ids[k := |ids| + 1]) && |ids[k := |ids| + 1]| == |ids| + 1
  {
    OneMore(ids, k, |ids| + 1);
  }

  lemma NumberOf<K(!new)>(ids: map<K, nat>, k: K)
    requires Numbered(ids) && k in ids
    ensures 1 <= ids[k] <= |ids|
  {
  }

  lemma PointerGrows(w: Out, a: nat)
    ensures Grows(w, RegisterPointer(w, a).1)
  {
    hide Tag, Increment;
  }

  lemma {:induction false} PointerRegistered(sch: Schema, h: Heap, w: Out, a: nat)
    requires Counts(sch, h, w) && (a == 0 || a in h)
    ensures var (id, w') := RegisterPointer(w, a);
            && Counts(sch, h, w') && Grows(w, w') && (a == 0 || a in w'.ptrs)
            && (HasMsb(id) <==> a != 0 && a !in w.ptrs)
            && (HasMsb(id) ==> Left(h, w') < Left(h, w) && Strip(id) == |w.ptrs| + 1)
  {
    hide Counts, Left, Tag, HasMsb, Strip, Increment, Grows;
    PointerGrows(w, a);
    SmallId(0);
    if a != 0 && a in w.ptrs {
      KnownPointer(sch, h, w, a);
    } else if a != 0 {
      NewPointer(sch, h, w, a);
      LeftDrops(h, w, RegisterPointer(w, a).1, a);
    }
  }

  lemma {:induction false} KnownPointer(sch: Schema, h: Heap, w: Out, a: nat)
    requires Counts(sch, h, w) && a in w.ptrs
    ensures !HasMsb(w.ptrs[a])
  {
    hide FitsHeap, Numbered;
    SizeOf(w.ptrs, h.Keys);
    NumberOf(w.ptrs, a);
  }

  lemma {:induction false} NewPointer(sch: Schema, h: Heap, w: Out, a: nat)
    requires Counts(sch, h, w) && a in h && a !in w.ptrs && a != 0
    ensures var (id, w') := RegisterPointer(w, a);
            Counts(sch, h, w') && HasMsb(id) && Strip(id) == |w.ptrs| + 1
  {
    hide FitsHeap, Numbered, Tag, HasMsb, Strip, Increment;
    assert |w.ptrs| < |h| by { SizeOf(w.ptrs, h.Keys); }
    SmallId(w.nextPtr);
    NumberedOn(w.ptrs, a);
  }

  lemma {:induction false} LeftDrops(h: Heap, w: Out, w': Out, a: nat)
    requires a in h && a !in w.ptrs && w'.ptrs.Keys == w.ptrs.Keys + {a}
    ensures Left(h, w') < Left(h, w)
  {
    assert h.Keys - w'.ptrs.Keys == (h.Keys - w.ptrs.Keys) - {a};
  }

  lemma {:induction false} NameRegistered(sch: Schema, h: Heap, w: Out, name: string)
    requires Counts(sch, h, w) && name in sch
    ensures var (id, w') := RegisterName(w, name);
            && Counts(sch, h, w') && Grows(w, w') && w'.ptrs == w.ptrs && name in w'.names
            && (HasMsb(id) <==> name !in w.names) && !HasMsb2(id) && id != 0
            && Strip(id) == w'.names[name]
  {
    hide FitsHeap, Numbered, Tag, HasMsb, HasMsb2, Strip, Increment;
    SizeOf(w.names, sch.Keys);
    if name !in w.names {
      SmallId(w.nextName);
      SmallNameId(w.nextName);
      NumberedOn(w.names, name);
    } else {
      NumberOf(w.names, name);
      SmallId(w.names[name]);
      SmallNameId(w.names[name]);
    }
  }

  lemma {:induction false} VersionRegistered(sch: Schema, h: Heap, w: Out, c: Class)
    requires Counts(sch, h, w)
    ensures var w' := RegisterVersion(w, c).1;
            && Counts(sch, h, w') && Grows(w, w') && w'.ptrs == w.ptrs && w'.names == w.names
            && w'.seen == w.seen + {c.hash} && w'.table.Keys == w.table.Keys + {c.hash}
            && w'.table[c.hash] == (if c.hash in w.table then w.table[c.hash] else c.version)
  {
    hide FitsHeap, Numbered;
  }

  lemma GrowsOn(w: Out, w': Out, w'': Out)
    requires Grows(w, w') && Grows(w', w'')
    ensures Grows(w, w'')
  {
  }

  lemma {:induction false} LeftShrinks(h: Heap, w: Out, w': Out)
    requires Grows(w, w')
    ensures Left(h, w') <= Left(h, w)
  {
    Subset(h.Keys - w'.ptrs.Keys, h.Keys - w.ptrs.Keys);
  }

  lemma {:induction false} Subset<T>(a: set<T>, b: set<T>)
    requires a <= b
    ensures |a| <= |b|
  {
    assert b == a + (b - a);
  }

  /** What a save writes and how the archive is left. */
  ghost predicate Saves(sch: Schema, h: Heap, w: Out, r: (seq<Item>, Out)) {
    Counts(sch, h, r.1) && Grows(w, r.1)
  }

  /** A pointer: its id, and the object behind it the first time. */
  ghost function SavePointer(sch: Schema, h: Heap, w: Out, a: nat): (r: (seq<Item>, Out))
    requires Counts(sch, h, w) && (a == 0 || a in h)
    ensures Saves(sch, h, w, r) && (a == 0 || a in r.1.ptrs)
    decreases 2 * Left(h, w)
  {
    PointerRegistered(sch, h, w, a);
    var (id, w1) := RegisterPointer(w, a);
    if HasMsb(id) then
      var (items, w2) := SaveObject(sch, h, w1, h[a]);
      GrowsOn(w, w1, w2);
      ([Word(id)] + items, w2)
    else ([Word(id)], w1)
  }

  /** The version of a versioned class the first time, the numbers, and the other members. */
  ghost function SaveObject(sch: Schema, h: Heap, w: Out, o: Obj): (r: (seq<Item>, Out))
    requires Counts(sch, h, w) && FitsObj(sch, h, o)
    ensures Saves(sch, h, w, r)
    decreases 2 * Left(h, w) + 1, o
  {
    var c := sch[o.cls];
    VersionRegistered(sch, h, w, c);
    var (version, w1) := if c.versioned then RegisterVersion(w, c) else ([], w);
    var (items, w2) := SaveContents(sch, h, w1, c.members, o.contents);
    GrowsOn(w, w1, w2);
    (version + (Words(o.data) + items), w2)
  }

  ghost predicate FitsAll(sch: Schema, h: Heap, ds: seq<Decl>, cs: seq<Content>) {
    |ds| == |cs| && forall i :: 0 <= i < |cs| ==> FitsContent(sch, h, ds[i], cs[i])
  }

  ghost function SaveContents(sch: Schema, h: Heap, w: Out, ds: seq<Decl>, cs: seq<Content>): (r: (seq<Item>, Out))
    requires Counts(sch, h, w) && FitsAll(sch, h, ds, cs)
    ensures Saves(sch, h, w, r)
    decreases 2 * Left(h, w) + 1, cs
  {
    if cs == [] then ([], w) else
      var (first, w1) := SaveContent(sch, h, w, ds[0], cs[0]);
      LeftShrinks(h, w, w1);
      var (more, w2) := SaveContents(sch, h, w1, ds[1..], cs[1..]);
      GrowsOn(w, w1, w2);
      (first + more, w2)
  }

  /** A polymorphic pointer is preceded by 0 when it is null, by the second highest bit when
      the object has the declared class, and otherwise by the id of its class name, with the
      name itself the first time. */
  ghost function SaveContent(sch: Schema, h: Heap, w: Out, d: Decl, c: Content): (r: (seq<Item>, Out))
    requires Counts(sch, h, w) && FitsContent(sch, h, d, c)
    ensures Saves(sch, h, w, r) && (c.Pointer? && c.addr != 0 ==> c.addr in r.1.ptrs)
    decreases 2 * Left(h, w) + 1, c
  {
    match d
    case Inside(_) => SaveObject(sch, h, w, c.obj)
    case Plain(_) => SavePointer(sch, h, w, c.addr)
    case Poly(cls, isAbstract) =>
      if c.addr == 0 then ([Word(0)], w)
      else if h[c.addr].cls == cls && !isAbstract then
        var (items, w1) := SavePointer(sch, h, w, c.addr);
        ([Word(MSB2)] + items, w1)
      else
        var name := h[c.addr].cls;
        NameRegistered(sch, h, w, name);
        var (id, w1) := RegisterName(w, name);
        var (items, w2) := SavePointer(sch, h, w1, c.addr);
        GrowsOn(w, w1, w2);
        ([Word(id)] + (if HasMsb(id) then [Text(name)] else []) + items, w2)
  }

  // ---------- the reader

  datatype Part = Ref(id: nat) | Inner(obj: Loaded)

  /** A loaded object with the version that was in force. */
  datatype Loaded = Loaded(cls: string, version: nat, data: seq<nat>, parts: seq<Part>)

  /** What an input archive keeps, the objects allocated so far (reference n is the n-th of
      them, 0 is null), and the rest of the stream. */
  datatype In = In(objs: map<nat, nat>, names: map<nat, string>, versions: map<nat, nat>,
                   heap: seq<Loaded>, items: seq<Item>)

  /** The reader after a step, None when it throws. */
  predicate Reads<T>(r: In, result: Option<(T, In)>) {
    result.Some? ==> |result.value.1.items| <= |r.items| && |r.heap| <= |result.value.1.heap|
  }

  function ReadWord(r: In): (result: Option<(nat, In)>)
    ensures Reads(r, result) && (result.Some? ==> |result.value.1.items| < |r.items|)
  {
    if r.items != [] && r.items[0].Word? then Some((r.items[0].n, r.(items := r.items[1..]))) else None
  }

  function ReadWords(r: In, n: nat): (result: Option<(seq<nat>, In)>)
    ensures Reads(r, result)
    decreases n
  {
    if n == 0 then Some(([], r)) else
      match ReadWord(r)
      case None => None
      case Some((d, r1)) =>
        match ReadWords(r1, n - 1)
        case None => None
        case Some((ds, r2)) => Some(([d] + ds, r2))
  }

  function LoadVersion(r: In, c: Class): (result: Option<(nat, In)>)
    ensures Reads(r, result)
  {
    if c.hash in r.versions then Some((r.versions[c.hash], r)) else
      match ReadWord(r)
      case None => None
      case Some((version, r1)) => Some((version, r1.(versions := r1.versions[c.hash := version])))
  }

  /** The name behind a tagged or known id of a polymorphic type. */
  function LoadName(r: In, id: nat): (result: Option<(string, In)>)
    ensures Reads(r, result)
  {
    if HasMsb(id) then
      if r.items != [] && r.items[0].Text? then
        var name := r.items[0].s;
        var names := if Strip(id) in r.names then r.names else r.names[Strip(id) := name];
        Some((name, r.(names := names, items := r.items[1..])))
      else None
    else if id in r.names then Some((r.names[id], r))
    else None
  }

  const BLANK: Loaded := Loaded("", 0, [], [])

  function LoadPointer(sch: Schema, r: In, cls: string): (result: Option<(nat, In)>)
    requires OkSchema(sch) && cls in sch
    ensures Reads(r, result) && (result.Some? ==> |result.value.1.items| < |r.items|)
    decreases |r.items|, 0, 0
  {
    match ReadWord(r)
    case None => None
    case Some((id, r1)) =>
      if HasMsb(id) then
        var ref := |r1.heap| + 1;
        var r2 := r1.(objs := r1.objs[Strip(id) := ref], heap := r1.heap + [BLANK]);
        match LoadObject(sch, r2, cls)
        case None => None
        case Some((obj, r3)) => Some((ref, r3.(heap := r3.heap[ref - 1 := obj])))
      else if id == 0 then Some((0, r1))
      else if id in r1.objs then Some((r1.objs[id], r1))
      else None
  }

  function LoadObject(sch: Schema, r: In, cls: string): (result: Option<(Loaded, In)>)
    requires OkSchema(sch) && cls in sch
    ensures Reads(r, result)
    decreases |r.items|, sch[cls].depth, |sch[cls].members| + 2
  {
    var c := sch[cls];
    match if c.versioned then LoadVersion(r, c) else Some((0, r))
    case None => None
    case Some((version, r1)) =>
      match ReadWords(r1, c.size)
      case None => None
      case Some((data, r2)) =>
        match LoadContents(sch, r2, c.members, c.depth)
        case None => None
        case Some((parts, r3)) => Some((Loaded(cls, version, data, parts), r3))
  }

  ghost predicate Below(sch: Schema, ds: seq<Decl>, depth: nat) {
    forall i :: 0 <= i < |ds| ==> ds[i].cls in sch && (ds[i].Inside? ==> sch[ds[i].cls].depth < depth)
  }

  function LoadContents(sch: Schema, r: In, ds: seq<Decl>, depth: nat): (result: Option<(seq<Part>, In)>)
    requires OkSchema(sch) && Below(sch, ds, depth)
    ensures Reads(r, result)
    decreases |r.items|, depth, |ds| + 1
  {
    if ds == [] then Some(([], r)) else
      match LoadContent(sch, r, ds[0], depth)
      case None => None
      case Some((part, r1)) =>
        match LoadContents(sch, r1, ds[1..], depth)
        case None => None
        case Some((parts, r2)) => Some(([part] + parts, r2))
  }

  function AsRef(result: Option<(nat, In)>): Option<(Part, In)> {
    match result
    case None => None
    case Some((id, r)) => Some((Ref(id), r))
  }

  function LoadContent(sch: Schema, r: In, d: Decl, depth: nat): (result: Option<(Part, In)>)
    requires OkSchema(sch) && d.cls in sch && (d.Inside? ==> sch[d.cls].depth < depth)
    ensures Reads(r, result)
    decreases |r.items|, depth, 1
  {
    match d
    case Inside(cls) =>
      (match LoadObject(sch, r, cls)
       case None => None
       case Some((obj, r1)) => Some((Inner(obj), r1)))
    case Plain(cls) => AsRef(LoadPointer(sch, r, cls))
    case Poly(cls, isAbstract) =>
      match ReadWord(r)
      case None => None
      case Some((id, r1)) =>
        if HasMsb2(id) then
          if isAbstract then None else AsRef(LoadPointer(sch, r1, cls))
        else if id == 0 then Some((Ref(0), r1))
        else
          match LoadName(r1, id)
          case None => None
          case Some((name, r2)) =>
            if name in sch then AsRef(LoadPointer(sch, r2, name)) else None
  }
}
