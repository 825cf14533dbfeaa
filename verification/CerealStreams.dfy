/** The archives as objects: the maps and counters they update, and the drivers that save and
    load pointers and objects through them. */
module CerealStreams {
  import opened Basics
  import opened CerealArchive

  /** The version table of the program, shared by its archives. */
  class Versions {
    var mapping: map<nat, nat>

    constructor (mapping: map<nat, nat>)
      ensures this.mapping == mapping
    {
      this.mapping := mapping;
    }

    /** Keeps the version that was stored first. */
    method Find(hash: nat, version: nat) returns (v: nat)
      modifies this
      ensures v == if hash in old(mapping) then old(mapping)[hash] else version
      ensures mapping == old(mapping)[hash := v]
    {
      if hash !in mapping {
        mapping := mapping[hash := version];
      }
      v := mapping[hash];
    }
  }

  class OutputArchive {
    const versions: Versions
    var sharedPointerMap: map<nat, nat>
    var currentPointerId: nat
    var polymorphicTypeMap: map<string, nat>
    var currentPolymorphicTypeId: nat
    var versionedTypes: set<nat>
    var stream: seq<Item>

    function Now(): Out
      reads this, versions
    {
      Out(sharedPointerMap, currentPointerId, polymorphicTypeMap, currentPolymorphicTypeId, versionedTypes,
          versions.mapping)
    }

    constructor (versions: Versions)
      ensures this.versions == versions && stream == []
      ensures Now() == Out(map[], 1, map[], 1, {}, versions.mapping)
    {
      this.versions := versions;
      sharedPointerMap, currentPointerId := map[], 1;
      polymorphicTypeMap, currentPolymorphicTypeId := map[], 1;
      versionedTypes, stream := {}, [];
    }

    method Write(item: Item)
      modifies this`stream
      ensures stream == old(stream) + [item]
    {
      stream := stream + [item];
    }

    method RegisterSharedPointer(addr: nat) returns (id: nat)
      modifies this`sharedPointerMap, this`currentPointerId
      ensures (id, Now()) == RegisterPointer(old(Now()), addr)
    {
      if addr == 0 {
        return 0;
      }
      if addr !in sharedPointerMap {
        var ptrId := currentPointerId;
        currentPointerId := Increment(currentPointerId);
        sharedPointerMap := sharedPointerMap[addr := ptrId];
        return Tag(ptrId);
      }
      id := sharedPointerMap[addr];
    }

    method RegisterPolymorphicType(name: string) returns (id: nat)
      modifies this`polymorphicTypeMap, this`currentPolymorphicTypeId
      ensures (id, Now()) == RegisterName(old(Now()), name)
    {
      if name !in polymorphicTypeMap {
        var polyId := currentPolymorphicTypeId;
        currentPolymorphicTypeId := Increment(currentPolymorphicTypeId);
        polymorphicTypeMap := polymorphicTypeMap[name := polyId];
        return Tag(polyId);
      }
      id := polymorphicTypeMap[name];
    }

    /** The version in force for a class, written the first time its hash is met. */
    method RegisterClassVersion(c: Class) returns (version: nat)
      modifies this`versionedTypes, this`stream, versions
      ensures Now() == RegisterVersion(old(Now()), c).1
      ensures stream == old(stream) + RegisterVersion(old(Now()), c).0
      ensures c.hash in Now().table && version == Now().table[c.hash]
    {
      var inserted := c.hash !in versionedTypes;
      versionedTypes := versionedTypes + {c.hash};
      version := versions.Find(c.hash, c.version);
      if inserted {
        Write(Word(version));
      }
    }

    method SavePtr(sch: Schema, h: Heap, a: nat)
      requires Counts(sch, h, Now()) && (a == 0 || a in h)
      modifies this, versions
      ensures stream == old(stream) + SavePointer(sch, h, old(Now()), a).0
      ensures Now() == SavePointer(sch, h, old(Now()), a).1
      decreases 2 * Left(h, Now())
    {
      hide SaveObject, Counts, Left, Tag, HasMsb;
      PointerRegistered(sch, h, Now(), a);
      var id := RegisterSharedPointer(a);
      Write(Word(id));
      if HasMsb(id) {
        assert FitsObj(sch, h, h[a]) by { FitsAt(sch, h, old(Now()), a); }
        SaveObj(sch, h, h[a]);
      }
    }

    static lemma FitsAt(sch: Schema, h: Heap, w: Out, a: nat)
      requires Counts(sch, h, w) && a in h
      ensures FitsObj(sch, h, h[a])
    {
    }

    method SaveObj(sch: Schema, h: Heap, o: Obj)
      requires Counts(sch, h, Now()) && FitsObj(sch, h, o)
      modifies this, versions
      ensures stream == old(stream) + SaveObject(sch, h, old(Now()), o).0
      ensures Now() == SaveObject(sch, h, old(Now()), o).1
      decreases 2 * Left(h, Now()) + 1, o
    {
      hide SaveContents, Counts, Left, RegisterVersion;
      var c := sch[o.cls];
      ghost var w := Now();
      VersionRegistered(sch, h, w, c);
      if c.versioned {
        var version := RegisterClassVersion(c);
      }
      LeftShrinks(h, w, Now());
      SaveNumbers(o.data);
      SaveAll(sch, h, c.members, o.contents);
    }

    method SaveNumbers(data: seq<nat>)
      modifies this`stream
      ensures stream == old(stream) + Words(data)
    {
      for i := 0 to |data|
        invariant stream + Words(data[i..]) == old(stream) + Words(data)
      {
        assert data[i..][1..] == data[i + 1..];
        Write(Word(data[i]));
      }
    }

    /** The members, one after the other. */
    method SaveAll(sch: Schema, h: Heap, ds: seq<Decl>, cs: seq<Content>)
      requires Counts(sch, h, Now()) && FitsAll(sch, h, ds, cs)
      modifies this, versions
      ensures stream == old(stream) + SaveContents(sch, h, old(Now()), ds, cs).0
      ensures Now() == SaveContents(sch, h, old(Now()), ds, cs).1
      decreases 2 * Left(h, Now()) + 1, cs
    {
      hide SaveContent, Counts, Left;
      if cs != [] {
        ghost var w := Now();
        SaveOne(sch, h, ds[0], cs[0]);
        LeftShrinks(h, w, Now());
        SaveAll(sch, h, ds[1..], cs[1..]);
      }
    }

    method SaveOne(sch: Schema, h: Heap, d: Decl, c: Content)
      requires Counts(sch, h, Now()) && FitsContent(sch, h, d, c)
      modifies this, versions
      ensures stream == old(stream) + SaveContent(sch, h, old(Now()), d, c).0
      ensures Now() == SaveContent(sch, h, old(Now()), d, c).1
      decreases 2 * Left(h, Now()) + 1, c
    {
      hide SavePointer, SaveObject, Counts, Left, RegisterName, HasMsb;
      match d
      case Inside(_) => SaveObj(sch, h, c.obj);
      case Plain(_) => SavePtr(sch, h, c.addr);
      case Poly(cls, isAbstract) =>
        if c.addr == 0 {
          Write(Word(0));
        } else if h[c.addr].cls == cls && !isAbstract {
          Write(Word(MSB2));
          SavePtr(sch, h, c.addr);
        } else {
          FitsAt(sch, h, Now(), c.addr);
          SaveNamed(sch, h, c.addr);
        }
    }

    /** A pointer with the name of its class. */
    method SaveNamed(sch: Schema, h: Heap, a: nat)
      requires Counts(sch, h, Now()) && a in h && h[a].cls in sch
      modifies this, versions
      ensures var (id, w) := RegisterName(old(Now()), h[a].cls);
              && Counts(sch, h, w)
              && stream == old(stream) + ([Word(id)] + (if HasMsb(id) then [Text(h[a].cls)] else [])
                   + SavePointer(sch, h, w, a).0)
              && Now() == SavePointer(sch, h, w, a).1
      decreases 2 * Left(h, Now()) + 1, Pointer(a), 0
    {
      hide SavePointer, Counts, Left, RegisterName, HasMsb;
      ghost var w := Now();
      var name := h[a].cls;
      NameRegistered(sch, h, w, name);
      var id := RegisterPolymorphicType(name);
      Write(Word(id));
      if HasMsb(id) {
        Write(Text(name));
      }
      LeftShrinks(h, w, Now());
      SavePtr(sch, h, a);
    }
  }

  class InputArchive {
    var sharedPointerMap: map<nat, nat>
    var polymorphicTypeMap: map<nat, string>
    var versionedTypes: map<nat, nat>
    /** The objects that were allocated, in that order. */
    var heap: seq<Loaded>
    var stream: seq<Item>

    function Now(): In
      reads this
    {
      In(sharedPointerMap, polymorphicTypeMap, versionedTypes, heap, stream)
    }

    constructor (stream: seq<Item>)
      ensures Now() == In(map[], map[], map[], [], stream)
    {
      sharedPointerMap, polymorphicTypeMap, versionedTypes, heap := map[], map[], map[], [];
      this.stream := stream;
    }

    /** The object registered for an id; throws when there is none. */
    method GetSharedPointer(id: nat) returns (ref: Option<nat>)
      ensures ref == if id == 0 then Some(0) else if id in sharedPointerMap then Some(sharedPointerMap[id]) else None
    {
      if id == 0 {
        return Some(0);
      }
      if id !in sharedPointerMap {
        return None;
      }
      ref := Some(sharedPointerMap[id]);
    }

    method RegisterSharedPointer(id: nat, ref: nat)
      modifies this`sharedPointerMap
      ensures sharedPointerMap == old(sharedPointerMap)[Strip(id) := ref]
    {
      var strippedId := Strip(id);
      sharedPointerMap := sharedPointerMap[strippedId := ref];
    }

    method GetPolymorphicName(id: nat) returns (name: Option<string>)
      ensures name == if id in polymorphicTypeMap then Some(polymorphicTypeMap[id]) else None
    {
      if id !in polymorphicTypeMap {
        return None;
      }
      name := Some(polymorphicTypeMap[id]);
    }

    /** A name that is there already stays. */
    method RegisterPolymorphicName(id: nat, name: string)
      modifies this`polymorphicTypeMap
      ensures polymorphicTypeMap == if Strip(id) in old(polymorphicTypeMap) then old(polymorphicTypeMap)
                                    else old(polymorphicTypeMap)[Strip(id) := name]
    {
      var strippedId := Strip(id);
      if strippedId !in polymorphicTypeMap {
        polymorphicTypeMap := polymorphicTypeMap[strippedId := name];
      }
    }

    /** A number from the stream; throws at the end of the stream. */
    method NextWord() returns (n: Option<nat>)
      modifies this`stream
      ensures Agrees(ReadWord(old(Now())), n, Now())
    {
      if stream == [] || !stream[0].Word? {
        return None;
      }
      n := Some(stream[0].n);
      stream := stream[1..];
    }

    method LoadClassVersion(c: Class) returns (version: Option<nat>)
      modifies this`stream, this`versionedTypes
      ensures Agrees(LoadVersion(old(Now()), c), version, Now())
    {
      if c.hash in versionedTypes {
        return Some(versionedTypes[c.hash]);
      }
      version := NextWord();
      if version.Some? {
        versionedTypes := versionedTypes[c.hash := version.value];
      }
    }

    method LoadNumbers(n: nat) returns (data: Option<seq<nat>>)
      modifies this`stream
      ensures Agrees(ReadWords(old(Now()), n), data, Now())
    {
      hide ReadWord;
      if n == 0 {
        return Some([]);
      }
      var d := NextWord();
      if d == None {
        return None;
      }
      var ds := LoadNumbers(n - 1);
      if ds == None {
        return None;
      }
      data := Some([d.value] + ds.value);
    }

    method LoadPtr(sch: Schema, cls: string) returns (ref: Option<nat>)
      requires OkSchema(sch) && cls in sch
      modifies this
      ensures Agrees(LoadPointer(sch, old(Now()), cls), ref, Now())
      decreases |stream|, 0, 0
    {
      hide LoadObject, HasMsb, Strip, OkSchema;
      var id := NextWord();
      if id == None {
        return None;
      }
      if !HasMsb(id.value) {
        ref := GetSharedPointer(id.value);
        return;
      }
      heap := heap + [BLANK];
      var fresh' := |heap|;
      RegisterSharedPointer(id.value, fresh');
      var obj := LoadObj(sch, cls);
      if obj == None {
        return None;
      }
      heap := heap[fresh' - 1 := obj.value];
      ref := Some(fresh');
    }

    method LoadObj(sch: Schema, cls: string) returns (obj: Option<Loaded>)
      requires OkSchema(sch) && cls in sch
      modifies this
      ensures Agrees(LoadObject(sch, old(Now()), cls), obj, Now())
      decreases |stream|, sch[cls].depth, |sch[cls].members| + 2
    {
      hide LoadContents, LoadVersion, ReadWords;
      var c := sch[cls];
      var version := Some(0);
      if c.versioned {
        version := LoadClassVersion(c);
      }
      if version == None {
        return None;
      }
      var data := LoadNumbers(c.size);
      if data == None {
        return None;
      }
      var parts := LoadAll(sch, c.members, c.depth);
      if parts == None {
        return None;
      }
      obj := Some(Loaded(cls, version.value, data.value, parts.value));
    }

    method LoadAll(sch: Schema, ds: seq<Decl>, depth: nat) returns (parts: Option<seq<Part>>)
      requires OkSchema(sch) && Below(sch, ds, depth)
      modifies this
      ensures Agrees(LoadContents(sch, old(Now()), ds, depth), parts, Now())
      decreases |stream|, depth, |ds| + 1
    {
      hide LoadContent, OkSchema;
      if ds == [] {
        return Some([]);
      }
      var first := LoadOne(sch, ds[0], depth);
      if first == None {
        return None;
      }
      var more := LoadAll(sch, ds[1..], depth);
      if more == None {
        return None;
      }
      parts := Some([first.value] + more.value);
    }

    method LoadOne(sch: Schema, d: Decl, depth: nat) returns (part: Option<Part>)
      requires OkSchema(sch) && d.cls in sch && (d.Inside? ==> sch[d.cls].depth < depth)
      modifies this
      ensures Agrees(LoadContent(sch, old(Now()), d, depth), part, Now())
      decreases |stream|, depth, 1
    {
      hide LoadPointer, LoadObject, OkSchema, HasMsb, HasMsb2, Strip, ReadWord;
      match d
      case Inside(cls) =>
        var obj := LoadObj(sch, cls);
        part := if obj.Some? then Some(Inner(obj.value)) else None;
      case Plain(cls) =>
        var ref := LoadPtr(sch, cls);
        part := if ref.Some? then Some(Ref(ref.value)) else None;
      case Poly(cls, isAbstract) =>
        var id := NextWord();
        if id == None {
          return None;
        }
        if HasMsb2(id.value) {
          if isAbstract {
            return None;
          }
          var ref := LoadPtr(sch, cls);
          return if ref.Some? then Some(Ref(ref.value)) else None;
        }
        if id.value == 0 {
          return Some(Ref(0));
        }
        var name := NextName(id.value);
        if name == None || name.value !in sch {
          return None;
        }
        var ref := LoadPtr(sch, name.value);
        part := if ref.Some? then Some(Ref(ref.value)) else None;
    }

    method NextName(id: nat) returns (name: Option<string>)
      modifies this`stream, this`polymorphicTypeMap
      ensures Agrees(LoadName(old(Now()), id), name, Now())
    {
      if HasMsb(id) {
        if stream == [] || !stream[0].Text? {
          return None;
        }
        name := Some(stream[0].s);
        stream := stream[1..];
        RegisterPolymorphicName(id, name.value);
      } else {
        name := GetPolymorphicName(id);
      }
    }
  }

  /** A reading routine gives the value and leaves the state of the function, or throws. */
  predicate Agrees<T(==)>(result: Option<(T, In)>, answer: Option<T>, now: In) {
    if result.Some? then answer == Some(result.value.0) && now == result.value.1 else answer == None
  }
}
