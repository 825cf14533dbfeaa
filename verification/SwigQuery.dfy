/** Modules in a circular list, each with a table of types sorted by mangled name. */
module SwigQuery {
  import opened Basics
  import opened SwigNames
  import opened SwigCasts

  class ModuleInfo {
    const size: nat
    const types: array<TypeInfo?>
    const typeInitial: seq<TypeInfo>
    const castInitial: seq<seq<CastInfo>>
    var next: ModuleInfo?

    constructor (typeInitial: seq<TypeInfo>, castInitial: seq<seq<CastInfo>>)
      ensures this.typeInitial == typeInitial && this.castInitial == castInitial
      ensures size == |typeInitial| && next == null && fresh(types) && types.Length == size + 1
    {
      this.typeInitial, this.castInitial, size := typeInitial, castInitial, |typeInitial|;
      types := new TypeInfo?[|typeInitial| + 1](_ => null);
      next := null;
    }

    /** The table holds a type in every place. */
    ghost predicate Loaded()
      reads this, types
    {
      size < types.Length && forall i :: 0 <= i < size ==> types[i] != null
    }

    ghost predicate Sorted()
      reads this, types
    {
      Loaded() && forall i, j :: 0 <= i < j < size ==> Before(types[i].name, types[j].name)
    }

    ghost predicate Holds(name: string)
      reads this, types
    {
      Loaded() && exists i :: 0 <= i < size && types[i].name == name
    }

    /** Binary search of the table. */
    method FindMangled(name: string) returns (t: TypeInfo?)
      requires Loaded()
      ensures t != null ==> t in types[..size] && t.name == name
      ensures Sorted() ==> (t != null <==> Holds(name))
    {
      if size == 0 {
        return null;
      }
      var l, r := 0, size - 1;
      while l <= r
        invariant 0 <= l <= size && 0 <= r < size
        invariant Sorted() ==> forall k :: 0 <= k < size && types[k].name == name ==> l <= k <= r
        decreases r + 1 - l
      {
        var i := (l + r) / 2;
        var iname := types[i].name;
        BeforeTotal(name, iname);
        if name == iname {
          return types[i];
        } else if Before(name, iname) {
          if Sorted() { NotFrom(name, i); }
          if i == 0 {
            break;
          }
          r := i - 1;
        } else {
          if Sorted() { NotUpTo(name, i); }
          l := i + 1;
        }
      }
      return null;
    }

    lemma NotFrom(name: string, i: nat)
      requires Sorted() && i < size && Before(name, types[i].name)
      ensures forall k :: i <= k < size ==> types[k].name != name
    {
      forall k | i <= k < size
        ensures types[k].name != name
      {
        if types[k].name == name {
          if k > i { BeforeTransitive(name, types[i].name, types[k].name); }
          BeforeIrreflexive(name);
        }
      }
    }

    lemma NotUpTo(name: string, i: nat)
      requires Sorted() && i < size && Before(types[i].name, name)
      ensures forall k :: 0 <= k <= i ==> types[k].name != name
    {
      forall k | 0 <= k <= i
        ensures types[k].name != name
      {
        if types[k].name == name {
          if k < i { BeforeTransitive(types[k].name, types[i].name, name); }
          BeforeIrreflexive(name);
        }
      }
    }
  }

  // ---------- the circular list

  /** The modules from the first of them up to, but not including, `end`; the whole
      circle when `end` is the first. */
  ghost predicate Segment(seg: seq<ModuleInfo>, end: ModuleInfo)
    reads seg
  {
    && seg != [] && end !in seg[1..]
    && (forall i :: 0 <= i < |seg| ==> LinkedAt(seg, end, i))
  }

  ghost predicate LinkedAt(seg: seq<ModuleInfo>, end: ModuleInfo, i: nat)
    requires i < |seg|
    reads seg
  {
    seg[i].next == if i + 1 < |seg| then seg[i + 1] else end
  }

  ghost function Tables(seg: seq<ModuleInfo>): set<array<TypeInfo?>> {
    set m | m in seg :: m.types
  }

  ghost predicate AllLoaded(seg: seq<ModuleInfo>)
    reads seg, Tables(seg)
  {
    forall m :: m in seg ==> m.Loaded()
  }

  ghost predicate AllSorted(seg: seq<ModuleInfo>)
    reads seg, Tables(seg)
  {
    forall m :: m in seg ==> m.Sorted()
  }

  ghost predicate Knows(seg: seq<ModuleInfo>, name: string)
    reads seg, Tables(seg)
  {
    exists m :: m in seg && m.Holds(name)
  }

  ghost predicate Registered(seg: seq<ModuleInfo>, t: TypeInfo)
    reads seg, Tables(seg)
  {
    exists m :: m in seg && m.Loaded() && t in m.types[..m.size]
  }

  /** Searches the tables of a segment by mangled name. */
  method MangledTypeQueryModule(start: ModuleInfo, end: ModuleInfo, name: string, ghost seg: seq<ModuleInfo>)
    returns (t: TypeInfo?)
    requires Segment(seg, end) && seg[0] == start && AllLoaded(seg)
    ensures t != null ==> t.name == name && Registered(seg, t)
    ensures AllSorted(seg) ==> (t != null <==> Knows(seg, name))
  {
    var iter := start;
    ghost var i := 0;
    while true
      invariant 0 <= i < |seg| && iter == seg[i]
      invariant AllSorted(seg) ==> forall k :: 0 <= k < i ==> !seg[k].Holds(name)
      decreases |seg| - i
    {
      t := iter.FindMangled(name);
      if t != null {
        return;
      }
      assert i + 1 < |seg| ==> seg[i + 1] == seg[1..][i];
      assert LinkedAt(seg, end, i);
      iter := iter.next;
      i := i + 1;
      if iter == end { break; }
    }
    assert i == |seg|;
  }

  /** Whether one of the readable names of a type is the name, up to blanks. */
  ghost predicate IsReadable(t: TypeInfo, name: string) {
    t.str.Some? && exists n :: n in Names(t.str.value) && Same(n, name)
  }

  /** Readable names as the tables hold them. */
  predicate CleanNames(t: TypeInfo) {
    t.str.Some? ==> '\0' !in t.str.value && forall n :: n in Names(t.str.value) ==> !TrailingBlank(n)
  }

  ghost predicate AllClean(seg: seq<ModuleInfo>)
    requires AllLoaded(seg)
    reads seg, Tables(seg)
  {
    forall m :: m in seg ==> forall i :: 0 <= i < m.size ==> CleanNames(m.types[i])
  }

  /** Searches the tables of a segment by mangled name, then by readable name. */
  method TypeQueryModule(start: ModuleInfo, end: ModuleInfo, name: string, ghost seg: seq<ModuleInfo>)
    returns (t: TypeInfo?)
    requires Segment(seg, end) && seg[0] == start && AllLoaded(seg) && AllClean(seg)
    requires '\0' !in name
    ensures t != null ==> Registered(seg, t) && (t.name == name || IsReadable(t, name))
    ensures AllSorted(seg) && Knows(seg, name) ==> t != null && t.name == name
    ensures AllSorted(seg) ==>
      (t != null <==> Knows(seg, name) || exists u :: Registered(seg, u) && IsReadable(u, name))
  {
    t := MangledTypeQueryModule(start, end, name, seg);
    if t == null {
      t := ReadableTypeQueryModule(start, end, name, seg);
    }
  }

  method ReadableTypeQueryModule(start: ModuleInfo, end: ModuleInfo, name: string, ghost seg: seq<ModuleInfo>)
    returns (t: TypeInfo?)
    requires Segment(seg, end) && seg[0] == start && AllLoaded(seg) && AllClean(seg)
    requires '\0' !in name
    ensures t != null ==> Registered(seg, t) && IsReadable(t, name)
    ensures t == null ==> forall u :: Registered(seg, u) ==> !IsReadable(u, name)
  {
    hide IsReadable, CleanNames, Names, Same;
    var iter := start;
    ghost var i := 0;
    while true
      invariant 0 <= i < |seg| && iter == seg[i]
      invariant forall k :: 0 <= k < i ==> NotReadable(seg[k], name)
      decreases |seg| - i
    {
      t := FindReadable(iter, name);
      if t != null {
        return;
      }
      assert i + 1 < |seg| ==> seg[i + 1] == seg[1..][i];
      assert LinkedAt(seg, end, i);
      iter := iter.next;
      i := i + 1;
      if iter == end { break; }
    }
    assert i == |seg|;
    forall u | Registered(seg, u)
      ensures !IsReadable(u, name)
    {
      var m :| m in seg && m.Loaded() && u in m.types[..m.size];
      var k :| 0 <= k < |seg| && seg[k] == m;
      assert NotReadable(seg[k], name);
    }
  }

  ghost predicate NotReadable(m: ModuleInfo, name: string)
    requires m.Loaded()
    reads m, m.types
  {
    forall k :: 0 <= k < m.size ==> !IsReadable(m.types[k], name)
  }

  method FindReadable(m: ModuleInfo, name: string) returns (t: TypeInfo?)
    requires m.Loaded() && '\0' !in name
    requires forall k :: 0 <= k < m.size ==> CleanNames(m.types[k])
    ensures t != null ==> t in m.types[..m.size] && IsReadable(t, name)
    ensures t == null ==> NotReadable(m, name)
  {
    for i := 0 to m.size
      invariant forall k :: 0 <= k < i ==> !IsReadable(m.types[k], name)
    {
      var ty := m.types[i];
      if ty.str.Some? {
        var equiv := TypeCmp(ty.str.value, name);
        if equiv == 0 {
          return ty;
        }
      }
    }
    return null;
  }
}
