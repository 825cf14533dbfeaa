/** Loading a module into an interpreter that may already hold others. */
module SwigInit {
  import opened Basics
  import opened SwigCasts
  import opened SwigQuery

  // ---------- filling in the casts of one type

  /** No two casts of a type are from types of one name. */
  ghost predicate DistinctNames(t: TypeInfo)
    reads t, t.casts
  {
    forall c, d :: c in t.casts && d in t.casts && c != d && c.target != null && d.target != null ==>
      c.target.name != d.target.name
  }

  ghost predicate HasCast(t: TypeInfo, name: string)
    reads t, t.casts
  {
    exists c :: c in t.casts && c.target != null && c.target.name == name
  }

  /** A cast that is in no list yet. */
  ghost predicate Unused(c: CastInfo)
    reads c
  {
    c.owner == null && c.next == null && c.prev == null && c.target != null
  }

  /** The other modules of the circle that m is in, from the one after it, and the names
      of their types. */
  ghost predicate Others(m: ModuleInfo, others: seq<ModuleInfo>, known: set<string>)
    reads m, others, Tables(others)
  {
    && m !in others && AllSorted(others) && (forall n :: n in known <==> Knows(others, n))
    && (others == [] ==> m.next == m)
    && (others != [] ==> m.next == others[0] && Segment(others, m))
  }

  /** The modules and their tables are as they were. */
  twostate predicate TablesKept(m: ModuleInfo, others: seq<ModuleInfo>)
    reads m, others, Tables(others)
  {
    && m.next == old(m.next)
    && (forall x :: x in others ==> x.next == old(x.next) && x.types[..] == old(x.types[..]))
  }

  twostate lemma TableKept(x: ModuleInfo)
    requires old(x.Sorted()) && x.types[..] == old(x.types[..])
    ensures x.Sorted() && forall n :: x.Holds(n) <==> old(x.Holds(n))
  {
    assert forall i :: 0 <= i < x.types.Length ==>
      x.types[i] == x.types[..][i] == old(x.types[..])[i] == old(x.types[i]);
  }

  twostate lemma OthersKept(circle: (ModuleInfo, seq<ModuleInfo>, set<string>))
    requires old(Others(circle.0, circle.1, circle.2))
    requires TablesKept(circle.0, circle.1)
    ensures Others(circle.0, circle.1, circle.2)
  {
    var m, others := circle.0, circle.1;
    forall x | x in others
      ensures x.Sorted() && forall n :: x.Holds(n) <==> old(x.Holds(n))
    {
      TableKept(x);
    }
    forall i | 0 <= i < |others|
      ensures LinkedAt(others, m, i)
    {
      assert old(LinkedAt(others, m, i));
      assert others[i] in others;
    }
  }

  /** The modules have no other type of the same name. */
  ghost predicate OnlyType(others: seq<ModuleInfo>, t: TypeInfo)
    reads others, Tables(others)
  {
    forall x :: x in others && x.Loaded() ==> forall u :: u in x.types[..x.size] && u.name == t.name ==> u == t
  }

  /** The only type of that name that the modules have. */
  ghost predicate Canonical(others: seq<ModuleInfo>, t: TypeInfo, name: string)
    reads others, Tables(others)
  {
    t.name == name && Registered(others, t) && OnlyType(others, t)
  }

  lemma OnlyOne(others: seq<ModuleInfo>, t: TypeInfo, u: TypeInfo, name: string)
    requires Canonical(others, t, name) && Registered(others, u) && u.name == name
    ensures t == u
  {
  }

  method Lookup(m: ModuleInfo, name: string, ghost others: seq<ModuleInfo>,
                ghost known: set<string>) returns (t: TypeInfo?)
    requires Others(m, others, known)
    ensures t != null ==> t.name == name && Registered(others, t)
    ensures t != null <==> name in known
  {
    t := null;
    if m.next != m {
      t := MangledTypeQueryModule(m.next, m, name, others);
    }
  }

  lemma EntryOf(t: TypeInfo)
    requires t.Linked()
    ensures forall c :: c in t.casts ==> c.target != null && Entry(c, c.target) in t.Entries()
    ensures forall e :: e in t.Entries() ==> e.cast in t.casts && e.target == e.cast.target
  {
    t.Owned();
    forall c | c in t.casts
      ensures Entry(c, c.target) in t.Entries()
    {
      var i :| 0 <= i < |t.casts| && t.casts[i] == c;
      assert t.Entries()[i] == Entry(c, c.target);
    }
  }

  lemma AnswerIsHasCast(t: TypeInfo, name: string)
    requires t.Linked()
    ensures Answer(t.Entries(), ByName(name)).Some? <==> HasCast(t, name)
  {
    EntryOf(t);
    var es, q := t.Entries(), ByName(name);
    RunAnswers(es, [], q);
    if HasCast(t, name) {
      var c :| c in t.casts && c.target != null && c.target.name == name;
      assert Matches(q, Entry(c, c.target));
    }
  }

  /** Whether the type has the cast; the search may reorder the list. */
  method FindCast(ty: TypeInfo, name: string) returns (found: bool)
    requires ty.Linked()
    modifies ty`cast, ty`casts, Nodes(ty)`next, Nodes(ty)`prev, Nodes(ty)`owner
    ensures ty.Linked()
    ensures (forall c :: c in old(ty.casts) ==> c in ty.casts) && (forall c :: c in ty.casts ==> c in old(ty.casts))
    ensures found <==> old(HasCast(ty, name))
    ensures forall n :: old(HasCast(ty, n)) ==> HasCast(ty, n)
  {
    hide Touch, Answer;
    AnswerIsHasCast(ty, name);
    EntryOf(ty);
    var ocast := TypeCheck(name, ty);
    EntryOf(ty);
    return ocast != null;
  }

  method PutCast(ty: TypeInfo, cast: CastInfo)
    requires ty.Linked() && DistinctNames(ty) && Unused(cast) && !HasCast(ty, cast.target.name)
    modifies ty`cast, ty`casts, Nodes(ty)`prev, cast`next, cast`owner
    ensures ty.Linked() && DistinctNames(ty)
    ensures ty.casts == [cast] + old(ty.casts)
    ensures forall n :: old(HasCast(ty, n)) ==> HasCast(ty, n)
  {
    ty.Owned();
    ty.Insert(cast);
    forall c, d | c in ty.casts && d in ty.casts && c != d && c.target != null && d.target != null
      ensures c.target.name != d.target.name
    {
      assert c == cast || c in old(ty.casts);
      assert d == cast || d in old(ty.casts);
    }
    forall n | old(HasCast(ty, n))
      ensures HasCast(ty, n)
    {
      var c :| c in old(ty.casts) && old(c.target) != null && old(c.target.name) == n;
      assert c in ty.casts;
    }
  }

  /** Adds one cast of the module to a type, its own or one it shares, unless the shared type has
      it. For a type of the module's own it leads to the type that the others have, if any. */
  method InsertCast(m: ModuleInfo, ty: TypeInfo, own: bool, cast: CastInfo, ghost others: seq<ModuleInfo>,
                    ghost known: set<string>, ghost final: TypeInfo)
    requires Others(m, others, known) && cast.target != null
    requires if own && cast.target.name in known then Canonical(others, final, cast.target.name)
      else final == cast.target
    requires ty.Linked() && DistinctNames(ty) && Unused(cast)
    requires own || cast.target.name !in known ==> !HasCast(ty, cast.target.name)
    modifies ty`cast, ty`casts, Nodes(ty)`next, Nodes(ty)`prev, Nodes(ty)`owner, cast
    ensures ty.Linked() && DistinctNames(ty)
    ensures forall c :: c in old(ty.casts) ==> c in ty.casts
    ensures forall c :: c in ty.casts ==> c == cast || c in old(ty.casts)
    ensures cast.target != null && cast.target.name == old(cast.target.name)
    ensures HasCast(ty, cast.target.name) && forall n :: old(HasCast(ty, n)) ==> HasCast(ty, n)
    ensures Others(m, others, known)
    ensures cast in ty.casts <==> !old(HasCast(ty, cast.target.name))
    ensures cast.target == final
  {
    hide Others, TypeInfo.Linked;
    ty.Owned();
    var ret := Lookup(m, cast.target.name, others, known);
    if ret != null {
      if own {
        OnlyOne(others, final, ret, cast.target.name);
        cast.target := ret;
        ret := null;
      } else {
        var found := FindCast(ty, ret.name);
        if !found {
          ret := null;
        }
      }
    }
    assert forall c :: c in ty.casts ==> c in old(ty.casts);
    assert ret == null ==> !HasCast(ty, cast.target.name);
    if ret == null {
      PutCast(ty, cast);
    }
    OthersKept((m, others, known));
  }

  lemma DistinctFrom<T>(s: seq<T>, j: nat)
    requires Distinct(s) && j < |s|
    ensures forall k :: 0 <= k < |s| && k != j ==> s[k] != s[j]
  {
  }

  /** A row of casts as a module holds them before it is loaded. */
  ghost predicate NewRow(row: seq<CastInfo>, names: seq<string>)
    reads row
  {
    && (forall k :: 0 <= k < |row| ==> Unused(row[k]))
    && Distinct(row) && NamedRow(row, names)
  }

  /** The names of the types in a row, no two the same. */
  ghost predicate NamedRow(row: seq<CastInfo>, names: seq<string>)
    reads row
  {
    && |names| == |row| && Distinct(names)
    && (forall k :: 0 <= k < |row| ==> row[k].target != null && row[k].target.name == names[k])
  }

  /** The casts of a type before those of the module come in. */
  ghost predicate CastsBefore(before: seq<CastInfo>, foreign: set<string>)
    reads before
  {
    forall c :: c in before ==> c.target != null && c.target.name in foreign
  }

  /** The names of the types that casts of a type may be from when it is resolved: none
      for a type of the module's own. */
  ghost function Foreign(own: bool, known: set<string>): set<string> {
    if own then {} else known
  }

  /** What is to become of a row of casts: the names of its types, the types they lead to in the
      end, the names that a cast of the type may have before, and those that are redirected. */
  datatype Plan = Plan(names: seq<string>, finals: seq<TypeInfo>, foreign: set<string>, redirected: set<string>)

  ghost function PlanFor(own: bool, known: set<string>, names: seq<string>, finals: seq<TypeInfo>): Plan {
    Plan(names, finals, Foreign(own, known), if own then known else {})
  }

  /** The first j casts of a row lead where they are to lead, as do those that are not redirected. */
  ghost predicate Directed(row: seq<CastInfo>, plan: Plan, j: nat)
    reads row
  {
    && |plan.names| == |plan.finals| == |row|
    && forall k :: 0 <= k < |row| && (k < j || plan.names[k] !in plan.redirected) ==> row[k].target == plan.finals[k]
  }

  /** Redirected casts are to lead to the types that the others have. */
  ghost predicate WellPlanned(others: seq<ModuleInfo>, plan: Plan)
    reads others, Tables(others)
  {
    && |plan.names| == |plan.finals|
    && forall k :: 0 <= k < |plan.names| && plan.names[k] in plan.redirected ==>
      Canonical(others, plan.finals[k], plan.names[k])
  }

  /** The first j casts of a row are in. */
  ghost predicate Inserted(ty: TypeInfo, row: seq<CastInfo>, plan: Plan, before: seq<CastInfo>, j: nat)
    requires j <= |row|
    reads ty, ty.casts, row
  {
    && ty.Linked() && DistinctNames(ty) && NamedRow(row, plan.names) && Directed(row, plan, j)
    && (forall c :: c in before ==> c in ty.casts)
    && (forall c :: c in ty.casts ==>
      c in row[..j] || (c in before && c.target != null && c.target.name in plan.foreign))
    && (forall k :: j <= k < |row| ==> Unused(row[k]))
    && Distinct(row)
    && (forall k :: 0 <= k < j ==> HasCast(ty, plan.names[k]))
  }

  /** A cast that might be in the way of the next one of a row is from a known type. */
  lemma NextIsNew(ty: TypeInfo, row: seq<CastInfo>, plan: Plan, before: seq<CastInfo>, j: nat)
    requires j < |row| && Inserted(ty, row, plan, before, j)
    ensures row[j].target.name !in plan.foreign ==> !HasCast(ty, row[j].target.name)
  {
    hide TypeInfo.Linked, DistinctNames;
    if HasCast(ty, row[j].target.name) {
      var c :| c in ty.casts && c.target != null && c.target.name == row[j].target.name;
      assert c !in row[..j];
      assert c in before;
    }
  }

  method InsertNext(m: ModuleInfo, ty: TypeInfo, own: bool, row: seq<CastInfo>, j: nat, ghost others: seq<ModuleInfo>,
                    ghost known: set<string>, ghost plan: Plan, ghost before: seq<CastInfo>)
    requires Others(m, others, known) && WellPlanned(others, plan)
    requires plan == PlanFor(own, known, plan.names, plan.finals)
    requires j < |row| && Inserted(ty, row, plan, before, j)
    modifies ty`cast, ty`casts, Nodes(ty)`next, Nodes(ty)`prev, Nodes(ty)`owner, row[j]
    ensures Others(m, others, known)
    ensures Inserted(ty, row, plan, before, j + 1)
  {
    hide TypeInfo.Linked, Others, HasCast, DistinctNames, Distinct, Canonical;
    NextIsNew(ty, row, plan, before, j);
    assert forall k :: j <= k < |row| ==> row[k] !in ty.casts by {
      ty.Owned();
    }
    DistinctFrom(row, j);
    assert row[..j + 1] == row[..j] + [row[j]];
    InsertCast(m, ty, own, row[j], others, known, plan.finals[j]);
  }

  lemma InsertedNone(ty: TypeInfo, row: seq<CastInfo>, plan: Plan)
    requires ty.Linked() && DistinctNames(ty) && CastsBefore(ty.casts, plan.foreign)
    requires NewRow(row, plan.names) && Directed(row, plan, 0)
    ensures Inserted(ty, row, plan, ty.casts, 0)
  {
  }

  lemma InsertedNodes(ty: TypeInfo, row: seq<CastInfo>, plan: Plan, before: seq<CastInfo>, j: nat)
    requires j <= |row| && Inserted(ty, row, plan, before, j)
    ensures forall c :: c in ty.casts ==> c in row || c in before
  {
  }

  /** Adds a row of casts of the module to a type. */
  method InsertCasts(m: ModuleInfo, ty: TypeInfo, own: bool, row: seq<CastInfo>, ghost others: seq<ModuleInfo>,
                     ghost known: set<string>, ghost plan: Plan)
    requires Others(m, others, known) && WellPlanned(others, plan)
    requires plan == PlanFor(own, known, plan.names, plan.finals)
    requires ty.Linked() && DistinctNames(ty) && CastsBefore(ty.casts, plan.foreign)
    requires NewRow(row, plan.names) && Directed(row, plan, 0)
    modifies ty`cast, ty`casts, Nodes(ty)`next, Nodes(ty)`prev, Nodes(ty)`owner, row
    ensures Others(m, others, known) && Inserted(ty, row, plan, old(ty.casts), |row|)
  {
    hide TypeInfo.Linked, Others, DistinctNames, Inserted, NewRow, Directed, CastsBefore;
    ghost var before := ty.casts;
    InsertedNone(ty, row, plan);
    for j := 0 to |row|
      invariant Others(m, others, known) && WellPlanned(others, plan)
      invariant Inserted(ty, row, plan, before, j)
    {
      InsertedNodes(ty, row, plan, before, j);
      InsertNext(m, ty, own, row, j, others, known, plan, before);
    }
  }

  // ---------- filling in the table of a module

  /** A module being loaded: the other modules and the names they know, the type that
      each entry of the table resolves to, the casts those types had, the names of the types
      in its rows of casts, and the types those are to lead to. */
  datatype Load = Load(m: ModuleInfo, others: seq<ModuleInfo>, known: set<string>, resolved: seq<TypeInfo>,
                       before: seq<seq<CastInfo>>, names: seq<seq<string>>, finals: seq<seq<TypeInfo>>)
  {
    ghost predicate Shape() {
      && |m.typeInitial| == m.size && |m.castInitial| == m.size && m.types.Length == m.size + 1
      && |resolved| == m.size && |before| == m.size && |names| == m.size && |finals| == m.size
      && m.types !in Tables(others)
      && (forall k :: 0 <= k < m.size ==> resolved[k].name == m.typeInitial[k].name)
      && (forall k :: 0 <= k < m.size ==> (Own(k) <==> resolved[k].name !in known))
      && (forall j, k :: 0 <= j < k < m.size ==> resolved[j] != resolved[k])
      && (forall j, k, c :: 0 <= j < k < m.size && c in m.castInitial[j] ==> c !in m.castInitial[k])
    }

    ghost predicate Own(k: nat)
      requires k < |resolved| && k < |m.typeInitial|
    {
      resolved[k] == m.typeInitial[k]
    }

    ghost function PlanAt(k: nat): Plan
      requires Shape() && k < m.size
    {
      PlanFor(Own(k), known, names[k], finals[k])
    }

    /** The entry resolves to the type the others have under its name, if there is one. */
    ghost predicate Resolves(k: nat)
      requires Shape() && k < m.size
      reads others, Tables(others)
    {
      (!Own(k) ==> Canonical(others, resolved[k], resolved[k].name)) && WellPlanned(others, PlanAt(k))
    }

    ghost predicate Ready()
      requires Shape()
      reads m, others, Tables(others)
    {
      Others(m, others, known) && forall k :: 0 <= k < m.size ==> Resolves(k)
    }

    ghost predicate Pending(k: nat)
      requires Shape() && k < m.size
      reads resolved[k], resolved[k].casts, m.castInitial[k]
    {
      && resolved[k].Linked() && DistinctNames(resolved[k]) && resolved[k].casts == before[k]
      && CastsBefore(before[k], Foreign(Own(k), known))
      && NewRow(m.castInitial[k], names[k]) && Directed(m.castInitial[k], PlanAt(k), 0)
    }

    ghost predicate Done(k: nat)
      requires Shape() && k < m.size
      reads m, m.types, resolved[k], resolved[k].casts, m.castInitial[k]
    {
      m.types[k] == resolved[k] && Inserted(resolved[k], m.castInitial[k], PlanAt(k), before[k], |m.castInitial[k]|)
    }
  }

  twostate predicate SameCast(c: CastInfo)
    reads c
  {
    c.target == old(c.target) && c.next == old(c.next) && c.prev == old(c.prev) && c.owner == old(c.owner)
  }

  twostate lemma LinkedKept(t: TypeInfo)
    requires old(t.Linked()) && unchanged(t) && forall c :: c in old(t.casts) ==> SameCast(c)
    ensures t.Linked()
  {
    forall i | 0 <= i < |t.casts|
      ensures t.LinkedAt(i)
    {
      assert old(t.LinkedAt(i));
      assert SameCast(t.casts[i]);
    }
  }

  twostate lemma PendingKept(p: (Load, nat))
    requires p.0.Shape() && p.1 < p.0.m.size && old(p.0.Pending(p.1))
    requires unchanged(p.0.resolved[p.1])
    requires forall c :: c in old(p.0.resolved[p.1].casts) ==> SameCast(c)
    requires forall c :: c in p.0.m.castInitial[p.1] ==> SameCast(c)
    ensures p.0.Pending(p.1)
  {
    LinkedKept(p.0.resolved[p.1]);
    var row := p.0.m.castInitial[p.1];
    forall k | 0 <= k < |row|
      ensures Unused(row[k]) && row[k].target == old(row[k].target)
    {
      assert old(Unused(row[k])) && SameCast(row[k]);
    }
  }

  twostate lemma DoneKept(p: (Load, nat))
    requires p.0.Shape() && p.1 < p.0.m.size && old(p.0.Done(p.1))
    requires unchanged(p.0.resolved[p.1]) && p.0.m.types[p.1] == old(p.0.m.types[p.1])
    requires forall c :: c in old(p.0.resolved[p.1].casts) ==> SameCast(c)
    requires forall c :: c in p.0.m.castInitial[p.1] ==> c.target == old(c.target)
    ensures p.0.Done(p.1)
  {
    var t := p.0.resolved[p.1];
    LinkedKept(t);
    forall k | 0 <= k < |p.0.m.castInitial[p.1]|
      ensures HasCast(t, p.0.names[p.1][k])
    {
      assert old(HasCast(t, p.0.names[p.1][k]));
    }
  }

  /** Everything but the i-th entry is as it was, when those before it are done. */
  twostate predicate RestSame(l: Load, i: nat)
    requires l.Shape() && i < l.m.size
    reads l.m, l.m.types, l.resolved, set k, c | 0 <= k < l.m.size && c in l.resolved[k].casts :: c
    reads set k, c | 0 <= k < l.m.size && c in l.m.castInitial[k] :: c
  {
    forall k :: 0 <= k < l.m.size && k != i ==>
      && unchanged(l.resolved[k]) && l.m.types[k] == old(l.m.types[k])
      && (forall c :: c in l.resolved[k].casts ==> SameCast(c))
      && (forall c :: c in l.m.castInitial[k] ==> if k < i then c.target == old(c.target) else SameCast(c))
  }

  twostate lemma RestKept(p: (Load, nat))
    requires p.0.Shape() && p.1 < p.0.m.size && RestSame(p.0, p.1)
    requires forall k :: 0 <= k < p.1 ==> old(p.0.Done(k))
    requires forall k :: p.1 < k < p.0.m.size ==> old(p.0.Pending(k))
    ensures forall k :: 0 <= k < p.1 ==> p.0.Done(k)
    ensures forall k :: p.1 < k < p.0.m.size ==> p.0.Pending(k)
  {
    hide Load.Done, Load.Pending;
    forall k | 0 <= k < p.1
      ensures p.0.Done(k)
    {
      DoneKept((p.0, k));
    }
    forall k | p.1 < k < p.0.m.size
      ensures p.0.Pending(k)
    {
      PendingKept((p.0, k));
    }
  }

  twostate lemma ReadyKept(l: Load)
    requires l.Shape() && old(l.Ready()) && TablesKept(l.m, l.others)
    ensures l.Ready()
  {
    OthersKept((l.m, l.others, l.known));
    forall k | 0 <= k < l.m.size
      ensures l.Resolves(k)
    {
      assert old(l.Resolves(k));
      if !l.Own(k) {
        CanonicalKept((l, l.resolved[k], l.resolved[k].name));
      }
      var plan := l.PlanAt(k);
      forall j | 0 <= j < |plan.names| && plan.names[j] in plan.redirected
        ensures Canonical(l.others, plan.finals[j], plan.names[j])
      {
        CanonicalKept((l, plan.finals[j], plan.names[j]));
      }
    }
  }

  twostate lemma CanonicalKept(p: (Load, TypeInfo, string))
    requires TablesKept(p.0.m, p.0.others) && old(AllSorted(p.0.others) && Canonical(p.0.others, p.1, p.2))
    ensures Canonical(p.0.others, p.1, p.2)
  {
    var x :| x in p.0.others && old(x.Loaded()) && p.1 in old(x.types[..x.size]);
    assert old(x.types[..x.size]) == old(x.types[..])[..x.size] == x.types[..x.size];
    forall x | x in p.0.others && x.Loaded()
      ensures forall u :: u in x.types[..x.size] && u.name == p.1.name ==> u == p.1
    {
      assert old(x.Sorted());
      assert old(x.types[..x.size]) == old(x.types[..])[..x.size] == x.types[..x.size];
    }
  }

  lemma FoundIsResolved(l: Load, i: nat, found: TypeInfo)
    requires l.Shape() && i < l.m.size && l.Ready() && !l.Own(i)
    requires Registered(l.others, found) && found.name == l.resolved[i].name
    ensures found == l.resolved[i]
  {
    assert l.Resolves(i);
    OnlyOne(l.others, l.resolved[i], found, found.name);
  }

  /** The client data of a type after a module was loaded: what the module brings for it, if that
      is anything, and otherwise what the type had. */
  function Merged(brought: nat, had: nat): nat { if brought != 0 then brought else had }

  /** No entry of the table brings the type that another one resolves to. */
  ghost predicate Separate(l: Load)
    requires l.Shape()
  {
    forall j, k :: 0 <= j < l.m.size && 0 <= k < l.m.size && j != k ==> l.resolved[j] != l.m.typeInitial[k]
  }

  /** The first n entries have their client data, and the others have what they had. */
  twostate predicate DataMerged(l: Load, n: nat)
    requires l.Shape()
    reads l.resolved, l.m.typeInitial
  {
    forall k :: 0 <= k < l.m.size ==>
      if k < n then
        l.resolved[k].clientdata == Merged(old(l.m.typeInitial[k].clientdata), old(l.resolved[k].clientdata))
      else
        && l.resolved[k].clientdata == old(l.resolved[k].clientdata)
        && l.m.typeInitial[k].clientdata == old(l.m.typeInitial[k].clientdata)
  }

  /** Finds the type that an entry of the table resolves to. */
  method Resolve(m: ModuleInfo, i: nat, ghost l: Load) returns (ty: TypeInfo)
    requires l.m == m && l.Shape() && i < m.size && l.Pending(i) && l.Ready()
    modifies Lists(l.resolved[i])`clientdata
    ensures ty == l.resolved[i] && l.Pending(i) && l.Ready()
    ensures ty.clientdata == Merged(old(m.typeInitial[i].clientdata), old(ty.clientdata))
  {
    hide TypeInfo.Linked, Registered, Others, Load.Resolves;
    var initial := m.typeInitial[i];
    var found := Lookup(m, initial.name, l.others, l.known);
    if found != null {
      FoundIsResolved(l, i, found);
      if initial.clientdata != 0 {
        found.Overwrite(initial.clientdata);
      }
      ty := found;
    } else {
      ty := initial;
    }
    ReadyKept(l);
  }

  method SetEntry(m: ModuleInfo, i: nat, ty: TypeInfo, ghost l: Load)
    requires l.m == m && l.Shape() && i < m.size && ty == l.resolved[i]
    requires Inserted(ty, m.castInitial[i], l.PlanAt(i), l.before[i], |m.castInitial[i]|) && l.Ready()
    modifies m.types
    ensures l.Done(i) && l.Ready()
    ensures forall k :: 0 <= k < m.types.Length && k != i ==> m.types[k] == old(m.types[k])
  {
    m.types[i] := ty;
    ReadyKept(l);
  }

  lemma ReadyPlan(l: Load, i: nat)
    requires l.Shape() && l.Ready() && i < l.m.size
    ensures WellPlanned(l.others, l.PlanAt(i))
  {
    assert l.Resolves(i);
  }

  /** Resolves one entry of the table and adds its row of casts. */
  method LoadType(m: ModuleInfo, i: nat, ghost l: Load)
    requires l.m == m && l.Shape() && i < m.size && l.Pending(i) && l.Ready()
    modifies l.resolved[i], Nodes(l.resolved[i])`next, Nodes(l.resolved[i])`prev, Nodes(l.resolved[i])`owner
    modifies m.castInitial[i], m.types
    ensures l.Done(i) && l.Ready()
    ensures forall k :: 0 <= k < m.types.Length && k != i ==> m.types[k] == old(m.types[k])
    ensures l.resolved[i].clientdata == Merged(old(m.typeInitial[i].clientdata), old(l.resolved[i].clientdata))
  {
    hide TypeInfo.Linked, Others, DistinctNames, Inserted, Load.Resolves;
    var ty := Resolve(m, i, l);
    ReadyPlan(l, i);
    InsertCasts(m, ty, ty == m.typeInitial[i], m.castInitial[i], l.others, l.known, l.PlanAt(i));
    ReadyKept(l);
    SetEntry(m, i, ty, l);
  }

  /** The type and the casts of one entry are apart from those of all others. */
  ghost predicate Apart(l: Load, i: nat)
    requires l.Shape() && i < l.m.size
    reads l.resolved
  {
    forall k :: 0 <= k < l.m.size && k != i ==>
      && l.resolved[k] != l.resolved[i]
      && (forall c :: c in l.resolved[k].casts ==> c !in l.resolved[i].casts && c !in l.m.castInitial[i])
      && (forall c :: c in l.m.castInitial[k] ==> c !in l.m.castInitial[i] && (k > i ==> c !in l.resolved[i].casts))
  }

  lemma EntriesAreApart(l: Load, i: nat)
    requires l.Shape() && i < l.m.size
    requires forall k :: 0 <= k < i ==> l.Done(k)
    requires forall k :: i <= k < l.m.size ==> l.Pending(k)
    ensures Apart(l, i)
  {
    forall k | 0 <= k < l.m.size
      ensures forall c :: c in l.resolved[k].casts ==> c.owner == l.resolved[k]
    {
      assert if k < i then l.Done(k) else l.Pending(k);
      l.resolved[k].Owned();
    }
    forall k | i <= k < l.m.size
      ensures forall c :: c in l.m.castInitial[k] ==> c.owner == null
    {
      assert l.Pending(k);
    }
  }

  method LoadApart(m: ModuleInfo, i: nat, ghost l: Load)
    requires l.m == m && l.Shape() && i < m.size && l.Ready() && l.Pending(i) && Apart(l, i)
    modifies l.resolved[i], Nodes(l.resolved[i])`next, Nodes(l.resolved[i])`prev, Nodes(l.resolved[i])`owner
    modifies m.castInitial[i], m.types
    ensures l.Ready() && l.Done(i) && RestSame(l, i)
    ensures l.resolved[i].clientdata == Merged(old(m.typeInitial[i].clientdata), old(l.resolved[i].clientdata))
  {
    assert |l.resolved| == m.size == |m.castInitial| && m.types.Length == m.size + 1;
    hide Load.Done, Load.Pending, Load.Ready, Load.Shape;
    LoadType(m, i, l);
    forall k | 0 <= k < m.size && k != i
      ensures unchanged(l.resolved[k]) && (forall c :: c in l.resolved[k].casts ==> SameCast(c))
      ensures forall c :: c in m.castInitial[k] ==> if k < i then c.target == old(c.target) else SameCast(c)
    {
    }
  }

  method LoadNext(m: ModuleInfo, i: nat, ghost l: Load)
    requires l.m == m && l.Shape() && i < m.size && l.Ready()
    requires forall k :: 0 <= k < i ==> l.Done(k)
    requires forall k :: i <= k < m.size ==> l.Pending(k)
    modifies l.resolved[i], Nodes(l.resolved[i])`next, Nodes(l.resolved[i])`prev, Nodes(l.resolved[i])`owner
    modifies m.castInitial[i], m.types
    ensures l.Ready()
    ensures l.resolved[i].clientdata == Merged(old(m.typeInitial[i].clientdata), old(l.resolved[i].clientdata))
    ensures forall k :: 0 <= k <= i ==> l.Done(k)
    ensures forall k :: i < k < m.size ==> l.Pending(k)
  {
    EntriesAreApart(l, i);
    hide Load.Done, Load.Pending, Load.Ready, RestSame;
    LoadApart(m, i, l);
    RestKept((l, i));
  }

  ghost function Members(rows: seq<seq<CastInfo>>): set<CastInfo> {
    set row, c | row in rows && c in row :: c
  }

  lemma EntryFrame(l: Load, i: nat)
    requires l.Shape() && i < l.m.size && l.Pending(i)
    ensures l.resolved[i] in l.resolved && Nodes(l.resolved[i]) <= Members(l.before)
    ensures forall c :: c in l.m.castInitial[i] ==> c in Members(l.m.castInitial)
  {
    assert l.before[i] in l.before && l.m.castInitial[i] in l.m.castInitial;
  }

  /** Fills in the table of a module and adds all its casts. */
  method FillTable(m: ModuleInfo, ghost l: Load)
    requires l.m == m && l.Shape() && l.Ready() && Separate(l) && forall k :: 0 <= k < m.size ==> l.Pending(k)
    modifies l.resolved, m.types
    modifies Members(l.before), Members(m.castInitial)
    ensures DataMerged(l, m.size)
    ensures l.Ready() && m.types[m.size] == null && forall k :: 0 <= k < m.size ==> l.Done(k)
  {
    hide Load.Done, Load.Ready, Load.Pending, Members;
    for i := 0 to m.size
      invariant l.Ready() && DataMerged(l, i)
      invariant forall k :: 0 <= k < i ==> l.Done(k)
      invariant forall k :: i <= k < m.size ==> l.Pending(k)
    {
      EntryFrame(l, i);
      LoadNext(m, i, l);
    }
    EndTable(m, l);
  }

  method EndTable(m: ModuleInfo, ghost l: Load)
    requires l.m == m && l.Shape() && l.Ready() && forall k :: 0 <= k < m.size ==> l.Done(k)
    modifies m.types
    ensures l.Ready() && m.types[m.size] == null && forall k :: 0 <= k < m.size ==> l.Done(k)
  {
    m.types[m.size] := null;
    ReadyKept(l);
    forall k | 0 <= k < m.size
      ensures l.Done(k)
    {
      DoneKept((l, k));
    }
  }
}
