/** The registry of an interpreter: a circle of modules that share one type per name. */
module SwigRegistry {
  import opened Basics
  import opened SwigCasts
  import opened SwigQuery
  import opened SwigInit

  // ---------- what every loading keeps

  ghost function NamesOf(pool: set<TypeInfo>): set<string> {
    set t | t in pool :: t.name
  }

  ghost function Casts(pool: set<TypeInfo>): set<CastInfo>
    reads pool
  {
    set t, c | t in pool && c in t.casts :: c
  }

  /** A type whose casts are in order and all from types of known names. */
  ghost predicate TypeOk(t: TypeInfo, known: set<string>)
    reads t, t.casts
  {
    t.Linked() && DistinctNames(t) && CastsBefore(t.casts, known)
  }

  /** The tables are sorted and hold exactly the types of the pool. */
  ghost predicate Pooled(ring: seq<ModuleInfo>, pool: set<TypeInfo>)
    reads ring, Tables(ring)
  {
    && AllSorted(ring)
    && (forall x, i :: x in ring && 0 <= i < x.size ==> x.types[i] in pool)
    && (forall t :: t in pool ==> Registered(ring, t))
  }

  ghost predicate OneTypePerName(pool: set<TypeInfo>) {
    forall t, u :: t in pool && u in pool && t.name == u.name ==> t == u
  }

  ghost predicate Registry(ring: seq<ModuleInfo>, pool: set<TypeInfo>)
    reads ring, Tables(ring), pool, Casts(pool)
  {
    && Pooled(ring, pool) && OneTypePerName(pool)
    && forall t :: t in pool ==>
      assert forall c :: c in t.casts ==> c in Casts(pool);
      TypeOk(t, NamesOf(pool))
  }

  lemma KnownNames(ring: seq<ModuleInfo>, pool: set<TypeInfo>)
    requires Pooled(ring, pool)
    ensures forall n :: n in NamesOf(pool) <==> Knows(ring, n)
    ensures forall t :: t in pool <==> Registered(ring, t)
  {
    forall n | n in NamesOf(pool)
      ensures Knows(ring, n)
    {
      var t :| t in pool && t.name == n;
      var x :| x in ring && x.Loaded() && t in x.types[..x.size];
      assert x.Holds(n);
    }
    forall n | Knows(ring, n)
      ensures n in NamesOf(pool)
    {
      var x :| x in ring && x.Holds(n);
      var i :| 0 <= i < x.size && x.types[i].name == n;
      assert x.types[i] in pool;
    }
  }

  // ---------- a module before it is loaded

  /** The type of the pool with the name of the given one, or else that one. */
  ghost function Resolved(pool: set<TypeInfo>, t: TypeInfo): (r: TypeInfo)
    ensures r.name == t.name
    ensures t.name in NamesOf(pool) ==> r in pool
    ensures t.name !in NamesOf(pool) ==> r == t
  {
    if t.name in NamesOf(pool) then
      assert exists u :: u in pool && u.name == t.name;
      var u :| u in pool && u.name == t.name; u
    else t
  }

  ghost function TargetNames(row: seq<CastInfo>): (names: seq<string>)
    reads row
    ensures |names| == |row| && forall k :: 0 <= k < |row| && row[k].target != null ==> names[k] == row[k].target.name
  {
    if row == [] then [] else [if row[0].target == null then "" else row[0].target.name] + TargetNames(row[1..])
  }

  /** The tables of a module that was not loaded before, apart from those of the circle. */
  ghost predicate NewModule(m: ModuleInfo, ring: seq<ModuleInfo>, pool: set<TypeInfo>)
    reads m.typeInitial, Members(m.castInitial)
  {
    && m !in ring && m.types !in Tables(ring)
    && |m.typeInitial| == m.size && |m.castInitial| == m.size && m.types.Length == m.size + 1
    && (forall i, j :: 0 <= i < j < m.size ==> Before(m.typeInitial[i].name, m.typeInitial[j].name))
    && (forall t :: t in m.typeInitial ==> t !in pool && t.cast == null && t.casts == [])
    && (forall row :: row in m.castInitial ==>
      assert forall c :: c in row ==> c in Members(m.castInitial);
      NewCasts(m, row))
    && (forall j, k, c :: 0 <= j < k < m.size && c in m.castInitial[j] ==> c !in m.castInitial[k])
  }

  ghost predicate NewCasts(m: ModuleInfo, row: seq<CastInfo>)
    reads row
  {
    && (forall c :: c in row ==> Unused(c) && c.target in m.typeInitial)
    && NewRow(row, TargetNames(row))
  }

  ghost function ResolvedAll(pool: set<TypeInfo>, ts: seq<TypeInfo>): (rs: seq<TypeInfo>)
    ensures |rs| == |ts| && forall k :: 0 <= k < |ts| ==> rs[k] == Resolved(pool, ts[k])
  {
    seq(|ts|, k requires 0 <= k < |ts| => Resolved(pool, ts[k]))
  }

  ghost function CastsOf(ts: seq<TypeInfo>): (rows: seq<seq<CastInfo>>)
    reads ts
    ensures |rows| == |ts| && forall k :: 0 <= k < |ts| ==> rows[k] == ts[k].casts
  {
    if ts == [] then [] else [ts[0].casts] + CastsOf(ts[1..])
  }

  ghost function RowNames(rows: seq<seq<CastInfo>>): (names: seq<seq<string>>)
    reads Members(rows)
    ensures |names| == |rows| && forall k :: 0 <= k < |rows| ==> names[k] == TargetNames(rows[k])
  {
    if rows == [] then [] else
      assert rows[0] in rows && forall c :: c in rows[0] ==> c in Members(rows);
      assert Members(rows[1..]) <= Members(rows);
      [TargetNames(rows[0])] + RowNames(rows[1..])
  }

  /** Where the casts of a row lead in the end: for a type of the module's own to the types of the
      pool, for a shared one to those of the module. */
  ghost function Finals(pool: set<TypeInfo>, own: bool, row: seq<CastInfo>): (ts: seq<TypeInfo>)
    requires forall c :: c in row ==> c.target != null
    reads row
    ensures |ts| == |row|
    ensures forall k :: 0 <= k < |row| ==> ts[k] == if own then Resolved(pool, row[k].target) else row[k].target
  {
    if row == [] then [] else
      [if own then Resolved(pool, row[0].target) else row[0].target] + Finals(pool, own, row[1..])
  }

  ghost function AllFinals(pool: set<TypeInfo>, ts: seq<TypeInfo>, rows: seq<seq<CastInfo>>): (fs: seq<seq<TypeInfo>>)
    requires |ts| == |rows| && forall c :: c in Members(rows) ==> c.target != null
    reads Members(rows)
    ensures |fs| == |rows|
    ensures forall k :: 0 <= k < |rows| ==> fs[k] == Finals(pool, ts[k].name !in NamesOf(pool), rows[k])
  {
    if rows == [] then [] else
      assert rows[0] in rows && forall c :: c in rows[0] ==> c in Members(rows);
      assert Members(rows[1..]) <= Members(rows);
      [Finals(pool, ts[0].name !in NamesOf(pool), rows[0])] + AllFinals(pool, ts[1..], rows[1..])
  }

  lemma TargetsInModule(m: ModuleInfo, others: seq<ModuleInfo>, pool: set<TypeInfo>)
    requires NewModule(m, others, pool)
    ensures forall c :: c in Members(m.castInitial) ==> c.target in m.typeInitial
  {
    forall c | c in Members(m.castInitial)
      ensures c.target in m.typeInitial
    {
      var row :| row in m.castInitial && c in row;
      assert NewCasts(m, row);
    }
  }

  /** The loading of a new module next to the others. */
  ghost function LoadOf(m: ModuleInfo, others: seq<ModuleInfo>, pool: set<TypeInfo>): Load
    requires NewModule(m, others, pool)
    reads m.typeInitial, Members(m.castInitial), pool
  {
    var resolved := ResolvedAll(pool, m.typeInitial);
    assert forall c :: c in Members(m.castInitial) ==> c.target in m.typeInitial by {
      TargetsInModule(m, others, pool);
    }
    Load(m, others, NamesOf(pool), resolved, CastsOf(resolved), RowNames(m.castInitial),
         AllFinals(pool, m.typeInitial, m.castInitial))
  }

  lemma ShapeOfLoad(m: ModuleInfo, others: seq<ModuleInfo>, pool: set<TypeInfo>)
    requires NewModule(m, others, pool)
    ensures LoadOf(m, others, pool).Shape()
  {
    var l := LoadOf(m, others, pool);
    forall k | 0 <= k < m.size
      ensures l.resolved[k].name == m.typeInitial[k].name && (l.Own(k) <==> l.resolved[k].name !in l.known)
    {
      assert m.typeInitial[k] in m.typeInitial;
    }
    forall j, k | 0 <= j < k < m.size
      ensures l.resolved[j] != l.resolved[k]
    {
      BeforeIrreflexive(m.typeInitial[j].name);
    }
  }

  lemma FinalsDirected(pool: set<TypeInfo>, own: bool, row: seq<CastInfo>)
    requires forall c :: c in row ==> c.target != null
    ensures Directed(row, PlanFor(own, NamesOf(pool), TargetNames(row), Finals(pool, own, row)), 0)
  {
    hide NamesOf;
  }

  lemma PendingType(m: ModuleInfo, others: seq<ModuleInfo>, pool: set<TypeInfo>, k: nat)
    requires NewModule(m, others, pool) && Registry(others, pool) && k < m.size && LoadOf(m, others, pool).Shape()
    ensures var l := LoadOf(m, others, pool);
      && l.resolved[k].Linked() && DistinctNames(l.resolved[k]) && l.resolved[k].casts == l.before[k]
      && CastsBefore(l.before[k], Foreign(l.Own(k), l.known))
  {
    var l := LoadOf(m, others, pool);
    var t := m.typeInitial[k];
    assert t in m.typeInitial;
    if t.name in NamesOf(pool) {
      assert TypeOk(l.resolved[k], NamesOf(pool));
    }
  }

  lemma PendingLoad(m: ModuleInfo, others: seq<ModuleInfo>, pool: set<TypeInfo>, k: nat)
    requires NewModule(m, others, pool) && Registry(others, pool) && k < m.size && LoadOf(m, others, pool).Shape()
    ensures LoadOf(m, others, pool).Pending(k)
  {
    PendingType(m, others, pool, k);
    var l := LoadOf(m, others, pool);
    var row := m.castInitial[k];
    assert row in m.castInitial && NewCasts(m, row);
    hide Registry, NamesOf, Directed, Finals, DistinctNames, TypeInfo.Linked, CastsBefore;
    FinalsDirected(pool, l.Own(k), row);
  }

  lemma PoolIsCanonical(others: seq<ModuleInfo>, pool: set<TypeInfo>, t: TypeInfo)
    requires Pooled(others, pool) && OneTypePerName(pool) && t in pool
    ensures Canonical(others, t, t.name)
  {
    KnownNames(others, pool);
    forall x, u | x in others && x.Loaded() && u in x.types[..x.size] && u.name == t.name
      ensures u == t
    {
      assert Registered(others, u);
    }
  }

  lemma FinalsPlanned(others: seq<ModuleInfo>, pool: set<TypeInfo>, own: bool, row: seq<CastInfo>)
    requires Pooled(others, pool) && OneTypePerName(pool) && forall c :: c in row ==> c.target != null
    ensures WellPlanned(others, PlanFor(own, NamesOf(pool), TargetNames(row), Finals(pool, own, row)))
  {
    var plan := PlanFor(own, NamesOf(pool), TargetNames(row), Finals(pool, own, row));
    forall k | 0 <= k < |plan.names| && plan.names[k] in plan.redirected
      ensures Canonical(others, plan.finals[k], plan.names[k])
    {
      PoolIsCanonical(others, pool, Resolved(pool, row[k].target));
    }
  }

  lemma LoadResolves(m: ModuleInfo, others: seq<ModuleInfo>, pool: set<TypeInfo>, k: nat)
    requires NewModule(m, others, pool) && Registry(others, pool) && k < m.size && LoadOf(m, others, pool).Shape()
    ensures LoadOf(m, others, pool).Resolves(k)
  {
    var l := LoadOf(m, others, pool);
    var row := m.castInitial[k];
    assert row in m.castInitial && NewCasts(m, row);
    FinalsPlanned(others, pool, l.Own(k), row);
    if !l.Own(k) {
      PoolIsCanonical(others, pool, l.resolved[k]);
    }
    hide Registry, NewModule, NamesOf, WellPlanned, Finals, Canonical;
  }

  // ---------- the registry after a module is loaded

  ghost function Grown(pool: set<TypeInfo>, l: Load): set<TypeInfo> {
    pool + set t | t in l.resolved
  }

  /** All types in the rows of casts of a module are types of its own table. */
  ghost predicate OwnTargets(l: Load)
    requires l.Shape()
  {
    forall k, n :: 0 <= k < l.m.size && n in l.names[k] ==> exists t :: t in l.m.typeInitial && t.name == n
  }

  lemma TargetsAreOwn(m: ModuleInfo, others: seq<ModuleInfo>, pool: set<TypeInfo>)
    requires NewModule(m, others, pool) && LoadOf(m, others, pool).Shape()
    ensures OwnTargets(LoadOf(m, others, pool))
  {
    TargetsInModule(m, others, pool);
    var l := LoadOf(m, others, pool);
    hide NewModule, NamesOf, AllFinals;
    forall k, n | 0 <= k < m.size && n in l.names[k]
      ensures exists t :: t in m.typeInitial && t.name == n
    {
      var row := m.castInitial[k];
      var j :| 0 <= j < |row| && l.names[k][j] == n;
      assert row in m.castInitial && row[j] in row && row[j] in Members(m.castInitial);
      assert row[j].target in m.typeInitial;
    }
  }

  lemma GrownNames(pool: set<TypeInfo>, l: Load)
    requires l.Shape()
    ensures NamesOf(pool) <= NamesOf(Grown(pool, l))
    ensures forall t :: t in l.m.typeInitial ==> t.name in NamesOf(Grown(pool, l))
  {
    forall t | t in l.m.typeInitial
      ensures t.name in NamesOf(Grown(pool, l))
    {
      var k :| 0 <= k < |l.m.typeInitial| && l.m.typeInitial[k] == t;
      assert l.resolved[k] in Grown(pool, l);
    }
  }

  lemma DoneTypeOk(pool: set<TypeInfo>, l: Load, k: nat)
    requires l.Shape() && OwnTargets(l) && l.known == NamesOf(pool) && k < l.m.size && l.Done(k)
    ensures TypeOk(l.resolved[k], NamesOf(Grown(pool, l)))
  {
    GrownNames(pool, l);
    var t, row := l.resolved[k], l.m.castInitial[k];
    forall c | c in t.casts
      ensures c.target != null && c.target.name in NamesOf(Grown(pool, l))
    {
      if c in row {
        var j :| 0 <= j < |row| && row[j] == c;
        assert l.names[k][j] in l.names[k];
      }
    }
  }

  lemma GrownIsPooled(others: seq<ModuleInfo>, pool: set<TypeInfo>, l: Load)
    requires l.Shape() && l.others == others && Pooled(others, pool)
    requires forall k :: 0 <= k < l.m.size ==> l.Done(k)
    requires forall i, j :: 0 <= i < j < l.m.size ==> Before(l.m.typeInitial[i].name, l.m.typeInitial[j].name)
    ensures Pooled(others + [l.m], Grown(pool, l))
  {
    var m, ring, grown := l.m, others + [l.m], Grown(pool, l);
    forall k | 0 <= k < m.size
      ensures m.types[k] == l.resolved[k] && l.resolved[k] in grown
    {
      assert l.Done(k);
    }
    assert m.Sorted();
    forall t | t in grown
      ensures Registered(ring, t)
    {
      if t in pool {
        var x :| x in others && x.Loaded() && t in x.types[..x.size];
        assert x in ring;
      } else {
        var k :| 0 <= k < m.size && l.resolved[k] == t;
        assert m.types[..m.size][k] == t && m in ring;
      }
    }
  }

  lemma GrownIsCanonical(pool: set<TypeInfo>, l: Load)
    requires l.Shape() && l.known == NamesOf(pool) && OneTypePerName(pool)
    requires forall k :: 0 <= k < l.m.size && !l.Own(k) ==> l.resolved[k] in pool
    requires forall i, j :: 0 <= i < j < l.m.size ==> Before(l.m.typeInitial[i].name, l.m.typeInitial[j].name)
    ensures OneTypePerName(Grown(pool, l))
  {
    forall t, u | t in Grown(pool, l) && u in Grown(pool, l) && t.name == u.name
      ensures t == u
    {
      if t !in pool && u !in pool {
        var i :| 0 <= i < l.m.size && l.resolved[i] == t;
        var j :| 0 <= j < l.m.size && l.resolved[j] == u;
        BeforeIrreflexive(t.name);
      }
    }
  }

  /** The casts of the types that the module does not share are in none of its rows. */
  ghost predicate Elsewhere(pool: set<TypeInfo>, l: Load)
    reads pool
  {
    forall t, c :: t in pool && t !in l.resolved && c in t.casts ==>
      c !in Members(l.before) && c !in Members(l.m.castInitial)
  }

  lemma OtherCastsAreElsewhere(pool: set<TypeInfo>, l: Load)
    requires l.Shape() && forall k :: 0 <= k < l.m.size ==> l.Pending(k)
    requires forall t :: t in pool ==> t.Linked()
    ensures Elsewhere(pool, l)
  {
    forall t | t in pool
      ensures forall c :: c in t.casts ==> c.owner == t
    {
      t.Owned();
    }
    forall c | c in Members(l.before)
      ensures exists k :: 0 <= k < l.m.size && c.owner == l.resolved[k]
    {
      var row :| row in l.before && c in row;
      var k :| 0 <= k < |l.before| && l.before[k] == row;
      assert l.Pending(k);
      l.resolved[k].Owned();
    }
    forall c | c in Members(l.m.castInitial)
      ensures c.owner == null
    {
      var row :| row in l.m.castInitial && c in row;
      var k :| 0 <= k < |l.m.castInitial| && l.m.castInitial[k] == row;
      assert l.Pending(k);
    }
  }

  twostate lemma TypeOkKept(p: (TypeInfo, set<string>))
    requires old(TypeOk(p.0, p.1)) && unchanged(p.0) && forall c :: c in old(p.0.casts) ==> SameCast(c)
    ensures TypeOk(p.0, p.1)
  {
    LinkedKept(p.0);
  }

  twostate lemma PooledKept(p: (seq<ModuleInfo>, set<TypeInfo>))
    requires old(Pooled(p.0, p.1))
    requires forall x :: x in p.0 ==> x.types[..] == old(x.types[..])
    ensures Pooled(p.0, p.1)
  {
    forall x | x in p.0
      ensures x.Sorted() && x.types[..x.size] == old(x.types[..x.size])
    {
      TableKept(x);
      assert x.types[..x.size] == x.types[..][..x.size];
      assert old(x.types[..x.size]) == old(x.types[..])[..x.size];
    }
    forall x, i | x in p.0 && 0 <= i < x.size
      ensures x.types[i] in p.1
    {
      assert x.types[i] == x.types[..x.size][i] == old(x.types[..x.size])[i];
    }
    forall t | t in p.1
      ensures Registered(p.0, t)
    {
      var x :| x in p.0 && old(x.Loaded()) && t in old(x.types[..x.size]);
      assert t in x.types[..x.size];
    }
  }

  method FillModule(m: ModuleInfo, ghost l: Load, ghost pool: set<TypeInfo>)
    requires l.m == m && l.Shape() && l.Ready() && Separate(l) && forall k :: 0 <= k < m.size ==> l.Pending(k)
    requires Elsewhere(pool, l) && Pooled(l.others, pool) && forall t :: t in pool ==> TypeOk(t, l.known)
    modifies l.resolved, m.types, Members(l.before), Members(m.castInitial)
    ensures DataMerged(l, m.size)
    ensures m.types[m.size] == null && forall k :: 0 <= k < m.size ==> l.Done(k)
    ensures Pooled(l.others, pool) && forall t :: t in pool && t !in l.resolved ==> TypeOk(t, l.known)
  {
    hide Load.Done, Load.Pending, Load.Ready, Pooled, TypeOk;
    FillTable(m, l);
    assert m.types !in Tables(l.others);
    PooledKept((l.others, pool));
    forall t | t in pool && t !in l.resolved
      ensures TypeOk(t, l.known)
    {
      TypeOkKept((t, l.known));
    }
  }

  twostate lemma CastsKept(p: (Load, set<TypeInfo>))
    requires p.0.Shape() && forall k :: 0 <= k < p.0.m.size ==> old(p.0.Pending(k)) && p.0.Done(k)
    requires forall t :: t in p.1 && t !in p.0.resolved ==> t.casts == old(t.casts)
    ensures forall t, c :: t in p.1 && c in old(t.casts) ==> c in t.casts
  {
    forall t, c | t in p.1 && c in old(t.casts)
      ensures c in t.casts
    {
      if t in p.0.resolved {
        var k :| 0 <= k < |p.0.resolved| && p.0.resolved[k] == t;
        assert p.0.Done(k) && old(p.0.Pending(k));
      }
    }
  }

  lemma TypeOkMore(t: TypeInfo, known: set<string>, more: set<string>)
    requires TypeOk(t, known) && known <= more
    ensures TypeOk(t, more)
  {
  }

  lemma LoadedTypes(l: Load)
    requires l.Shape() && forall k :: 0 <= k < l.m.size ==> l.Done(k)
    ensures l.m.types.Length > l.m.size && l.m.types[..l.m.size] == l.resolved
  {
    forall k | 0 <= k < l.m.size
      ensures l.m.types[k] == l.resolved[k]
    {
      assert l.Done(k);
    }
  }

  /** Every entry of the table has a cast for each of the names in its row. */
  ghost predicate HasAllCasts(m: ModuleInfo, names: seq<seq<string>>)
    reads *
  {
    && m.size < m.types.Length && |names| == m.size
    && forall k, n :: 0 <= k < m.size && n in names[k] ==> m.types[k] != null && HasCast(m.types[k], n)
  }

  lemma LoadedCasts(l: Load)
    requires l.Shape() && forall k :: 0 <= k < l.m.size ==> l.Done(k)
    ensures HasAllCasts(l.m, l.names)
  {
    forall k, n | 0 <= k < l.m.size && n in l.names[k]
      ensures l.m.types[k] == l.resolved[k] && HasCast(l.resolved[k], n)
    {
      assert l.Done(k);
      var j :| 0 <= j < |l.names[k]| && l.names[k][j] == n;
      assert HasCast(l.resolved[k], l.names[k][j]);
    }
  }

  lemma LoadedRegistry(pool: set<TypeInfo>, l: Load)
    requires l.Shape() && l.known == NamesOf(pool) && OneTypePerName(pool) && OwnTargets(l) && Pooled(l.others, pool)
    requires forall k :: 0 <= k < l.m.size && !l.Own(k) ==> l.resolved[k] in pool
    requires forall i, j :: 0 <= i < j < l.m.size ==> Before(l.m.typeInitial[i].name, l.m.typeInitial[j].name)
    requires forall k :: 0 <= k < l.m.size ==> l.Done(k)
    requires forall t :: t in pool && t !in l.resolved ==> TypeOk(t, l.known)
    ensures Registry(l.others + [l.m], Grown(pool, l))
  {
    GrownIsPooled(l.others, pool, l);
    GrownIsCanonical(pool, l);
    GrownNames(pool, l);
    forall t | t in Grown(pool, l)
      ensures TypeOk(t, NamesOf(Grown(pool, l)))
    {
      if t in l.resolved {
        var k :| 0 <= k < |l.resolved| && l.resolved[k] == t;
        DoneTypeOk(pool, l, k);
      } else {
        TypeOkMore(t, l.known, NamesOf(Grown(pool, l)));
      }
    }
  }

  /** Where the casts of the module are to lead, in terms of its own types. */
  ghost predicate FinalsOk(pool: set<TypeInfo>, l: Load)
    requires l.Shape()
  {
    forall k, j :: 0 <= k < l.m.size && 0 <= j < |l.finals[k]| ==>
      exists t :: t in l.m.typeInitial && l.finals[k][j] == if l.Own(k) then Resolved(pool, t) else t
  }

  lemma FinalAt(m: ModuleInfo, pool: set<TypeInfo>, own: bool, row: seq<CastInfo>, j: nat)
    requires (forall c :: c in row ==> c.target in m.typeInitial) && j < |row|
    ensures exists t :: t in m.typeInitial && Finals(pool, own, row)[j] == if own then Resolved(pool, t) else t
  {
    assert row[j] in row && row[j].target in m.typeInitial;
  }

  lemma LoadFinals(m: ModuleInfo, others: seq<ModuleInfo>, pool: set<TypeInfo>)
    requires NewModule(m, others, pool) && LoadOf(m, others, pool).Shape()
    ensures FinalsOk(pool, LoadOf(m, others, pool))
  {
    TargetsInModule(m, others, pool);
    var l := LoadOf(m, others, pool);
    hide NewModule, NamesOf, Finals;
    forall k, j | 0 <= k < m.size && 0 <= j < |l.finals[k]|
      ensures exists t :: t in m.typeInitial && l.finals[k][j] == if l.Own(k) then Resolved(pool, t) else t
    {
      assert m.castInitial[k] in m.castInitial;
      FinalAt(m, pool, l.Own(k), m.castInitial[k], j);
    }
  }

  /** A type of the module is in the registry afterwards exactly when no type of its name was. */
  lemma OwnTypeStays(pool: set<TypeInfo>, l: Load, t: TypeInfo)
    requires l.Shape() && l.known == NamesOf(pool) && t in l.m.typeInitial && t !in pool
    requires l.resolved == ResolvedAll(pool, l.m.typeInitial)
    ensures t in Grown(pool, l) <==> t.name !in NamesOf(pool)
    ensures Resolved(pool, t) in Grown(pool, l)
  {
    var x :| 0 <= x < |l.m.typeInitial| && l.m.typeInitial[x] == t;
    assert l.resolved[x] == Resolved(pool, t);
  }

  /** Where the casts lead that a module has added. */
  lemma AddedCastLeads(pool: set<TypeInfo>, l: Load, k: nat, c: CastInfo)
    requires l.Shape() && l.known == NamesOf(pool) && l.resolved == ResolvedAll(pool, l.m.typeInitial)
    requires FinalsOk(pool, l)
    requires (forall t :: t in l.m.typeInitial ==> t !in pool) && k < l.m.size && l.Done(k)
    requires c in l.resolved[k].casts && c !in l.before[k]
    ensures c in Members(l.m.castInitial) && c.target != null
    ensures c.target in Grown(pool, l) <==> l.Own(k) || c.target.name !in NamesOf(pool)
  {
    var row := l.m.castInitial[k];
    var j :| 0 <= j < |row| && row[j] == c;
    assert row in l.m.castInitial && c in row;
    assert c.target == l.finals[k][j];
    var t :| t in l.m.typeInitial && l.finals[k][j] == if l.Own(k) then Resolved(pool, t) else t;
    OwnTypeStays(pool, l, t);
  }

  /** The types of the pool with their casts. */
  ghost function Held(pool: set<TypeInfo>): map<TypeInfo, seq<CastInfo>>
    reads pool
  {
    map t | t in pool :: t.casts
  }

  /** A cast that was added to a type since is one of those given. It leads to a type of the
      registry exactly when the type it was added to is new, or no type of the name of the one it
      leads to was there. */
  ghost predicate AddedLead(grown: set<TypeInfo>, was: map<TypeInfo, seq<CastInfo>>, added: set<CastInfo>)
    reads grown, Casts(grown)
  {
    forall t, c :: t in grown && c in t.casts && (t in was ==> c !in was[t]) ==>
      assert c in Casts(grown);
      && c in added && c.target != null
      && (c.target in grown <==> t !in was || c.target.name !in NamesOf(was.Keys))
  }

  lemma AddedCastsLead(l: Load, pool: set<TypeInfo>, was: map<TypeInfo, seq<CastInfo>>)
    requires l.Shape() && l.known == NamesOf(pool) && l.resolved == ResolvedAll(pool, l.m.typeInitial)
    requires FinalsOk(pool, l)
    requires was.Keys == pool && forall t :: t in l.m.typeInitial ==> t !in pool
    requires forall k :: 0 <= k < l.m.size ==> l.Done(k)
    requires forall k :: 0 <= k < l.m.size ==> l.before[k] == if l.resolved[k] in pool then was[l.resolved[k]] else []
    requires forall t :: t in pool && t !in l.resolved ==> t.casts == was[t]
    ensures AddedLead(Grown(pool, l), was, Members(l.m.castInitial))
  {
    hide Load.Done, FinalsOk, NamesOf;
    forall t, c | t in Grown(pool, l) && c in t.casts && (t in was ==> c !in was[t])
      ensures c in Members(l.m.castInitial) && c.target != null
      ensures c.target in Grown(pool, l) <==> t !in was || c.target.name !in NamesOf(pool)
    {
      var k :| 0 <= k < |l.resolved| && l.resolved[k] == t;
      assert l.m.typeInitial[k] in l.m.typeInitial && t == Resolved(pool, l.m.typeInitial[k]);
      AddedCastLeads(pool, l, k, c);
    }
  }

  method FillAndKeep(m: ModuleInfo, ghost l: Load, ghost pool: set<TypeInfo>)
    requires l.m == m && l.Shape() && l.Ready() && Separate(l) && forall k :: 0 <= k < m.size ==> l.Pending(k)
    requires Elsewhere(pool, l) && Pooled(l.others, pool) && forall t :: t in pool ==> TypeOk(t, l.known)
    modifies l.resolved, m.types, Members(l.before), Members(m.castInitial)
    ensures DataMerged(l, m.size)
    ensures m.types[m.size] == null && forall k :: 0 <= k < m.size ==> l.Done(k)
    ensures Pooled(l.others, pool) && forall t :: t in pool && t !in l.resolved ==> TypeOk(t, l.known)
    ensures m.types[..m.size] == l.resolved
    ensures forall t, c :: t in pool && c in old(t.casts) ==> c in t.casts
    ensures HasAllCasts(m, l.names)
  {
    hide Load.Done, Load.Pending, Load.Ready, Pooled, TypeOk, Elsewhere, DataMerged, Separate;
    FillModule(m, l, pool);
    CastsKept((l, pool));
    LoadedTypes(l);
    LoadedCasts(l);
  }

  lemma LoadIsReady(m: ModuleInfo, others: seq<ModuleInfo>, pool: set<TypeInfo>)
    requires NewModule(m, others, pool) && Registry(others, pool) && Others(m, others, NamesOf(pool))
    ensures var l := LoadOf(m, others, pool);
      && l.Shape() && l.Ready() && (forall k :: 0 <= k < m.size ==> l.Pending(k))
      && OwnTargets(l) && Elsewhere(pool, l) && l.m == m && l.others == others && l.known == NamesOf(pool)
      && l.resolved == ResolvedAll(pool, m.typeInitial) && m.types.Length == m.size + 1
      && (forall t :: t in pool ==> TypeOk(t, l.known))
      && (forall k :: 0 <= k < m.size && !l.Own(k) ==> l.resolved[k] in pool)
  {
    ShapeOfLoad(m, others, pool);
    var l := LoadOf(m, others, pool);
    forall k | 0 <= k < m.size
      ensures l.Pending(k)
    {
      PendingLoad(m, others, pool, k);
    }
    forall k | 0 <= k < m.size
      ensures l.Resolves(k)
    {
      LoadResolves(m, others, pool, k);
    }
    TargetsAreOwn(m, others, pool);
    forall t | t in pool
      ensures t.Linked()
    {
      assert TypeOk(t, NamesOf(pool));
    }
    OtherCastsAreElsewhere(pool, l);
  }

  /** What loading writes to lies in the types and casts of the pool and of the module. */
  lemma LoadFrame(m: ModuleInfo, others: seq<ModuleInfo>, pool: set<TypeInfo>)
    requires NewModule(m, others, pool) && LoadOf(m, others, pool).Shape()
    ensures forall t :: t in LoadOf(m, others, pool).resolved ==> t in pool || t in m.typeInitial
    ensures Members(LoadOf(m, others, pool).before) <= Casts(pool)
  {
    CastsFrame(pool, m.typeInitial);
    var l := LoadOf(m, others, pool);
    forall t | t in l.resolved
      ensures t in pool || t in m.typeInitial
    {
      var k :| 0 <= k < |l.resolved| && l.resolved[k] == t;
      assert m.typeInitial[k] in m.typeInitial;
    }
  }

  lemma CastsFrame(pool: set<TypeInfo>, ts: seq<TypeInfo>)
    requires forall t :: t in ts ==> t.casts == []
    ensures Members(CastsOf(ResolvedAll(pool, ts))) <= Casts(pool)
  {
    var rows := CastsOf(ResolvedAll(pool, ts));
    forall c | c in Members(rows)
      ensures c in Casts(pool)
    {
      var row :| row in rows && c in row;
      var k :| 0 <= k < |rows| && rows[k] == row;
      assert ts[k] in ts && row == Resolved(pool, ts[k]).casts;
    }
  }

  lemma NewTypes(m: ModuleInfo, others: seq<ModuleInfo>, pool: set<TypeInfo>)
    requires NewModule(m, others, pool) && LoadOf(m, others, pool).Shape()
    ensures (forall t :: t in m.typeInitial ==> t !in pool) && Held(pool).Keys == pool
    ensures forall i, j :: 0 <= i < j < m.size ==> Before(m.typeInitial[i].name, m.typeInitial[j].name)
    ensures forall t :: t in pool ==> Held(pool)[t] == t.casts
    ensures var l := LoadOf(m, others, pool);
      forall k :: 0 <= k < m.size ==> l.before[k] == if l.resolved[k] in pool then Held(pool)[l.resolved[k]] else []
  {
    hide NewCasts, FinalsOk;
    var l := LoadOf(m, others, pool);
    forall k | 0 <= k < m.size
      ensures l.before[k] == if l.resolved[k] in pool then Held(pool)[l.resolved[k]] else []
    {
      assert m.typeInitial[k] in m.typeInitial;
    }
  }

  /** What loading a module does to client data: an entry of its table has what the module brings
      for it, if that is anything, and otherwise what the type had. All other types keep theirs. */
  twostate predicate DataLoaded(m: ModuleInfo, pool: set<TypeInfo>)
    reads pool, m.typeInitial, ResolvedAll(pool, m.typeInitial)
  {
    && (forall k :: 0 <= k < |m.typeInitial| ==>
          var t := ResolvedAll(pool, m.typeInitial)[k];
          t.clientdata == Merged(old(m.typeInitial[k].clientdata), old(t.clientdata)))
    && (forall t :: t in pool && t !in ResolvedAll(pool, m.typeInitial) ==> t.clientdata == old(t.clientdata))
    && (forall t :: t in m.typeInitial && t !in ResolvedAll(pool, m.typeInitial) ==>
          t.clientdata == old(t.clientdata))
  }

  /** Nothing of that happens when the module was loaded before. */
  twostate predicate DataKept(m: ModuleInfo, pool: set<TypeInfo>)
    reads pool, m.typeInitial
  {
    && (forall t :: t in pool ==> t.clientdata == old(t.clientdata))
    && (forall t :: t in m.typeInitial ==> t.clientdata == old(t.clientdata))
  }

  twostate lemma DataIsLoaded(p: (Load, set<TypeInfo>))
    requires p.0.Shape() && DataMerged(p.0, p.0.m.size) && p.0.resolved == ResolvedAll(p.1, p.0.m.typeInitial)
    requires forall t :: t in p.1 && t !in p.0.resolved ==> t.clientdata == old(t.clientdata)
    requires forall t :: t in p.0.m.typeInitial && t !in p.0.resolved ==> t.clientdata == old(t.clientdata)
    ensures DataLoaded(p.0.m, p.1)
  {
  }

  lemma LoadIsSeparate(m: ModuleInfo, others: seq<ModuleInfo>, pool: set<TypeInfo>)
    requires NewModule(m, others, pool) && LoadOf(m, others, pool).Shape()
    requires LoadOf(m, others, pool).m == m && LoadOf(m, others, pool).resolved == ResolvedAll(pool, m.typeInitial)
    ensures Separate(LoadOf(m, others, pool))
  {
    hide LoadOf;
    forall j, k | 0 <= j < m.size && 0 <= k < m.size && j != k
      ensures ResolvedAll(pool, m.typeInitial)[j] != m.typeInitial[k]
    {
      assert m.typeInitial[k] in m.typeInitial;
    }
  }

  /** Loads the types and casts of a new module that is already linked into the circle. */
  method LoadModule(m: ModuleInfo, ghost others: seq<ModuleInfo>, ghost pool: set<TypeInfo>) returns (ghost l: Load)
    requires NewModule(m, others, pool) && Registry(others, pool) && Others(m, others, NamesOf(pool))
    modifies m.types, pool, m.typeInitial, Casts(pool), Members(m.castInitial)
    ensures l == old(LoadOf(m, others, pool)) && l.Shape() && DataLoaded(m, pool)
    ensures Registry(others + [m], Grown(pool, l))
    ensures m.types[m.size] == null && forall k :: 0 <= k < m.size ==> l.Done(k)
    ensures m.types[..m.size] == ResolvedAll(pool, m.typeInitial)
    ensures forall t, c :: t in pool && c in old(t.casts) ==> c in t.casts
    ensures HasAllCasts(m, l.names)
    ensures AddedLead(Grown(pool, l), old(Held(pool)), Members(m.castInitial))
  {
    hide Load.Done, Load.Pending, Load.Ready, LoadOf, TypeOk, Others, Pooled, Elsewhere, OwnTargets, Load.Shape;
    hide FinalsOk, NewModule, Held, Separate, DataMerged, DataLoaded;
    l := LoadOf(m, others, pool);
    ghost var was := Held(pool);
    LoadIsReady(m, others, pool);
    LoadIsSeparate(m, others, pool);
    LoadFrame(m, others, pool);
    LoadFinals(m, others, pool);
    NewTypes(m, others, pool);
    assert Pooled(others, pool);
    FillAndKeep(m, l, pool);
    DataIsLoaded((l, pool));
    LoadedRegistry(pool, l);
    AddedCastsLead(l, pool, was);
  }

  // ---------- the circle

  class Interpreter {
    var head: ModuleInfo?

    constructor ()
      ensures head == null
    {
      head := null;
    }

    ghost predicate Circle(ring: seq<ModuleInfo>)
      reads this, ring
    {
      if ring == [] then head == null else head == ring[0] && Segment(ring, ring[0])
    }
  }

  /** Where a new module goes: after the first one. */
  ghost function WithModule(ring: seq<ModuleInfo>, m: ModuleInfo): seq<ModuleInfo> {
    if ring == [] then [m] else [ring[0], m] + ring[1..]
  }

  /** The others, seen from the new module. */
  ghost function Rotated(ring: seq<ModuleInfo>): seq<ModuleInfo> {
    if ring == [] then [] else ring[1..] + [ring[0]]
  }

  method FindModule(head: ModuleInfo, m: ModuleInfo, ghost ring: seq<ModuleInfo>) returns (found: bool)
    requires ring != [] && ring[0] == head && Segment(ring, head)
    ensures found <==> m in ring
  {
    var iter := head;
    ghost var i := 0;
    while true
      invariant 0 <= i < |ring| && iter == ring[i]
      invariant m !in ring[..i]
      decreases |ring| - i
    {
      if iter == m {
        return true;
      }
      assert i + 1 < |ring| ==> ring[i + 1] == ring[1..][i];
      assert LinkedAt(ring, head, i);
      assert ring[..i + 1] == ring[..i] + [ring[i]];
      iter := iter.next;
      i := i + 1;
      if iter == head { break; }
    }
    assert ring[..i] == ring;
    return false;
  }

  method Splice(m: ModuleInfo, head: ModuleInfo, ghost ring: seq<ModuleInfo>)
    requires ring != [] && ring[0] == head && Segment(ring, head) && m !in ring
    modifies m`next, head`next
    ensures Segment(WithModule(ring, m), head)
    ensures m.next == Rotated(ring)[0] && Segment(Rotated(ring), m)
  {
    assert LinkedAt(ring, head, 0);
    m.next := head.next;
    head.next := m;
    ghost var whole, others := WithModule(ring, m), Rotated(ring);
    forall i | 0 <= i < |ring|
      ensures LinkedAt(others, m, i)
    {
      assert i + 1 < |ring| ==> ring[i + 1] == ring[1..][i] && old(LinkedAt(ring, head, i + 1));
    }
    forall j | 0 <= j < |whole|
      ensures LinkedAt(whole, head, j)
    {
      if j > 1 {
        assert old(LinkedAt(ring, head, j - 1));
        assert whole[j] == ring[1..][j - 2] == ring[j - 1];
      }
    }
  }

  /** The modules of a circle all have a next one. */
  lemma InCircle(interpreter: Interpreter, ring: seq<ModuleInfo>)
    requires interpreter.Circle(ring)
    ensures forall x :: x in ring ==> x.next != null
  {
    forall x | x in ring
      ensures x.next != null
    {
      var i :| 0 <= i < |ring| && ring[i] == x;
      assert LinkedAt(ring, ring[0], i);
    }
  }

  ghost predicate Closed(ring: seq<ModuleInfo>)
    reads ring
  {
    ring != [] && Segment(ring, ring[0])
  }

  lemma NextInCircle(ring: seq<ModuleInfo>, x: ModuleInfo)
    requires Closed(ring) && x in ring
    ensures x.next in ring
  {
    var i :| 0 <= i < |ring| && ring[i] == x;
    assert LinkedAt(ring, ring[0], i);
  }

  /** Two circles with a module in common have all modules in common. */
  lemma {:induction false} SharedFrom(ring: seq<ModuleInfo>, other: seq<ModuleInfo>, j: nat, i: nat)
    requires Closed(ring) && Closed(other) && j <= i < |other| && other[j] in ring
    ensures other[i] in ring
    decreases i - j
  {
    if j < i {
      assert LinkedAt(other, other[0], j);
      NextInCircle(ring, other[j]);
      SharedFrom(ring, other, j + 1, i);
    }
  }

  lemma SharedCircle(ring: seq<ModuleInfo>, other: seq<ModuleInfo>, x: ModuleInfo, m: ModuleInfo)
    requires Closed(ring) && Closed(other) && x in ring && x in other && m in other
    ensures m in ring
  {
    var j :| 0 <= j < |other| && other[j] == x;
    var i :| 0 <= i < |other| && other[i] == m;
    SharedFrom(ring, other, j, |other| - 1);
    assert LinkedAt(other, other[0], |other| - 1);
    NextInCircle(ring, other[|other| - 1]);
    SharedFrom(ring, other, 0, i);
  }

  /** Links the module into the circle of the interpreter unless it is there. A circle of another
      interpreter that holds the module stays closed exactly when nothing has to be linked. */
  method LinkModule(interpreter: Interpreter, m: ModuleInfo, ghost ring: seq<ModuleInfo>, ghost other: seq<ModuleInfo>)
    returns (linked: bool)
    requires interpreter.Circle(ring)
    requires other != [] ==> Closed(other) && m in other
    modifies interpreter, m`next, ring`next
    ensures linked <==> m !in ring
    ensures m in ring ==> interpreter.Circle(ring)
    ensures m !in ring && (ring != [] || old(m.next) == null) ==> interpreter.Circle(WithModule(ring, m))
    ensures m !in ring && ring == [] ==>
      interpreter.head == m && m.next == if old(m.next) == null then m else old(m.next)
    ensures m !in ring && ring != [] ==> m.next == Rotated(ring)[0] && Segment(Rotated(ring), m)
    ensures other != [] ==> (Closed(other) <==> m in ring || ring == [])
  {
    InCircle(interpreter, ring);
    if other != [] {
      NextInCircle(other, m);
    }
    if m.next == null {
      m.next := m;
    }
    if interpreter.head == null {
      interpreter.head := m;
      return true;
    }
    var found := FindModule(interpreter.head, m, ring);
    if !found {
      SpliceAway(m, interpreter.head, ring, other);
    }
    return !found;
  }

  method SpliceAway(m: ModuleInfo, head: ModuleInfo, ghost ring: seq<ModuleInfo>, ghost other: seq<ModuleInfo>)
    requires ring != [] && ring[0] == head && Segment(ring, head) && m !in ring
    requires other != [] ==> Closed(other) && m in other
    modifies m`next, head`next
    ensures Segment(WithModule(ring, m), head)
    ensures m.next == Rotated(ring)[0] && Segment(Rotated(ring), m)
    ensures other != [] ==> !Closed(other)
  {
    forall x | x in ring
      ensures x !in other
    {
      if x in other {
        SharedCircle(ring, other, x, m);
      }
    }
    Splice(m, head, ring);
    assert Rotated(ring)[0] in ring;
    if other != [] && Closed(other) {
      NextInCircle(other, m);
    }
  }

  lemma SameMembers(ring: seq<ModuleInfo>, m: ModuleInfo)
    ensures forall x :: x in Rotated(ring) <==> x in ring
    ensures forall x :: x in WithModule(ring, m) <==> x in Rotated(ring) + [m]
  {
    if ring != [] {
      assert ring == [ring[0]] + ring[1..];
    }
  }

  lemma RegistryOfMembers(ring: seq<ModuleInfo>, other: seq<ModuleInfo>, pool: set<TypeInfo>)
    requires Registry(ring, pool) && forall x :: x in ring <==> x in other
    ensures Registry(other, pool)
  {
    forall t | t in pool
      ensures Registered(other, t)
    {
      var x :| x in ring && x.Loaded() && t in x.types[..x.size];
      assert x in other;
    }
  }

  lemma NewModuleOfMembers(m: ModuleInfo, ring: seq<ModuleInfo>, other: seq<ModuleInfo>, pool: set<TypeInfo>)
    requires NewModule(m, ring, pool) && forall x :: x in ring <==> x in other
    ensures NewModule(m, other, pool)
  {
  }

  /** Linking a module leaves the types and casts of the others as they were. */
  twostate lemma RegistryKept(p: (seq<ModuleInfo>, set<TypeInfo>))
    requires old(Registry(p.0, p.1))
    requires forall x :: x in p.0 ==> x.types[..] == old(x.types[..])
    requires forall t :: t in p.1 ==> unchanged(t) && forall c :: c in old(t.casts) ==> SameCast(c)
    ensures Registry(p.0, p.1)
  {
    PooledKept(p);
    forall t | t in p.1
      ensures TypeOk(t, NamesOf(p.1))
    {
      TypeOkKept((t, NamesOf(p.1)));
    }
  }

  lemma LinkedOthers(m: ModuleInfo, ring: seq<ModuleInfo>, pool: set<TypeInfo>)
    requires Registry(Rotated(ring), pool) && m !in Rotated(ring)
    requires if ring == [] then m.next == m else m.next == Rotated(ring)[0] && Segment(Rotated(ring), m)
    ensures Others(m, Rotated(ring), NamesOf(pool))
  {
    KnownNames(Rotated(ring), pool);
  }

  /** Loads a new module that was just linked after the first of the circle. */
  method LoadLinked(m: ModuleInfo, ghost ring: seq<ModuleInfo>,
                    ghost pool: set<TypeInfo>) returns (ghost grown: set<TypeInfo>)
    requires Registry(ring, pool) && NewModule(m, ring, pool)
    requires if ring == [] then m.next == m else m.next == Rotated(ring)[0] && Segment(Rotated(ring), m)
    modifies m.types, pool, m.typeInitial, Casts(pool), Members(m.castInitial)
    ensures Registry(WithModule(ring, m), grown) && m.types[m.size] == null && DataLoaded(m, pool)
    ensures forall k :: 0 <= k < m.size ==> m.types[k] == Resolved(pool, m.typeInitial[k])
    ensures pool <= grown && forall t, c :: t in pool && c in old(t.casts) ==> c in t.casts
    ensures HasAllCasts(m, old(RowNames(m.castInitial)))
    ensures AddedLead(grown, old(Held(pool)), Members(m.castInitial))
  {
    hide Registry, NewModule, Rotated, WithModule, ResolvedAll, AddedLead, Held, DataLoaded;
    ghost var others := Rotated(ring);
    SameMembers(ring, m);
    RegistryOfMembers(ring, others, pool);
    NewModuleOfMembers(m, ring, others, pool);
    LinkedOthers(m, ring, pool);
    ghost var l := LoadModule(m, others, pool);
    grown := Grown(pool, l);
    SameMembers(ring, m);
    RegistryOfMembers(others + [m], WithModule(ring, m), grown);
    assert forall k :: 0 <= k < m.size ==> m.types[k] == m.types[..m.size][k];
  }

  method LinkKept(interpreter: Interpreter, m: ModuleInfo, ghost ring: seq<ModuleInfo>, ghost pool: set<TypeInfo>,
                  ghost other: seq<ModuleInfo>)
    returns (linked: bool)
    requires interpreter.Circle(ring) && Registry(ring, pool)
    requires m.next == null ==> NewModule(m, ring, pool)
    requires other != [] ==> Closed(other) && m in other
    modifies interpreter, m`next, ring`next
    ensures linked <==> m !in ring
    ensures m in ring ==> interpreter.Circle(ring)
    ensures m !in ring && (ring != [] || old(m.next) == null) ==> interpreter.Circle(WithModule(ring, m))
    ensures m !in ring && ring == [] && old(m.next) == null ==> m.next == m
    ensures m !in ring && ring != [] ==> m.next == Rotated(ring)[0] && Segment(Rotated(ring), m)
    ensures Registry(ring, pool)
    ensures old(m.next) == null ==> m !in ring && NewModule(m, ring, pool)
    ensures RowNames(m.castInitial) == old(RowNames(m.castInitial))
    ensures other != [] ==> old(m.next) != null && (Closed(other) <==> m in ring || ring == [])
    ensures Held(pool) == old(Held(pool))
  {
    if other != [] {
      NextInCircle(other, m);
    }
    linked := LinkModule(interpreter, m, ring, other);
    RegistryKept((ring, pool));
  }

  /** Loads a module into an interpreter: links it into the circle unless it is there,
      and fills in its table and casts when it is loaded for the first time. */
  method InitializeModule(interpreter: Interpreter, m: ModuleInfo, ghost ring: seq<ModuleInfo>,
                          ghost pool: set<TypeInfo>, ghost other: seq<ModuleInfo>)
    returns (ghost grown: set<TypeInfo>)
    requires interpreter.Circle(ring) && Registry(ring, pool)
    requires m.next == null ==> NewModule(m, ring, pool)
    requires other != [] ==> Closed(other) && m in other
    modifies interpreter, m`next, ring`next, m.types, pool, m.typeInitial, Casts(pool), Members(m.castInitial)
    ensures m in ring ==> interpreter.Circle(ring) && Registry(ring, pool)
    ensures m !in ring && (ring != [] || old(m.next) == null) ==> interpreter.Circle(WithModule(ring, m))
    ensures old(m.next) != null ==> grown == pool && m.types[..] == old(m.types[..]) && DataKept(m, pool)
    ensures old(m.next) == null ==> Registry(WithModule(ring, m), grown) && m.types[m.size] == null
    ensures old(m.next) == null ==> forall k :: 0 <= k < m.size ==> m.types[k] == Resolved(pool, m.typeInitial[k])
    ensures old(m.next) == null ==> HasAllCasts(m, old(RowNames(m.castInitial))) && DataLoaded(m, pool)
    ensures old(m.next) == null ==> AddedLead(grown, old(Held(pool)), Members(m.castInitial))
    ensures pool <= grown && forall t, c :: t in pool && c in old(t.casts) ==> c in t.casts
    ensures other != [] ==> (Closed(other) <==> m in ring || ring == [])
  {
    hide Registry, NewModule, RowNames, HasAllCasts, Resolved, Casts, Members, NamesOf, Closed, AddedLead, Held;
    grown := pool;
    var init := m.next == null;
    var linked := LinkKept(interpreter, m, ring, pool, other);
    if linked && init {
      grown := LoadLinked(m, ring, pool);
    }
  }

  /** A cast that leads to another type of the same name is found by name, but not by type. */
  method Disagree(t: TypeInfo, u: TypeInfo) returns (byName: CastInfo?, byType: CastInfo?)
    requires t.Linked() && DistinctNames(t)
    requires exists c :: c in t.casts && c.target != null && c.target.name == u.name && c.target != u
    modifies t`cast, t`casts, Nodes(t)`next, Nodes(t)`prev, Nodes(t)`owner
    ensures byName != null && byName.target != null && byName.target.name == u.name && byName.target != u
    ensures byType == null
  {
    EntryOf(t);
    AnswerIsHasCast(t, u.name);
    byName := TypeCheck(u.name, t);
    EntryOf(t);
    byType := TypeCheckStruct(u, t);
  }

  lemma CastLeadsAside(m: ModuleInfo, names: seq<seq<string>>, grown: set<TypeInfo>,
                       was: map<TypeInfo, seq<CastInfo>>, added: set<CastInfo>, k: nat, u: TypeInfo)
    requires HasAllCasts(m, names) && AddedLead(grown, was, added)
    requires k < m.size && u.name in names[k] && u in grown && u in was
    requires m.types[k] != null && m.types[k] in grown && m.types[k] in was && was[m.types[k]] == []
    ensures exists c :: c in m.types[k].casts && c.target != null && c.target.name == u.name && c.target != u
  {
    var c :| c in m.types[k].casts && c.target != null && c.target.name == u.name;
    assert u.name in NamesOf(was.Keys);
  }

  /** A module brings a type t and a cast to it from a type u, when the registry has both types but
      no casts to t: afterwards that cast is found by name, but not by the type of the registry. */
  method CastIsMissed(interpreter: Interpreter, m: ModuleInfo, k: nat, t: TypeInfo, u: TypeInfo,
                      ghost ring: seq<ModuleInfo>, ghost pool: set<TypeInfo>)
    returns (byName: CastInfo?, byType: CastInfo?)
    requires interpreter.Circle(ring) && Registry(ring, pool) && m.next == null && NewModule(m, ring, pool)
    requires t in pool && u in pool && t.casts == [] && k < m.size && m.typeInitial[k].name == t.name
    requires u.name in RowNames(m.castInitial)[k]
    modifies interpreter, m`next, ring`next, m.types, pool, m.typeInitial, Casts(pool), Members(m.castInitial)
    ensures byName != null && byName.target != null && byName.target.name == u.name && byType == null
  {
    assert k < |m.typeInitial| && k < m.types.Length;
    hide RowNames, NewModule, Registry, AddedLead, HasAllCasts, Casts, Members, WithModule;
    ghost var names, was := RowNames(m.castInitial), Held(pool);
    assert t in was && u in was && was[t] == [];
    SharedEntry(pool, m.typeInitial[k], t, ring);
    hide Resolved, NamesOf, Held;
    ghost var grown := InitializeModule(interpreter, m, ring, pool, []);
    assert m.types[k] == t;
    RegisteredType(WithModule(ring, m), grown, t);
    CastLeadsAside(m, names, grown, was, Members(m.castInitial), k, u);
    NodesAreNew(grown, was, Members(m.castInitial), t);
    byName, byType := Disagree(t, u);
  }

  lemma SharedEntry(pool: set<TypeInfo>, own: TypeInfo, t: TypeInfo, ring: seq<ModuleInfo>)
    requires Registry(ring, pool) && t in pool && own.name == t.name
    ensures Resolved(pool, own) == t
  {
    assert t.name in NamesOf(pool);
  }

  lemma RegisteredType(ring: seq<ModuleInfo>, pool: set<TypeInfo>, t: TypeInfo)
    requires Registry(ring, pool) && t in pool
    ensures t.Linked() && DistinctNames(t)
  {
    assert TypeOk(t, NamesOf(pool));
  }

  lemma NodesAreNew(grown: set<TypeInfo>, was: map<TypeInfo, seq<CastInfo>>, added: set<CastInfo>, t: TypeInfo)
    requires AddedLead(grown, was, added) && t in grown && t in was && was[t] == []
    ensures Nodes(t) <= added
  {
  }

  /** A module that brings two types and at most one cast, next to one that brings the same. */
  lemma PairIsNew(m: ModuleInfo, ring: seq<ModuleInfo>, pool: set<TypeInfo>, row: seq<CastInfo>)
    requires m !in ring && m.types !in Tables(ring) && m.size == 2 && m.types.Length == 3
    requires |m.typeInitial| == 2 && m.typeInitial[0].name == "t" && m.typeInitial[1].name == "u"
    requires forall t :: t in m.typeInitial ==> t !in pool && t.cast == null && t.casts == []
    requires m.castInitial == [row, []] && |row| <= 1
    requires forall c :: c in row ==> Unused(c) && c.target == m.typeInitial[1]
    ensures NewModule(m, ring, pool)
  {
    assert Before("t", "u");
    assert NewCasts(m, []) && NewCasts(m, row);
  }

  /** An interpreter with one module, which brings types t and u without casts. */
  method LoadFirst(t: TypeInfo, u: TypeInfo) returns (interpreter: Interpreter, first: ModuleInfo)
    requires t.name == "t" && u.name == "u" && t.Linked() && u.Linked() && t.casts == u.casts == []
    modifies t, u
    ensures fresh(interpreter) && fresh(first) && fresh(first.types)
    ensures interpreter.Circle([first]) && Registry([first], {t, u}) && t.casts == [] && u.casts == []
  {
    interpreter := new Interpreter();
    first := new ModuleInfo([t, u], [[], []]);
    PairIsNew(first, [], {}, []);
    assert Members(first.castInitial) == {} && Casts({}) == {};
    assert Registry([], {});
    assert Resolved({}, t) == t && Resolved({}, u) == u;
    assert Held({}) == map[];
    hide Registry, NewModule, NamesOf, HasAllCasts, Resolved, Casts, Members, RowNames, Held, AddedLead;
    ghost var pool := InitializeModule(interpreter, first, [], {}, []);
    assert first.types[0] == t && first.types[1] == u && WithModule([], first) == [first];
    OnlyTypes(first, pool, t, u);
    NothingAdded(pool, map[], {}, t);
    NothingAdded(pool, map[], {}, u);
  }

  lemma NothingAdded(grown: set<TypeInfo>, was: map<TypeInfo, seq<CastInfo>>, added: set<CastInfo>, t: TypeInfo)
    requires AddedLead(grown, was, added) && t in grown && t !in was && added == {}
    ensures t.casts == []
  {
    assert forall c :: c in t.casts ==> c in added;
    if t.casts != [] {
      HasMember(t.casts);
    }
  }

  lemma HasMember(casts: seq<CastInfo>)
    requires casts != []
    ensures exists c :: c in casts
  {
    assert casts[0] in casts;
  }

  lemma OnlyTypes(m: ModuleInfo, pool: set<TypeInfo>, t: TypeInfo, u: TypeInfo)
    requires Registry([m], pool) && m.size == 2 && m.types.Length == 3 && m.types[0] == t && m.types[1] == u
    ensures pool == {t, u}
  {
    assert t in pool && u in pool;
    forall x | x in pool
      ensures x == t || x == u
    {
      assert Registered([m], x);
      assert m.types[..m.size] == [t, u];
    }
  }

  /** A module with types t and u and a cast from u to t. */
  method MakeSecond() returns (second: ModuleInfo, ghost row: seq<CastInfo>)
    ensures fresh(second) && fresh(second.types) && fresh(second.typeInitial) && fresh(row) && second.next == null
    ensures second.size == 2 && second.types.Length == 3 && second.castInitial == [row, []] && |row| == 1
    ensures |second.typeInitial| == 2 && second.typeInitial[0].name == "t" && second.typeInitial[1].name == "u"
    ensures forall t :: t in second.typeInitial ==> t.cast == null && t.casts == []
    ensures Unused(row[0]) && row[0].target == second.typeInitial[1]
  {
    var t := new TypeInfo("t", None, 0);
    var u := new TypeInfo("u", None, 0);
    var cast := new CastInfo(u, 0);
    row := [cast];
    second := new ModuleInfo([t, u], [[cast], []]);
  }

  lemma RowOfSecond(second: ModuleInfo, row: seq<CastInfo>)
    requires second.castInitial == [row, []] && |row| == 1 && row[0].target != null
    ensures |RowNames(second.castInitial)| == 2 && row[0].target.name in RowNames(second.castInitial)[0]
    ensures Members(second.castInitial) == {row[0]}
  {
    assert RowNames(second.castInitial)[0] == TargetNames(row) && TargetNames(row)[0] == row[0].target.name;
    assert row == [row[0]] && second.castInitial[0] == row && row in second.castInitial;
    assert row[0] in row && row[0] in Members(second.castInitial);
    forall c | c in Members(second.castInitial)
      ensures c == row[0]
    {
      var x :| x in second.castInitial && c in x;
    }
  }

  /** Two modules that bring types t and u each, the second one with a cast from u to t: that cast
      is found by name, but not by the type u that both modules use. */
  method CastIsMissedExample() returns (byName: CastInfo?, byType: CastInfo?)
    ensures byName != null && byType == null
  {
    hide Registry, TypeInfo.Linked, NewModule, RowNames, Members;
    var second, row := MakeSecond();
    var t := new TypeInfo("t", None, 0);
    var u := new TypeInfo("u", None, 0);
    var interpreter, first := LoadFirst(t, u);
    PairIsNew(second, [first], {t, u}, row);
    RowOfSecond(second, row);
    assert Casts({t, u}) == {};
    byName, byType := CastIsMissed(interpreter, second, 0, t, u, [first], {t, u});
  }

  /** Two modules are loaded in one interpreter and a third one in another, which then loads the
      first: the circle of the one interpreter is broken. */
  method CircleBreaks(one: Interpreter, another: Interpreter, a: ModuleInfo, b: ModuleInfo, c: ModuleInfo)
    requires one != another && a != b && c != a && c != b && one.Circle([a, b]) && another.Circle([c])
    modifies another, a`next, c`next
    ensures another.Circle([c, a]) && one.head == a && !one.Circle([a, b]) && a.next == c
  {
    var linked := LinkModule(another, a, [c], [a, b]);
    assert linked && WithModule([c], a) == [c, a] && Rotated([c]) == [c];
  }
}
