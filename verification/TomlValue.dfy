/** The tree of TOML values. A pointer to a value inside a tree is the path that leads to it. */
module TomlValue {
  import opened Basics
  import opened TomlText

  datatype Value =
    | Null
    | Bool(b: bool)
    | Int(i: int64)
    | Double(d: real)
    | Str(s: string)
    | Time(t: int)
    | Array(elems: seq<Value>)
    | Table(kids: map<string, Value>)

  const EMPTY_TABLE: Value := Table(map[])

  /** Two values have the same type tag. */
  predicate SameKind(v: Value, w: Value) {
    match v
    case Null => w.Null?
    case Bool(_) => w.Bool?
    case Int(_) => w.Int?
    case Double(_) => w.Double?
    case Str(_) => w.Str?
    case Time(_) => w.Time?
    case Array(_) => w.Array?
    case Table(_) => w.Table?
  }

  // ---------- paths

  datatype Step = Child(key: string) | Elem(index: nat)

  type Path = seq<Step>

  function StepTo(v: Value, step: Step): Option<Value> {
    match step
    case Child(k) => if v.Table? && k in v.kids then Some(v.kids[k]) else None
    case Elem(i) => if v.Array? && i < |v.elems| then Some(v.elems[i]) else None
  }

  /** The value a path leads to. */
  function At(v: Value, p: Path): Option<Value> {
    if p == [] then Some(v) else
      match StepTo(v, p[0])
      case None => None
      case Some(w) => At(w, p[1..])
  }

  function PutStep(v: Value, step: Step, w: Value): Value
    requires StepTo(v, step).Some?
  {
    match step
    case Child(k) => Table(v.kids[k := w])
    case Elem(i) => Array(v.elems[i := w])
  }

  /** Assigning through a pointer. */
  function Put(v: Value, p: Path, w: Value): Value
    requires At(v, p).Some?
  {
    if p == [] then w else PutStep(v, p[0], Put(StepTo(v, p[0]).value, p[1..], w))
  }

  lemma PutStepTwice(v: Value, step: Step, a: Value, b: Value)
    requires StepTo(v, step).Some?
    ensures StepTo(PutStep(v, step, a), step) == Some(a)
    ensures PutStep(PutStep(v, step, a), step, b) == PutStep(v, step, b)
  {
  }

  lemma {:induction false} AtPut(v: Value, p: Path, w: Value)
    requires At(v, p).Some?
    ensures At(Put(v, p, w), p) == Some(w)
    decreases |p|
  {
    hide StepTo, PutStep;
    if p != [] {
      AtPut(StepTo(v, p[0]).value, p[1..], w);
      PutStepTwice(v, p[0], Put(StepTo(v, p[0]).value, p[1..], w), w);
    }
  }

  lemma {:induction false} PutPut(v: Value, p: Path, w: Value, w': Value)
    requires At(v, p).Some?
    ensures At(Put(v, p, w), p).Some? && Put(Put(v, p, w), p, w') == Put(v, p, w')
    decreases |p|
  {
    AtPut(v, p, w);
    hide StepTo, PutStep;
    if p != [] {
      var at := StepTo(v, p[0]).value;
      PutPut(at, p[1..], w, w');
      PutStepTwice(v, p[0], Put(at, p[1..], w), Put(at, p[1..], w'));
    }
  }

  lemma {:induction false} PutSame(v: Value, p: Path)
    requires At(v, p).Some?
    ensures Put(v, p, At(v, p).value) == v
  {
    if p != [] {
      PutSame(StepTo(v, p[0]).value, p[1..]);
    }
  }

  lemma {:induction false} AtAppend(v: Value, p: Path, q: Path)
    ensures At(v, p + q) == (if At(v, p).Some? then At(At(v, p).value, q) else None)
    decreases |p|
  {
    if p == [] {
      assert p + q == q;
    } else {
      assert (p + q)[1..] == p[1..] + q;
      if StepTo(v, p[0]).Some? {
        AtAppend(StepTo(v, p[0]).value, p[1..], q);
      }
    }
  }

  lemma {:induction false} PutAppend(v: Value, p: Path, q: Path, w: Value)
    requires At(v, p + q).Some?
    ensures At(v, p).Some? && At(At(v, p).value, q).Some?
    ensures Put(v, p + q, w) == Put(v, p, Put(At(v, p).value, q, w))
    decreases |p|
  {
    AtAppend(v, p, q);
    if p == [] {
      assert p + q == q;
    } else {
      assert (p + q)[1..] == p[1..] + q;
      PutAppend(StepTo(v, p[0]).value, p[1..], q, w);
    }
  }

  // ---------- the order of keys in a table

  predicate IsFirst(k: string, keys: set<string>) {
    k in keys && forall other :: other in keys && other != k ==> Before(k, other)
  }

  lemma {:induction false} FirstExists(keys: set<string>) returns (k: string)
    requires keys != {}
    ensures IsFirst(k, keys)
    decreases |keys|
  {
    k :| k in keys;
    if keys != {k} {
      var rest := keys - {k};
      assert rest == {} ==> keys == {k};
      var m := FirstExists(rest);
      BeforeTotal(k, m);
      if Before(m, k) {
        k := m;
      } else {
        forall other | other in keys && other != k
          ensures Before(k, other)
        {
          if other != m { BeforeTransitive(k, m, other); }
        }
      }
    }
  }

  lemma FirstIsUnique(a: string, b: string, keys: set<string>)
    requires IsFirst(a, keys) && IsFirst(b, keys)
    ensures a == b
  {
    if a != b {
      BeforeTransitive(a, b, a);
      BeforeIrreflexive(a);
    }
  }

  /** The keys of a table in the order in which its entries are visited. */
  function SortedKeys(keys: set<string>): (ks: seq<string>)
    ensures forall k :: k in ks <==> k in keys
    ensures forall i, j :: 0 <= i < j < |ks| ==> Before(ks[i], ks[j])
  {
    if keys == {} then [] else
      assert exists k :: IsFirst(k, keys) by { var k := FirstExists(keys); }
      assert forall a, b :: IsFirst(a, keys) && IsFirst(b, keys) ==> a == b by {
        forall a, b | IsFirst(a, keys) && IsFirst(b, keys) ensures a == b { FirstIsUnique(a, b, keys); }
      }
      var k :| k in keys && IsFirst(k, keys);
      [k] + SortedKeys(keys - {k})
  }

  lemma SortedKeysDistinct(keys: set<string>)
    ensures forall i, j :: 0 <= i < j < |SortedKeys(keys)| ==> SortedKeys(keys)[i] != SortedKeys(keys)[j]
  {
    forall i, j | 0 <= i < j < |SortedKeys(keys)|
      ensures SortedKeys(keys)[i] != SortedKeys(keys)[j]
    {
      BeforeIrreflexive(SortedKeys(keys)[i]);
    }
  }
}
