/** The casts into a type: a doubly linked list whose last hit is kept at the front. */
module SwigCasts {
  import opened Basics

  // ---------- moving to the front

  function MoveToFront<T>(s: seq<T>, i: nat): (r: seq<T>)
    requires i < |s|
    ensures |r| == |s|
    ensures (forall x :: x in s ==> x in r) && (forall x :: x in r ==> x in s)
  {
    var r := [s[i]] + s[..i] + s[i + 1..];
    assert forall k :: 0 <= k < i ==> r[k + 1] == s[k];
    assert forall k :: i < k < |s| ==> r[k] == s[k];
    assert r[0] == s[i];
    r
  }

  /** Where the k-th element was before the i-th one moved. */
  function Was(i: nat, k: nat): nat {
    if k == 0 then i else if k <= i then k - 1 else k
  }

  lemma MovedFrom<T>(s: seq<T>, i: nat)
    requires i < |s|
    ensures |MoveToFront(s, i)| == |s|
    ensures forall k :: 0 <= k < |s| ==> MoveToFront(s, i)[k] == s[Was(i, k)]
  {
  }

  // ---------- what the list holds and what is asked of it

  datatype Entry = Entry(cast: CastInfo, target: TypeInfo)

  datatype Query = ByName(name: string) | ByType(from: TypeInfo)

  predicate Matches(q: Query, e: Entry) {
    match q
    case ByName(name) => e.target.name == name
    case ByType(from) => e.target == from
  }

  /** The index of the first entry that matches, or the length when none does. */
  function Find(s: seq<Entry>, q: Query): (i: nat)
    ensures i <= |s| && (forall k :: 0 <= k < i ==> !Matches(q, s[k]))
    ensures i < |s| ==> Matches(q, s[i])
  {
    if s == [] || Matches(q, s[0]) then 0 else Find(s[1..], q) + 1
  }

  lemma FoundAt(s: seq<Entry>, q: Query, i: nat)
    requires i <= |s| && (forall k :: 0 <= k < i ==> !Matches(q, s[k]))
    requires i < |s| ==> Matches(q, s[i])
    ensures Find(s, q) == i
    ensures Touch(s, q) == if i < |s| then MoveToFront(s, i) else s
    ensures Answer(s, q) == if i < |s| then Some(s[i]) else None
    ensures s != [] && i == 0 ==> Touch(s, q) == s
  {
  }

  /** One lookup. */
  function Touch(s: seq<Entry>, q: Query): (r: seq<Entry>)
    ensures (forall x :: x in s ==> x in r) && (forall x :: x in r ==> x in s)
  {
    var i := Find(s, q);
    if i < |s| then MoveToFront(s, i) else s
  }

  // ---------- runs of lookups

  /** The list after a run of lookups. */
  function Run(s: seq<Entry>, qs: seq<Query>): (r: seq<Entry>)
    ensures (forall x :: x in s ==> x in r) && (forall x :: x in r ==> x in s)
  {
    if qs == [] then s else Touch(Run(s, qs[..|qs| - 1]), qs[|qs| - 1])
  }

  /** The answer of the last lookup of a run. */
  function Answer(s: seq<Entry>, q: Query): Option<Entry> {
    var i := Find(s, q);
    if i < |s| then Some(s[i]) else None
  }

  /** The entries returned by a run, in order. */
  function Hits(s: seq<Entry>, qs: seq<Query>): seq<Entry> {
    if qs == [] then [] else
      var before := qs[..|qs| - 1];
      match Answer(Run(s, before), qs[|qs| - 1])
      case Some(e) => Hits(s, before) + [e]
      case None => Hits(s, before)
  }

  /** The list without the entries of another one. */
  function Without(s: seq<Entry>, gone: seq<Entry>): (r: seq<Entry>)
    ensures forall x :: x in r ==> x in s && x !in gone
  {
    if s == [] then [] else
      (if s[0] in gone then [] else [s[0]]) + Without(s[1..], gone)
  }

  /** The distinct entries returned, the latest first. */
  function Recent(hits: seq<Entry>): (r: seq<Entry>)
    ensures (forall x :: x in r ==> x in hits)
  {
    if hits == [] then [] else
      var last := hits[|hits| - 1];
      [last] + Without(Recent(hits[..|hits| - 1]), [last])
  }

  lemma AbsentFromRest(s: seq<Entry>)
    requires s != [] && Distinct(s)
    ensures s[0] !in s[1..]
  {
  }

  lemma {:induction false} WithoutOne(s: seq<Entry>, i: nat)
    requires i < |s| && Distinct(s)
    ensures Without(s, [s[i]]) == s[..i] + s[i + 1..]
    decreases |s|
  {
    var rest := s[1..];
    if i == 0 {
      AbsentFromRest(s);
      WithoutAbsent(rest, [s[0]]);
    } else {
      assert Distinct(rest);
      WithoutOne(rest, i - 1);
      assert rest[i - 1] == s[i] && s[0] != s[i];
      assert s[..i] == [s[0]] + rest[..i - 1] && rest[i..] == s[i + 1..];
    }
  }

  lemma {:induction false} WithoutAbsent(s: seq<Entry>, gone: seq<Entry>)
    requires forall x :: x in s ==> x !in gone
    ensures Without(s, gone) == s
  {
    if s != [] {
      WithoutAbsent(s[1..], gone);
    }
  }

  lemma {:induction false} WithoutAppend(a: seq<Entry>, b: seq<Entry>, gone: seq<Entry>)
    ensures Without(a + b, gone) == Without(a, gone) + Without(b, gone)
  {
    if a == [] {
      assert a + b == b;
    } else {
      assert (a + b)[1..] == a[1..] + b;
      WithoutAppend(a[1..], b, gone);
    }
  }

  lemma {:induction false} WithoutMore(s: seq<Entry>, gone: seq<Entry>, e: Entry)
    ensures Without(Without(s, gone), [e]) == Without(s, gone + [e])
  {
    if s != [] {
      WithoutMore(s[1..], gone, e);
      WithoutAppend(if s[0] in gone then [] else [s[0]], Without(s[1..], gone), [e]);
    }
  }

  lemma {:induction false} TouchKeepsDistinct(s: seq<Entry>, q: Query)
    requires Distinct(s)
    ensures Distinct(Touch(s, q))
  {
    var i := Find(s, q);
    if i < |s| {
      var r := MoveToFront(s, i);
      assert forall k :: 0 < k <= i ==> r[k] == s[k - 1];
      assert forall k :: i < k < |s| ==> r[k] == s[k];
    }
  }

  lemma {:induction false} RunKeepsDistinct(s: seq<Entry>, qs: seq<Query>)
    requires Distinct(s)
    ensures Distinct(Run(s, qs))
  {
    if qs != [] {
      RunKeepsDistinct(s, qs[..|qs| - 1]);
      TouchKeepsDistinct(Run(s, qs[..|qs| - 1]), qs[|qs| - 1]);
    }
  }

  /** After any run of lookups the entries returned stand first, the latest in front,
      and all others follow in the order in which they were. */
  lemma {:induction false} RunIsRecency(s: seq<Entry>, qs: seq<Query>)
    requires Distinct(s)
    ensures Run(s, qs) == Recent(Hits(s, qs)) + Without(s, Hits(s, qs))
  {
    if qs == [] {
      WithoutAbsent(s, []);
    } else {
      hide Recent, Without, Find, MoveToFront;
      var before, q := qs[..|qs| - 1], qs[|qs| - 1];
      var list, hits := Run(s, before), Hits(s, before);
      RunIsRecency(s, before);
      RunKeepsDistinct(s, before);
      if Find(list, q) < |list| {
        RecencyStep(s, list, hits, Find(list, q));
      }
    }
  }

  lemma RecencyStep(s: seq<Entry>, list: seq<Entry>, hits: seq<Entry>, i: nat)
    requires Distinct(list) && list == Recent(hits) + Without(s, hits) && i < |list|
    ensures MoveToFront(list, i) == Recent(hits + [list[i]]) + Without(s, hits + [list[i]])
  {
    hide Recent, Without, MoveToFront;
    var e, first, rest := list[i], Recent(hits), Without(s, hits);
    WithoutOne(list, i);
    WithoutAppend(first, rest, [e]);
    WithoutMore(s, hits, e);
    RecentAppend(hits, e);
    MoveIsCons(list, i, Without(first, [e]), Without(rest, [e]));
  }

  lemma MoveIsCons(list: seq<Entry>, i: nat, a: seq<Entry>, b: seq<Entry>)
    requires i < |list| && list[..i] + list[i + 1..] == a + b
    ensures MoveToFront(list, i) == ([list[i]] + a) + b
  {
    assert MoveToFront(list, i) == [list[i]] + (list[..i] + list[i + 1..]);
  }

  lemma RecentAppend(hits: seq<Entry>, e: Entry)
    ensures Recent(hits + [e]) == [e] + Without(Recent(hits), [e])
  {
    assert (hits + [e])[..|hits|] == hits;
  }

  /** A lookup after any run answers as a search of the original list: it returns
      something exactly when an entry matches. */
  lemma {:induction false} RunAnswers(s: seq<Entry>, qs: seq<Query>, q: Query)
    ensures Answer(Run(s, qs), q).Some? <==> exists e :: e in s && Matches(q, e)
    ensures Answer(Run(s, qs), q).Some? ==> Answer(Run(s, qs), q).value in s && Matches(q, Answer(Run(s, qs), q).value)
  {
    var list := Run(s, qs);
    if e :| e in s && Matches(q, e) {
      var k :| 0 <= k < |list| && list[k] == e;
    }
  }

  // ---------- the list

  class TypeInfo {
    const name: string
    const str: Option<string>
    var cast: CastInfo?
    var clientdata: nat
    ghost var casts: seq<CastInfo>

    /** The links of the list agree with its contents. */
    ghost predicate Linked()
      reads this, casts
    {
      && cast == (if casts == [] then null else casts[0])
      && (forall i, j :: 0 <= i < j < |casts| ==> casts[i] != casts[j])
      && (forall i :: 0 <= i < |casts| ==> LinkedAt(i))
    }

    ghost predicate LinkedAt(i: nat)
      requires i < |casts|
      reads this, casts
    {
      && casts[i].owner == this && casts[i].target != null
      && casts[i].next == (if i + 1 < |casts| then casts[i + 1] else null)
      && casts[i].prev == (if i > 0 then casts[i - 1] else null)
    }

    lemma Owned()
      requires Linked()
      ensures forall c :: c in casts ==> c.owner == this && c.target != null
    {
      forall c | c in casts
        ensures c.owner == this && c.target != null
      {
        var i :| 0 <= i < |casts| && casts[i] == c;
        assert LinkedAt(i);
      }
    }

    ghost function Entries(): (es: seq<Entry>)
      requires Linked()
      reads this, casts
      ensures |es| == |casts| && forall i :: 0 <= i < |casts| ==>
        es[i].cast == casts[i] && es[i].target == casts[i].target
    {
      EntriesFrom(0)
    }

    ghost function EntriesFrom(i: nat): (es: seq<Entry>)
      requires Linked() && i <= |casts|
      reads this, casts
      ensures |es| == |casts| - i && forall k :: 0 <= k < |es| ==>
        es[k].cast == casts[i + k] && es[k].target == casts[i + k].target
      decreases |casts| - i
    {
      if i == |casts| then [] else assert LinkedAt(i); [Entry(casts[i], casts[i].target)] + EntriesFrom(i + 1)
    }

    constructor (name: string, str: Option<string>, clientdata: nat)
      ensures this.name == name && this.str == str && this.clientdata == clientdata
      ensures casts == [] && Linked()
    {
      this.name, this.str, this.clientdata := name, str, clientdata;
      cast, casts := null, [];
    }

    method Overwrite(data: nat)
      requires Linked()
      modifies this`clientdata
      ensures Linked() && clientdata == data
    {
      clientdata := data;
      forall k | 0 <= k < |casts|
        ensures LinkedAt(k)
      {
        assert old(LinkedAt(k));
      }
    }

    /** Takes the i-th cast, which is not the first, out of the list. */
    method Unlink(iter: CastInfo, ghost i: nat)
      requires Linked() && 0 < i < |casts| && iter == casts[i]
      modifies this`casts, casts`next, casts`prev, iter`owner
      ensures Linked() && casts == old(casts)[..i] + old(casts)[i + 1..]
      ensures iter.owner == null
    {
      assert LinkedAt(i) && LinkedAt(i - 1);
      assert i + 1 < |casts| ==> LinkedAt(i + 1);
      iter.prev.next := iter.next;
      if iter.next != null {
        iter.next.prev := iter.prev;
      }
      iter.owner := null;
      casts := casts[..i] + casts[i + 1..];
      forall k | 0 <= k < |casts|
        ensures LinkedAt(k)
      {
        assert if k < i then old(LinkedAt(k)) else old(LinkedAt(k + 1));
      }
    }

    /** Puts a cast that is in no list in front. */
    method PutFirst(iter: CastInfo)
      requires Linked() && iter.owner == null && iter.target != null
      modifies this`cast, this`casts, iter`next, iter`prev, iter`owner, casts`prev
      ensures Linked() && casts == [iter] + old(casts)
    {
      Owned();
      assert casts != [] ==> LinkedAt(0);
      iter.next := cast;
      iter.prev := null;
      if cast != null {
        cast.prev := iter;
      }
      cast := iter;
      iter.owner := this;
      casts := [iter] + casts;
      forall k | 0 <= k < |casts|
        ensures LinkedAt(k)
      {
        assert k > 0 ==> casts[k] == old(casts)[k - 1] && old(LinkedAt(k - 1));
      }
    }

    /** Relinks the i-th cast as the first. */
    method Promote(iter: CastInfo, ghost i: nat)
      requires Linked() && 0 < i < |casts| && iter == casts[i]
      modifies this`cast, this`casts, casts`next, casts`prev, iter`owner
      ensures Linked() && casts == MoveToFront(old(casts), i)
    {
      assert LinkedAt(i);
      hide Linked;
      Unlink(iter, i);
      PutFirst(iter);
    }

    twostate lemma MovedEntries(i: nat)
      requires old(Linked()) && Linked() && i < |old(casts)|
      requires casts == MoveToFront(old(casts), i)
      requires forall c :: c in casts ==> c.target == old(c.target)
      ensures Entries() == MoveToFront(old(Entries()), i)
    {
      MovedFrom(old(casts), i);
      MovedFrom(old(Entries()), i);
      hide MoveToFront, Linked;
      forall k | 0 <= k < |casts|
        ensures Entries()[k] == MoveToFront(old(Entries()), i)[k]
      {
        assert casts[k] == old(casts)[Was(i, k)];
      }
    }

    /** Puts an unused cast in front. */
    method Insert(c: CastInfo)
      requires Linked() && c.owner == null && c.next == null && c.prev == null && c.target != null
      modifies this`cast, this`casts, c`next, c`owner, casts`prev
      ensures Linked() && casts == [c] + old(casts)
    {
      Owned();
      assert casts != [] ==> LinkedAt(0);
      if cast != null {
        cast.prev := c;
        c.next := cast;
      }
      cast := c;
      c.owner := this;
      casts := [c] + casts;
      forall k | 0 <= k < |casts|
        ensures LinkedAt(k)
      {
        assert k > 0 ==> casts[k] == old(casts)[k - 1] && old(LinkedAt(k - 1));
      }
    }

    /** Searches the list and brings the hit to its front. */
    method Check(q: Query) returns (r: CastInfo?)
      requires Linked()
      modifies this`cast, this`casts, casts`next, casts`prev, casts`owner
      ensures Linked() && Entries() == Touch(old(Entries()), q)
      ensures match Answer(old(Entries()), q)
        case Some(e) => r == e.cast
        case None => r == null
    {
      hide Find, Touch, Answer, MoveToFront;
      ghost var entries := Entries();
      var iter := cast;
      ghost var i := 0;
      while iter != null
        invariant i <= |casts| && iter == (if i < |casts| then casts[i] else null)
        invariant forall k :: 0 <= k < i ==> !Matches(q, entries[k])
        decreases |casts| - i
      {
        assert LinkedAt(i);
        if Matches(q, Entry(iter, iter.target)) {
          FoundAt(entries, q, i);
          if iter == cast {
            return iter;
          }
          Promote(iter, i);
          MovedEntries(i);
          return iter;
        }
        iter := iter.next;
        i := i + 1;
      }
      FoundAt(entries, q, i);
      return null;
    }
  }

  class CastInfo {
    var target: TypeInfo?
    const converter: nat
    var next: CastInfo?
    var prev: CastInfo?
    ghost var owner: TypeInfo?

    constructor (target: TypeInfo?, converter: nat)
      ensures this.target == target && this.converter == converter
      ensures next == null && prev == null && owner == null
    {
      this.target, this.converter := target, converter;
      next, prev, owner := null, null, null;
    }
  }

  ghost function Lists(ty: TypeInfo?): (s: set<TypeInfo>) {
    if ty == null then {} else {ty}
  }

  ghost function Nodes(ty: TypeInfo?): (s: set<CastInfo>)
    reads Lists(ty)
  {
    if ty == null then {} else set c | c in ty.casts
  }

  /** The cast from the named type, if there is one. */
  method TypeCheck(name: string, ty: TypeInfo?) returns (r: CastInfo?)
    requires ty != null ==> ty.Linked()
    modifies Lists(ty)`cast, Lists(ty)`casts, Nodes(ty)`next, Nodes(ty)`prev, Nodes(ty)`owner
    ensures ty == null ==> r == null
    ensures ty != null ==> ty.Linked() && ty.Entries() == Touch(old(ty.Entries()), ByName(name))
    ensures ty != null ==> match Answer(old(ty.Entries()), ByName(name))
      case Some(e) => r == e.cast
      case None => r == null
  {
    r := null;
    if ty != null {
      r := ty.Check(ByName(name));
    }
  }

  /** The cast from the given type, compared as an object. */
  method TypeCheckStruct(from: TypeInfo, ty: TypeInfo?) returns (r: CastInfo?)
    requires ty != null ==> ty.Linked()
    modifies Lists(ty)`cast, Lists(ty)`casts, Nodes(ty)`next, Nodes(ty)`prev, Nodes(ty)`owner
    ensures ty == null ==> r == null
    ensures ty != null ==> ty.Linked() && ty.Entries() == Touch(old(ty.Entries()), ByType(from))
    ensures ty != null ==> match Answer(old(ty.Entries()), ByType(from))
      case Some(e) => r == e.cast
      case None => r == null
  {
    r := null;
    if ty != null {
      r := ty.Check(ByType(from));
    }
  }
}
