/** Comparing readable type names, which may hold blanks and come in `|`-separated lists. */
module SwigNames {
  import opened Basics

  // ---------- one name

  function Strip(s: string): (r: string)
    ensures |r| <= |s|
  {
    if s == "" then "" else if s[0] == ' ' then Strip(s[1..]) else [s[0]] + Strip(s[1..])
  }

  predicate TrailingBlank(s: string) { s != "" && s[|s| - 1] == ' ' }

  /** When the comparison calls two names the same. */
  predicate Same(a: string, b: string) {
    Strip(a) == Strip(b) && !TrailingBlank(a) && !TrailingBlank(b)
  }

  lemma {:induction false} StripIsEmpty(s: string)
    requires s != "" && !TrailingBlank(s)
    ensures Strip(s) != ""
  {
    if s[0] == ' ' {
      StripIsEmpty(s[1..]);
    }
  }

  lemma {:induction false} CommonPrefix(p: string, a: string, b: string)
    ensures p + a == p + b <==> a == b
    ensures Before(p + a, p + b) <==> Before(a, b)
  {
    if p == "" {
      assert p + a == a && p + b == b;
    } else {
      assert (p + a)[1..] == p[1..] + a && (p + b)[1..] == p[1..] + b;
      CommonPrefix(p[1..], a, b);
      if p + a == p + b {
        assert p[1..] + a == p[1..] + b;
      }
    }
  }

  method SkipBlanks(s: string, from: nat, end: nat) returns (f: nat)
    requires from <= end <= |s|
    ensures from <= f <= end
    ensures forall i :: from <= i < f ==> s[i] == ' '
    ensures f < end ==> s[f] != ' '
    ensures Strip(s[f..end]) == Strip(s[from..end])
    ensures TrailingBlank(s[f..end]) <==> f < end && TrailingBlank(s[from..end])
    ensures from < end == f ==> TrailingBlank(s[from..end])
  {
    f := from;
    while CharAt(s, f) == ' ' && f != end
      invariant from <= f <= end
      invariant forall i :: from <= i < f ==> s[i] == ' '
      invariant Strip(s[f..end]) == Strip(s[from..end])
      decreases end - f
    {
      assert s[f..end][1..] == s[f + 1..end];
      f := f + 1;
    }
  }

  /** What is still to be compared, in terms of the whole names. */
  ghost predicate Pending(a: string, b: string, restA: string, restB: string, p: string) {
    && Strip(a) == p + Strip(restA)
    && Strip(b) == p + Strip(restB)
    && (TrailingBlank(a) <==> TrailingBlank(restA))
    && (TrailingBlank(b) <==> TrailingBlank(restB))
  }

  /** How the sign of a comparison orders two names. */
  ghost predicate Orders(a: string, b: string, cmp: int) {
    && (cmp == 0 <==> Same(a, b))
    && (!TrailingBlank(a) && !TrailingBlank(b) ==> (cmp < 0 <==> Before(Strip(a), Strip(b))))
  }

  lemma OneIsOver(a: string, b: string, restA: string, restB: string, p: string)
    requires Pending(a, b, restA, restB, p)
    requires restA == "" || restB == ""
    ensures Orders(a, b, |restA| - |restB|)
  {
    CommonPrefix(p, Strip(restA), Strip(restB));
    if restA != "" && !TrailingBlank(restA) {
      StripIsEmpty(restA);
    }
    if restB != "" && !TrailingBlank(restB) {
      StripIsEmpty(restB);
    }
  }

  lemma FirstDiffers(a: string, b: string, restA: string, restB: string, p: string)
    requires Pending(a, b, restA, restB, p)
    requires restA != "" && restB != "" && restA[0] != ' ' && restB[0] != ' ' && restA[0] != restB[0]
    ensures Orders(a, b, if restA[0] > restB[0] then 1 else -1)
  {
    CommonPrefix(p, Strip(restA), Strip(restB));
  }

  lemma FirstAgrees(a: string, b: string, restA: string, restB: string, p: string)
    requires Pending(a, b, restA, restB, p)
    requires restA != "" && restB != "" && restA[0] != ' ' && restA[0] == restB[0]
    ensures Pending(a, b, restA[1..], restB[1..], p + [restA[0]])
  {
    var c := [restA[0]];
    assert (p + c) + Strip(restA[1..]) == p + (c + Strip(restA[1..]));
    assert (p + c) + Strip(restB[1..]) == p + (c + Strip(restB[1..]));
  }

  lemma Started(a: string, b: string)
    ensures Pending(a, b, a, b, "")
  {
    assert "" + Strip(a) == Strip(a) && "" + Strip(b) == Strip(b);
  }

  lemma Skipped(a: string, b: string, restA: string, restB: string, p: string, nextA: string, nextB: string)
    requires Pending(a, b, restA, restB, p)
    requires Strip(nextA) == Strip(restA) && Strip(nextB) == Strip(restB)
    requires TrailingBlank(nextA) == (nextA != "" && TrailingBlank(restA))
    requires TrailingBlank(nextB) == (nextB != "" && TrailingBlank(restB))
    ensures nextA != "" && nextB != "" ==> Pending(a, b, nextA, nextB, p)
    ensures TrailingBlank(a) <==> TrailingBlank(restA)
    ensures TrailingBlank(b) <==> TrailingBlank(restB)
  {
  }

  lemma BlankAtEnd(a: string, b: string, cmp: int)
    requires TrailingBlank(a) || TrailingBlank(b)
    requires cmp != 0
    ensures Orders(a, b, cmp)
  {
  }

  /** Whether a comparison keeps inside both names: a blank at the end of the first one
      must meet a character of the second that does not end a name of a list. */
  predicate Comparable(a: string, b: string) {
    !TrailingBlank(a) || (!TrailingBlank(b) && '|' !in b)
  }

  /** Compares the name at buffer[first..last] of a list with a name, skipping blanks. */
  method TypeNameComp(buffer: string, first: nat, last: nat, name: string) returns (cmp: int)
    requires first <= last <= |buffer| && '\0' !in buffer && '\0' !in name
    requires CharAt(buffer, last) == '|' || last == |buffer|
    requires Comparable(buffer[first..last], name)
    ensures Orders(buffer[first..last], name, cmp)
  {
    hide Strip, Before, Orders, Pending;
    ghost var a := buffer[first..last];
    ghost var p := "";
    var f1, f2 := first, 0;
    assert Pending(a, name, a, name, p) by { Started(a, name); }
    assert name[0..|name|] == name;
    while f1 != last && f2 != |name|
      invariant first <= f1 <= last && f2 <= |name|
      invariant Pending(a, name, buffer[f1..last], name[f2..|name|], p)
      decreases last - f1
    {
      ghost var restA, restB := buffer[f1..last], name[f2..|name|];
      f1 := SkipBlanks(buffer, f1, last);
      f2 := SkipBlanks(name, f2, |name|);
      ghost var nextA, nextB := buffer[f1..last], name[f2..|name|];
      Skipped(a, name, restA, restB, p, nextA, nextB);
      if CharAt(buffer, f1) != CharAt(name, f2) {
        cmp := if CharAt(buffer, f1) > CharAt(name, f2) then 1 else -1;
        if f1 < last && f2 < |name| {
          FirstDiffers(a, name, nextA, nextB, p);
        } else {
          BlankAtEnd(a, name, cmp);
        }
        return;
      }
      assert f1 < last && f2 < |name|;
      FirstAgrees(a, name, nextA, nextB, p);
      p := p + [buffer[f1]];
      assert nextA[1..] == buffer[f1 + 1..last] && nextB[1..] == name[f2 + 1..|name|];
      f1, f2 := f1 + 1, f2 + 1;
    }
    OneIsOver(a, name, buffer[f1..last], name[f2..|name|], p);
    cmp := (last - f1) - (|name| - f2);
  }

  // ---------- a list of names

  function UpToBar(s: string): (k: nat)
    ensures k <= |s| && (forall i :: 0 <= i < k ==> s[i] != '|') && (k < |s| ==> s[k] == '|')
  {
    if s == "" || s[0] == '|' then 0 else UpToBar(s[1..]) + 1
  }

  function AfterBar(s: string): (r: string)
    ensures s != "" ==> |r| < |s|
  {
    var k := UpToBar(s);
    if k < |s| then s[k + 1..] else ""
  }

  /** The names of a list, in order; nothing follows a bar at the very end. */
  function Names(s: string): (r: seq<string>)
    ensures r == [] <==> s == ""
    decreases |s|
  {
    if s == "" then [] else [s[..UpToBar(s)]] + Names(AfterBar(s))
  }

  /** A name of a list stands between its ends and its bars. */
  ghost predicate Delimited(s: string, n: string, x: string, y: string) {
    && s == x + n + y && '|' !in n
    && (x == "" || x[|x| - 1] == '|')
    && (y == "" || y[0] == '|')
  }

  lemma {:induction false} NameIsDelimited(s: string, n: string) returns (x: string, y: string)
    requires n in Names(s)
    ensures Delimited(s, n, x, y)
    decreases |s|
  {
    var k := UpToBar(s);
    if n == s[..k] {
      x, y := "", s[k..];
    } else {
      var x', y' := NameIsDelimited(AfterBar(s), n);
      x, y := s[..k + 1] + x', y';
      Joined(s, k, x', n, y');
    }
  }

  lemma Joined(s: string, k: nat, x: string, n: string, y: string)
    requires k < |s| && s[k] == '|' && Delimited(s[k + 1..], n, x, y)
    ensures Delimited(s, n, s[..k + 1] + x, y)
  {
    assert s == s[..k + 1] + (x + n + y);
    assert s[..k + 1] + (x + n + y) == (s[..k + 1] + x) + n + y;
  }

  lemma FirstDelimited(s: string, n: string, y: string)
    requires Delimited(s, n, "", y)
    ensures s[..UpToBar(s)] == n
  {
    assert s == n + y;
    assert y != "" ==> s[|n|] == y[0];
    assert forall i :: 0 <= i < |n| ==> s[i] == n[i];
  }

  lemma LaterDelimited(s: string, n: string, x: string, y: string)
    requires Delimited(s, n, x, y) && x != ""
    ensures UpToBar(s) < |x| && Delimited(AfterBar(s), n, x[UpToBar(s) + 1..], y)
  {
    var k := UpToBar(s);
    assert s[|x| - 1] == x[|x| - 1] == '|';
    assert s[k + 1..] == x[k + 1..] + n + y;
  }

  lemma {:induction false} DelimitedIsName(s: string, n: string, x: string, y: string)
    requires Delimited(s, n, x, y) && n != ""
    ensures n in Names(s)
    decreases |s|
  {
    hide UpToBar, AfterBar;
    if x == "" {
      FirstDelimited(s, n, y);
    } else {
      LaterDelimited(s, n, x, y);
      DelimitedIsName(AfterBar(s), n, x[UpToBar(s) + 1..], y);
    }
  }

  lemma NamesStep(list: string, from: nat, next: nat)
    requires from < |list| && next == from + UpToBar(list[from..])
    ensures from <= next <= |list|
    ensures CharAt(list, next) == '|' || next == |list|
    ensures Names(list[from..]) == [list[from..next]] + Names(list[if next < |list| then next + 1 else next..])
  {
    hide UpToBar;
    var rest, k := list[from..], UpToBar(list[from..]);
    assert rest[..k] == list[from..next];
    assert AfterBar(rest) == list[if next < |list| then next + 1 else next..] by {
      assert k < |rest| ==> rest[k + 1..] == list[next + 1..];
    }
  }

  /** Compares every name of a list until one is the same as the given name. */
  method TypeCmp(list: string, name: string) returns (equiv: int)
    requires '\0' !in list && '\0' !in name
    requires forall n :: n in Names(list) ==> Comparable(n, name)
    ensures equiv == 0 <==> exists n :: n in Names(list) && Same(n, name)
    ensures list == "" ==> equiv == 1
    ensures list != "" && equiv != 0 ==> Orders(Names(list)[|Names(list)| - 1], name, equiv)
  {
    hide Names, UpToBar, Strip, Before;
    equiv := 1;
    var next := 0;
    ghost var done: seq<string> := [];
    assert list[0..] == list;
    while equiv != 0 && next < |list|
      invariant next <= |list|
      invariant Names(list) == done + Names(list[next..])
      invariant equiv == 0 <==> exists n :: n in done && Same(n, name)
      invariant done == [] ==> equiv == 1
      invariant done != [] ==> Orders(done[|done| - 1], name, equiv)
      decreases equiv != 0, |list| - next
    {
      var from := next;
      next := FindBar(list, from);
      NamesStep(list, from, next);
      ghost var n := list[from..next];
      assert n in Names(list);
      equiv := TypeNameComp(list, from, next, name);
      done := done + [n];
      if next < |list| {
        next := next + 1;
      }
    }
    assert equiv != 0 ==> list[next..] == "" && Names(list) == done;
  }

  method FindBar(list: string, from: nat) returns (k: nat)
    requires from <= |list|
    ensures from <= k <= |list| && k == from + UpToBar(list[from..])
  {
    k := from;
    while k < |list|
      invariant from <= k <= |list|
      invariant from + UpToBar(list[from..]) == k + UpToBar(list[k..])
    {
      if list[k] == '|' { break; }
      assert list[k..][1..] == list[k + 1..];
      k := k + 1;
    }
  }
}
