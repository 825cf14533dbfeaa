/** Federates in a line of any length: when data comes in time. */
module TimePipeline {
  import opened TimeDependencies
  import opened TimeCoordinator
  import opened TimeGrants
  import opened TimePromises
  import opened TimeNetwork
  import opened TimeRuns
  import opened TimeOvertaking

  // ---------- the line

  /** The k-th federate as execution starts: it depends on the one before it. */
  function Member(flags: seq<bool>, k: nat): Coord
    requires k < |flags|
  {
    Entered(PLAIN.(uninterruptible := flags[k]), if k == 0 then [] else [At(k - 1, 0)], k + 1 < |flags|)
  }

  predicate Adjacent(flags: seq<bool>, b: nat, a: nat) { a == b + 1 < |flags| }

  /** A line of federates with default options, of which those with a flag are uninterruptible. */
  function Line(flags: seq<bool>): Network {
    Network(map k: nat | k < |flags| :: Member(flags, k),
            map k: nat | k < |flags| && Member(flags, k) == Member(flags, k) :: Acts,
            map b: nat, a: nat | b < |flags| && a == b + 1 && Adjacent(flags, b, a) :: (b, a) := [])
  }

  lemma LineOf(flags: seq<bool>)
    ensures var n := Line(flags);
      && (forall k: nat :: k in n.feds <==> k < |flags|)
      && (forall k: nat :: k in n.phase <==> k < |flags|)
      && (forall k: nat :: k < |flags| ==> n.feds[k] == Member(flags, k) && n.phase[k] == Acts)
      && (forall b: nat, a: nat :: (b, a) in n.channels <==> Adjacent(flags, b, a))
      && (forall e :: e in n.channels ==> n.channels[e] == [])
  {
  }

  lemma LineIsEntering(flags: seq<bool>)
    ensures Entering(Line(flags))
  {
    hide Line;
    LineOf(flags);
    var n := Line(flags);
    forall b, a | (b, a) in n.channels
      ensures b in n.feds && a in n.feds && Has(n.feds[a].deps, b)
    {
      assert Adjacent(flags, b, a);
      assert Member(flags, a).deps[0].fed == b;
    }
    forall f, i | f in n.feds && 0 <= i < |n.feds[f].deps|
      ensures n.feds[f].deps[i].next <= 0 && (n.feds[f].deps[i].fed, f) in n.channels
    {
      assert Adjacent(flags, f - 1, f);
    }
  }

  // ---------- ranks

  /** Whether the k-th federate does not depend on what others do. */
  predicate Fixed(flags: seq<bool>, k: nat)
    requires k < |flags|
  {
    k == 0 || flags[k]
  }

  /** Two interruptible federates in a row, the first of which depends on another and the second
      of which another one depends on. */
  ghost predicate TwoInARow(flags: seq<bool>) {
    exists i :: 1 <= i && i + 2 < |flags| && !flags[i] && !flags[i + 1]
  }

  ghost predicate ThreeInARow(flags: seq<bool>) {
    exists i :: 1 <= i && i + 3 < |flags| && !flags[i] && !flags[i + 1] && !flags[i + 2]
  }

  function CautiousRank(flags: seq<bool>, k: nat): nat
    requires k < |flags|
  {
    if Fixed(flags, k) then 0 else 2
  }

  function Rank(flags: seq<bool>, k: nat): nat
    requires k < |flags|
  {
    if Fixed(flags, k) then 0 else if Fixed(flags, k - 1) then 1 else 2
  }

  lemma CautiousRanked(flags: seq<bool>)
    requires !TwoInARow(flags)
    ensures Ranked(map k: nat | k < |flags| :: CautiousRank(flags, k), Line(flags))
  {
    hide Line;
    LineOf(flags);
    var n, rank := Line(flags), map k: nat | k < |flags| :: CautiousRank(flags, k);
    forall b, a | (b, a) in n.channels
      ensures b in n.feds && Vouched(rank, b, n.feds[b])
    {
      assert Adjacent(flags, b, a);
      if !Fixed(flags, b) {
        assert b > 1 ==> flags[b - 1];
      }
    }
  }

  lemma LineRanked(flags: seq<bool>)
    requires !ThreeInARow(flags)
    ensures Ranked(map k: nat | k < |flags| :: Rank(flags, k), Line(flags))
  {
    hide Line;
    LineOf(flags);
    var n, rank := Line(flags), map k: nat | k < |flags| :: Rank(flags, k);
    forall b, a | (b, a) in n.channels
      ensures b in n.feds && Vouched(rank, b, n.feds[b])
    {
      assert Adjacent(flags, b, a);
      if !Fixed(flags, b) && !Fixed(flags, b - 1) {
        assert b > 2 ==> flags[b - 2];
      }
    }
  }

  // ---------- lines that keep step

  lemma SafeLine(flags: seq<bool>, run: seq<Action>, b: nat, a: nat)
    requires !TwoInARow(flags) || (!ThreeInARow(flags) && NoIteration(run))
    ensures !Late(Execute(Line(flags), run), b, a)
  {
    hide Execute, InTime, Entering, Ranked, Line;
    LineIsEntering(flags);
    if (b, a) in Execute(Line(flags), run).channels {
      var rank: map<nat, nat>;
      if !TwoInARow(flags) {
        rank := map k: nat | k < |flags| :: CautiousRank(flags, k);
        CautiousRanked(flags);
      } else {
        rank := map k: nat | k < |flags| :: Rank(flags, k);
        LineRanked(flags);
      }
      NoOneRunsAhead(rank, Line(flags), run, b, a);
    }
  }

  // ---------- lines that do not

  function FullRow(flags: seq<bool>): Row
    requires |flags| >= 2
  {
    Row(0, false, seq(|flags|, k requires 0 <= k < |flags| => Member(flags, k)), seq(|flags|, k => Acts),
        seq(|flags| - 1, k => []))
  }

  lemma LineShows(flags: seq<bool>)
    requires |flags| >= 2
    ensures FullRow(flags).Ok() && Shows(Line(flags), FullRow(flags))
  {
    hide Line;
    LineOf(flags);
    var n, r := Line(flags), FullRow(flags);
    forall k | 0 <= k < |r.feds|
      ensures ShowsFed(n, r, k)
    {
    }
    forall k | 0 <= k < |r.sent|
      ensures ShowsEdge(n, r, k)
    {
      assert Adjacent(flags, k, k + 1);
    }
  }

  /** A part of a row. */
  function Cut(r: Row, i: nat, size: nat): Row
    requires r.Ok() && !r.ring && size >= 2 && i + size <= |r.feds|
  {
    Row(r.first + i, false, r.feds[i..i + size], r.phases[i..i + size], r.sent[i..i + size - 1])
  }

  lemma ShowsCut(m: Network, r: Row, i: nat, size: nat)
    requires Shows(m, r) && !r.ring && size >= 2 && i + size <= |r.feds|
    ensures Shows(m, Cut(r, i, size))
  {
    var c := Cut(r, i, size);
    forall k | 0 <= k < |c.feds|
      ensures ShowsFed(m, c, k)
    {
      assert ShowsFed(m, r, i + k);
    }
    forall k | 0 <= k < |c.sent|
      ensures ShowsEdge(m, c, k)
    {
      assert ShowsEdge(m, r, i + k);
    }
  }

  lemma CutOfFive(flags: seq<bool>, i: nat)
    requires 1 <= i && i + 3 < |flags| && !flags[i] && !flags[i + 1] && !flags[i + 2]
    ensures Cut(FullRow(flags), i - 1, 5)
            == FiveReady(i - 1, Ends(Member(flags, i - 1), Acts, [], Member(flags, i + 3), Acts))
  {
    var e := Ends(Member(flags, i - 1), Acts, [], Member(flags, i + 3), Acts);
    var c, s := Cut(FullRow(flags), i - 1, 5), FiveReady(i - 1, e);
    assert c.feds == [Member(flags, i - 1), Member(flags, i), Member(flags, i + 1), Member(flags, i + 2),
                      Member(flags, i + 3)] == s.feds;
    assert c.phases == [Acts, Acts, Acts, Acts, Acts] == s.phases;
    assert c.sent == [[], [], [], []] == s.sent;
  }

  lemma ThreeAreTooMany(flags: seq<bool>, i: nat) returns (run: seq<Action>)
    requires 1 <= i && i + 3 < |flags| && !flags[i] && !flags[i + 1] && !flags[i + 2]
    ensures NoIteration(run) && Late(Execute(Line(flags), run), i + 2, i + 3)
  {
    hide Line, Shows, Late, FullRow, Cut, FiveReady, Execute, Leads;
    var n, m := Line(flags), Line(flags);
    var e := Ends(Member(flags, i - 1), Acts, [], Member(flags, i + 3), Acts);
    LineShows(flags);
    FullSize(flags);
    ShowsCut(n, FullRow(flags), i - 1, 5);
    CutOfFive(flags, i);
    assert Leads(n, [], n) by { LeadsNowhere(n); }
    run, m := FiveAreOvertaken(n, [], n, i - 1, e);
    LeadsTo(n, run, m);
  }

  lemma FullSize(flags: seq<bool>)
    requires |flags| >= 2
    ensures !FullRow(flags).ring && |FullRow(flags).feds| == |flags|
  {
  }

  /** A federate that starts, or knows that what it depends on is at time 2, is granted time 2. */
  lemma Reaches(c: Coord)
    requires Plain(c.info) && c == Entered(c.info, c.deps, true)
    requires c.deps == [] || (|c.deps| == 1 && c.deps[0] == At(c.deps[0].fed, 2))
    ensures var (c', ms, answered) := Turn(c, For(2));
      && answered && c'.granted == 2 && c'.info == c.info
      && |ms| == 2 && ms[0].Request? && ms[0].next <= 2 && ms[1] == Grant(2)
  {
    if c.deps != [] {
      hide FactorsOf, EventsReset, IterationsReset, Updated, ReadyForGrant;
      assert c.deps == [At(c.deps[0].fed, 2)];
      Single(At(c.deps[0].fed, 2));
    }
  }

  /** The g-th federate was granted time 2 and has told so; those after it have done nothing. */
  ghost predicate Ahead(flags: seq<bool>, g: nat, r: Row)
    requires g + 1 < |flags|
  {
    && r.Ok() && r.first == 0 && !r.ring && |r.feds| == |flags|
    && Plain(r.feds[g].info) && Arrived(Ends(r.feds[g], r.phases[g], r.sent[g], r.feds[g + 1], r.phases[g + 1]))
    && (forall k :: g < k < |flags| ==> r.feds[k] == Member(flags, k) && r.phases[k] == Acts)
    && (forall k :: g < k < |flags| - 1 ==> r.sent[k] == [])
  }

  lemma {:induction false} Advance(flags: seq<bool>, g: nat) returns (run: seq<Action>, m: Network, r: Row)
    requires g + 1 < |flags|
    ensures Leads(Line(flags), run, m) && Shows(m, r) && Ahead(flags, g, r)
  {
    hide Line, Shows, Step, Turn;
    var n := Line(flags);
    if g == 0 {
      LineShows(flags);
      run, m, r := [], n, FullRow(flags);
      Reaches(Member(flags, 0));
      run, m, r := AskStep(n, run, m, r, 0, For(2));
    } else {
      run, m, r := Advance(flags, g - 1);
      hide Leads;
      run, m, r := TakeBoth(flags, n, run, m, r, g);
      Reaches(r.feds[g]);
      run, m, r := AskStep(n, run, m, r, g, For(2));
    }
  }

  /** The g-th federate hears that the one before it was granted time 2. */
  lemma TakeBoth(flags: seq<bool>, n: Network, before: seq<Action>, l: Network, s: Row, g: nat)
    returns (run: seq<Action>, m: Network, r: Row)
    requires 1 <= g && g + 1 < |flags| && Leads(n, before, l) && Shows(l, s) && Ahead(flags, g - 1, s)
    ensures Leads(n, run, m) && Shows(m, r) && r.Ok() && r.first == 0 && !r.ring && |r.feds| == |flags|
    ensures r.feds[g] == Member(flags, g).(deps := [At(g - 1, 2)]) && !r.phases[g].Waits?
    ensures r.sent[g] == []
    ensures forall k :: g < k < |flags| ==> r.feds[k] == Member(flags, k) && r.phases[k] == Acts
    ensures forall k :: g < k < |flags| - 1 ==> r.sent[k] == []
  {
    hide Leads, Shows, Step;
    run, m, r := before, l, s;
    var d := At(g - 1, 0);
    Learns(r.feds[g], d, r.sent[g - 1][0].m);
    run, m, r := TakeStep(n, run, m, r, g);
    Learns(r.feds[g], r.feds[g].deps[0], Grant(2));
    run, m, r := TakeStep(n, run, m, r, g);
  }

  lemma CutOfFour(flags: seq<bool>, r: Row, i: nat)
    requires 1 <= i && i + 2 < |flags| && !flags[i] && !flags[i + 1] && Ahead(flags, i - 1, r)
    ensures Cut(r, i - 1, 4)
            == FourReady(i - 1, Ends(r.feds[i - 1], r.phases[i - 1], r.sent[i - 1], Member(flags, i + 2), Acts))
  {
    var e := Ends(r.feds[i - 1], r.phases[i - 1], r.sent[i - 1], Member(flags, i + 2), Acts);
    var c, s := Cut(r, i - 1, 4), FourReady(i - 1, e);
    assert c.feds == [r.feds[i - 1], Member(flags, i), Member(flags, i + 1), Member(flags, i + 2)] == s.feds;
    assert c.phases == [r.phases[i - 1], Acts, Acts, Acts] == s.phases;
    assert c.sent == [r.sent[i - 1], [], []] == s.sent;
  }

  lemma TwoAreTooMany(flags: seq<bool>, i: nat) returns (run: seq<Action>)
    requires 1 <= i && i + 2 < |flags| && !flags[i] && !flags[i + 1]
    ensures Late(Execute(Line(flags), run), i + 1, i + 2)
  {
    hide Line, Shows, Late, Leads, Cut, FourReady, Execute;
    var n := Line(flags);
    var m, r;
    run, m, r := Advance(flags, i - 1);
    ShowsCut(m, r, i - 1, 4);
    var e := Ends(r.feds[i - 1], r.phases[i - 1], r.sent[i - 1], Member(flags, i + 2), Acts);
    CutOfFour(flags, r, i);
    run, m := FourAreOvertaken(n, run, m, i - 1, e);
    LeadsTo(n, run, m);
  }

  // ---------- exactly when

  /** Data always comes in time in a line of federates if and only if no two interruptible ones
      follow each other between others. */
  lemma LineInTime(flags: seq<bool>)
    ensures (forall run: seq<Action>, b: nat, a: nat :: !Late(Execute(Line(flags), run), b, a)) <==> !TwoInARow(flags)
  {
    hide Execute, Late, Line;
    if TwoInARow(flags) {
      var i :| 1 <= i && i + 2 < |flags| && !flags[i] && !flags[i + 1];
      var run := TwoAreTooMany(flags, i);
      assert Late(Execute(Line(flags), run), i + 1, i + 2);
    } else {
      forall run: seq<Action>, b: nat, a: nat
        ensures !Late(Execute(Line(flags), run), b, a)
      {
        SafeLine(flags, run, b, a);
      }
    }
  }

  /** As long as no federate iterates, it does if and only if no three follow each other. */
  lemma LineInTimeWithoutIteration(flags: seq<bool>)
    ensures (forall run: seq<Action>, b: nat, a: nat :: NoIteration(run) ==> !Late(Execute(Line(flags), run), b, a))
      <==> !ThreeInARow(flags)
  {
    hide Execute, Late, Line, NoIteration;
    if ThreeInARow(flags) {
      var i :| 1 <= i && i + 3 < |flags| && !flags[i] && !flags[i + 1] && !flags[i + 2];
      var run := ThreeAreTooMany(flags, i);
      assert Late(Execute(Line(flags), run), i + 2, i + 3);
    } else {
      forall run: seq<Action>, b: nat, a: nat | NoIteration(run)
        ensures !Late(Execute(Line(flags), run), b, a)
      {
        SafeLine(flags, run, b, a);
      }
    }
  }
}
