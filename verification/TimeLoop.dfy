/** Two federates that depend on each other: when data comes in time. */
module TimeLoop {
  import opened TimeDependencies
  import opened TimeCoordinator
  import opened TimeGrants
  import opened TimePromises
  import opened TimeNetwork
  import opened TimeRuns

  // ---------- what one federate does

  lemma ActsOnStart(d: nat)
    ensures Turns(Node(At(d, 0), 0, 3, 1, 0, 0, 0, 1, 1), Hear(d, Req(1, 3, 1)),
                  Node(Wants(d, 1, 3, 1), 1, 3, 1, 1, 1, 1, 1, 1), [Grant(1)], true)
  {
    hide FactorsOf, EventsReset, IterationsReset, Updated, ReadyForGrant;
    Single(At(d, 0));
    Single(Wants(d, 1, 3, 1));
  }

  lemma AsksAgain(d: nat)
    ensures Turns(Node(Wants(d, 1, 3, 1), 1, 3, 1, 1, 1, 1, 1, 1), For(3),
                  Node(Wants(d, 1, 1, 1), 1, 3, 2, 1, 1, 1, 3, MAX), [Req(2, 3, 2)], false)
  {
    hide FactorsOf, EventsReset, IterationsReset, Updated, ReadyForGrant;
    Single(Wants(d, 1, 3, 1));
    Single(Wants(d, 1, 1, 1));
  }

  lemma PromisesThree(d: nat)
    ensures Turns(Node(Wants(d, 1, 1, 1), 1, 3, 2, 1, 1, 1, 3, MAX), Hear(d, Req(1, 3, 3)),
                  Node(Wants(d, 1, 3, 3), 1, 3, 3, 3, 3, 1, 3, MAX), [Req(3, 3, 3)], false)
  {
    hide FactorsOf, EventsReset, IterationsReset, Updated, ReadyForGrant;
    Single(Wants(d, 1, 1, 1));
    Single(Wants(d, 1, 3, 3));
  }

  lemma ActsAtOne(d: nat)
    ensures Turns(Node(At(d, 1), 0, 3, 1, 1, 1, 1, 1, 1), Hear(d, Req(2, 3, 2)),
                  Node(Wants(d, 2, 3, 2), 1, 3, 1, 1, 1, 2, 1, 1), [Grant(1)], true)
  {
    hide FactorsOf, EventsReset, IterationsReset, Updated, ReadyForGrant;
    Single(At(d, 1));
    Single(Wants(d, 2, 3, 2));
  }

  lemma AsksAfterActing(d: nat)
    ensures Turns(Node(Wants(d, 2, 3, 2), 1, 3, 1, 1, 1, 2, 1, 1), For(3),
                  Node(Wants(d, 2, 2, 2), 1, 3, 2, 2, 2, 2, 3, MAX), [Req(2, 3, 2)], false)
  {
    hide FactorsOf, EventsReset, IterationsReset, Updated, ReadyForGrant;
    Single(Wants(d, 2, 3, 2));
    Single(Wants(d, 2, 2, 2));
  }

  lemma TakesPromiseBack(d: nat)
    ensures Turns(Node(Wants(d, 1, 3, 3), 1, 3, 3, 3, 3, 1, 3, MAX), Hear(d, Req(1, 3, 1)),
                  Node(Wants(d, 1, 3, 1), 1, 3, 2, 1, 3, 1, 3, MAX), [Req(2, 3, 3)], false)
  {
    hide FactorsOf, EventsReset, IterationsReset, Updated, ReadyForGrant;
    Single(Wants(d, 1, 3, 3));
    Single(Wants(d, 1, 3, 1));
  }

  lemma HearsOfOldData(d: nat)
    ensures Turns(Node(Wants(d, 1, 3, 1), 1, 3, 2, 1, 3, 1, 3, MAX), Hear(d, Req(1, 1, 1)),
                  Node(Wants(d, 1, 1, 1), 1, 3, 2, 1, 1, 1, 3, MAX), [Req(2, 3, 2)], false)
  {
    hide FactorsOf, EventsReset, IterationsReset, Updated, ReadyForGrant;
    Single(Wants(d, 1, 3, 1));
    Single(Wants(d, 1, 1, 1));
  }

  lemma HearsOldGrant(d: nat)
    ensures Turns(Node(Wants(d, 1, 1, 1), 1, 3, 2, 1, 1, 1, 3, MAX), Hear(d, Grant(1)),
                  Node(At(d, 1), 1, 3, 2, 1, 1, 1, 3, MAX), [], false)
    ensures !PutOff(Node(Wants(d, 1, 1, 1), 1, 3, 2, 1, 1, 1, 3, MAX), d, Grant(1))
  {
    hide FactorsOf, EventsReset, IterationsReset, Updated, ReadyForGrant;
    Single(Wants(d, 1, 1, 1));
    Single(At(d, 1));
  }

  lemma IsGrantedThree(d: nat)
    ensures Turns(Node(Wants(d, 2, 2, 2), 1, 3, 2, 2, 2, 2, 3, MAX), Hear(d, Req(3, 3, 3)),
                  Node(Wants(d, 3, 3, 3), 3, 3, 3, 3, 3, 3, 3, MAX), [Grant(3)], true)
  {
    hide FactorsOf, EventsReset, IterationsReset, Updated, ReadyForGrant;
    Single(Wants(d, 2, 2, 2));
    Single(Wants(d, 3, 3, 3));
  }

  lemma NoticesLate(d: nat)
    ensures Step(Node(At(d, 1), 1, 3, 2, 1, 1, 1, 3, MAX), Value(1))
            == (Node(At(d, 1), 1, 3, 2, 1, 1, 1, 2, 2), [Req(2, 2, 2)])
  {
    hide FactorsOf, EventsReset, IterationsReset, Updated, ReadyForGrant;
    Single(At(d, 1));
  }

  lemma ActsAtTwo(d: nat)
    ensures Turns(Node(At(d, 1), 1, 3, 2, 1, 1, 1, 2, 2), Hear(d, Req(2, 3, 2)),
                  Node(Wants(d, 2, 3, 2), 2, 3, 2, 2, 2, 2, 2, 2), [Grant(2)], true)
  {
    hide FactorsOf, EventsReset, IterationsReset, Updated, ReadyForGrant;
    Single(At(d, 1));
    Single(Wants(d, 2, 3, 2));
  }

  // ---------- the run

  /** Both federates have entered execution mode. */
  function LoopStart(): Row {
    Row(0, true,
        [Node(At(1, 0), 0, MAX, 0, 0, 0, -MAX, MAX, MAX),
         Node(At(0, 0), 0, MAX, 0, 0, 0, -MAX, MAX, MAX)],
        [Acts, Acts],
        [[],
         []])
  }

  /** The first federate publishes at time 0, and both ask for time 3. */
  function LoopAsking(): Row {
    Row(0, true,
        [Node(At(1, 0), 0, 3, 1, 0, 0, 0, 3, MAX),
         Node(At(0, 0), 0, 3, 1, 0, 0, 0, 3, MAX)],
        [Waits, Waits],
        [[Data(0), Timing(Req(1, 3, 1))],
         [Timing(Req(1, 3, 1))]])
  }

  lemma RunAsking(n: Network, before: seq<Action>, l: Network) returns (run: seq<Action>, m: Network)
    requires Leads(n, before, l) && Shows(l, LoopStart()) && NoIteration(before)
    ensures Leads(n, run, m) && Shows(m, LoopAsking()) && NoIteration(run)
  {
    hide Step, Turn, Leads, NoIteration, Shows;
    var r := LoopStart();
    run, m := before, l;
    run, m, r := PublishStep(n, run, m, r, 0);
    AsksFirst(1, 3);
    run, m, r := AskStep(n, run, m, r, 0, For(3));
    AsksFirst(0, 3);
    run, m, r := AskStep(n, run, m, r, 1, For(3));
    SameRow(r, LoopAsking());
  }

  /** The first federate hears of the request of the second one. The second one acts on the data at
      time 1. */
  function LoopSecond(): Row {
    Row(0, true,
        [Node(At(1, 1), 0, 3, 1, 1, 1, 1, 3, MAX),
         Node(Wants(0, 1, 3, 1), 1, 3, 1, 1, 1, 1, 1, 1)],
        [Waits, Acts],
        [[Timing(Req(1, 3, 3)), Timing(Req(1, 3, 1))],
         []])
  }

  lemma RunSecond(n: Network, before: seq<Action>, l: Network) returns (run: seq<Action>, m: Network)
    requires Leads(n, before, l) && Shows(l, LoopAsking()) && NoIteration(before)
    ensures Leads(n, run, m) && Shows(m, LoopSecond()) && NoIteration(run)
  {
    hide Step, Turn, Leads, NoIteration, Shows;
    var r := LoopAsking();
    run, m := before, l;
    HearsSameRequest(1, 3);
    run, m, r := HearStep(n, run, m, r, 0);
    NoticesStart(0, 3);
    run, m, r := TakeStep(n, run, m, r, 1);
    HearsOfData(1, 3);
    run, m, r := HearStep(n, run, m, r, 0);
    ActsOnStart(0);
    run, m, r := HearStep(n, run, m, r, 1);
    HearsGrant(1, 3);
    run, m, r := HearStep(n, run, m, r, 0);
    SameRow(r, LoopSecond());
  }

  /** It publishes and asks for time 3 again. Then it hears what the first one sent in answer to its
      old request, and promises not to act before time 3. */
  function LoopTrusting(): Row {
    Row(0, true,
        [Node(At(1, 1), 0, 3, 1, 1, 1, 1, 3, MAX),
         Node(Wants(0, 1, 3, 3), 1, 3, 3, 3, 3, 1, 3, MAX)],
        [Waits, Waits],
        [[Timing(Req(1, 3, 1))],
         [Data(1), Timing(Req(2, 3, 2)), Timing(Req(3, 3, 3))]])
  }

  lemma RunTrusting(n: Network, before: seq<Action>, l: Network) returns (run: seq<Action>, m: Network)
    requires Leads(n, before, l) && Shows(l, LoopSecond()) && NoIteration(before)
    ensures Leads(n, run, m) && Shows(m, LoopTrusting()) && NoIteration(run)
  {
    hide Step, Turn, Leads, NoIteration, Shows;
    var r := LoopSecond();
    run, m := before, l;
    run, m, r := PublishStep(n, run, m, r, 1);
    AsksAgain(0);
    run, m, r := AskStep(n, run, m, r, 1, For(3));
    PromisesThree(0);
    run, m, r := HearStep(n, run, m, r, 1);
    SameRow(r, LoopTrusting());
  }

  /** The first federate acts on the data at time 1, publishes, and asks for time 3. */
  function LoopFirst(): Row {
    Row(0, true,
        [Node(Wants(1, 2, 2, 2), 1, 3, 2, 2, 2, 2, 3, MAX),
         Node(Wants(0, 1, 3, 3), 1, 3, 3, 3, 3, 1, 3, MAX)],
        [Waits, Waits],
        [[Timing(Req(1, 3, 1)), Timing(Req(1, 1, 1)), Timing(Grant(1)), Data(1), Timing(Req(2, 3, 2))],
         [Timing(Req(3, 3, 3))]])
  }

  lemma RunFirst(n: Network, before: seq<Action>, l: Network) returns (run: seq<Action>, m: Network)
    requires Leads(n, before, l) && Shows(l, LoopTrusting()) && NoIteration(before)
    ensures Leads(n, run, m) && Shows(m, LoopFirst()) && NoIteration(run)
  {
    hide Step, Turn, Leads, NoIteration, Shows;
    var r := LoopTrusting();
    run, m := before, l;
    NoticesData(1, 3);
    run, m, r := TakeStep(n, run, m, r, 0);
    ActsAtOne(1);
    run, m, r := HearStep(n, run, m, r, 0);
    run, m, r := PublishStep(n, run, m, r, 0);
    AsksAfterActing(1);
    run, m, r := AskStep(n, run, m, r, 0, For(3));
    SameRow(r, LoopFirst());
  }

  /** It hears the promise and is granted time 3. */
  function LoopOvertaking(): Row {
    Row(0, true,
        [Node(Wants(1, 3, 3, 3), 3, 3, 3, 3, 3, 3, 3, MAX),
         Node(At(0, 1), 1, 3, 2, 1, 1, 1, 3, MAX)],
        [Acts, Waits],
        [[Data(1), Timing(Req(2, 3, 2)), Timing(Grant(3))],
         [Timing(Req(2, 3, 3)), Timing(Req(2, 3, 2))]])
  }

  lemma RunOvertaking(n: Network, before: seq<Action>, l: Network) returns (run: seq<Action>, m: Network)
    requires Leads(n, before, l) && Shows(l, LoopFirst()) && NoIteration(before)
    ensures Leads(n, run, m) && Shows(m, LoopOvertaking()) && NoIteration(run)
  {
    hide Step, Turn, Leads, NoIteration, Shows;
    var r := LoopFirst();
    run, m := before, l;
    TakesPromiseBack(0);
    run, m, r := HearStep(n, run, m, r, 1);
    HearsOfOldData(0);
    run, m, r := HearStep(n, run, m, r, 1);
    HearsOldGrant(0);
    run, m, r := HearStep(n, run, m, r, 1);
    IsGrantedThree(1);
    run, m, r := HearStep(n, run, m, r, 0);
    SameRow(r, LoopOvertaking());
  }

  /** The second federate acts on the data at time 2 and publishes. */
  function LoopLate(): Row {
    Row(0, true,
        [Node(Wants(1, 3, 3, 3), 3, 3, 3, 3, 3, 3, 3, MAX),
         Node(Wants(0, 2, 3, 2), 2, 3, 2, 2, 2, 2, 2, 2)],
        [Acts, Acts],
        [[Timing(Grant(3))],
         [Timing(Req(2, 3, 3)), Timing(Req(2, 3, 2)), Timing(Req(2, 2, 2)), Timing(Grant(2)), Data(2)]])
  }

  lemma RunLate(n: Network, before: seq<Action>, l: Network) returns (run: seq<Action>, m: Network)
    requires Leads(n, before, l) && Shows(l, LoopOvertaking()) && NoIteration(before)
    ensures Leads(n, run, m) && Shows(m, LoopLate()) && NoIteration(run)
  {
    hide Step, Turn, Leads, NoIteration, Shows;
    var r := LoopOvertaking();
    run, m := before, l;
    NoticesLate(0);
    run, m, r := TakeStep(n, run, m, r, 1);
    ActsAtTwo(0);
    run, m, r := HearStep(n, run, m, r, 1);
    run, m, r := PublishStep(n, run, m, r, 1);
    SameRow(r, LoopLate());
  }

  // ---------- exactly when

  /** Two federates with default options that depend on each other, as execution starts. */
  function Loop(x: bool, y: bool): Network {
    Network(map[0 := Entered(PLAIN.(uninterruptible := x), [At(1, 0)], true),
                1 := Entered(PLAIN.(uninterruptible := y), [At(0, 0)], true)],
            map[0 := Acts, 1 := Acts], map[(0, 1) := [], (1, 0) := []])
  }

  lemma LoopIsEntering(x: bool, y: bool)
    ensures Entering(Loop(x, y))
  {
    var n := Loop(x, y);
    forall b, a | (b, a) in n.channels
      ensures Has(n.feds[a].deps, b)
    {
      assert n.feds[a].deps[0].fed == b;
    }
  }

  lemma SafeLoop(x: bool, y: bool, run: seq<Action>, b: nat, a: nat)
    requires x || y
    ensures !Late(Execute(Loop(x, y), run), b, a)
  {
    LoopIsEntering(x, y);
    var rank: map<nat, nat> := map[0 := if x then 0 else 2, 1 := if y then 0 else 2];
    assert Ranked(rank, Loop(x, y));
    hide Execute, InTime, Entering, Ranked;
    if (b, a) in Execute(Loop(x, y), run).channels {
      NoOneRunsAhead(rank, Loop(x, y), run, b, a);
    }
  }

  /** When both are interruptible, there is a run without iteration after which data of time 2 is
      on its way to a federate that was granted time 3. */
  lemma LoopIsOvertaken() returns (run: seq<Action>)
    ensures NoIteration(run) && Late(Execute(Loop(false, false), run), 1, 0)
  {
    var n, m := Loop(false, false), Loop(false, false);
    assert Shows(n, LoopStart()) by { StartShows(); }
    assert Leads(n, [], n) && NoIteration([]);
    hide Leads, Shows, NoIteration, Loop;
    run, m := RunAsking(n, [], n);
    run, m := RunSecond(n, run, m);
    run, m := RunTrusting(n, run, m);
    run, m := RunFirst(n, run, m);
    run, m := RunOvertaking(n, run, m);
    run, m := RunLate(n, run, m);
    LeadsTo(n, run, m);
    LateShows(m);
  }

  lemma StartShows()
    ensures Shows(Loop(false, false), LoopStart())
  {
    var n, r := Loop(false, false), LoopStart();
    assert ShowsFed(n, r, 0) && ShowsFed(n, r, 1) && ShowsEdge(n, r, 0) && ShowsEdge(n, r, 1);
  }

  lemma LateShows(m: Network)
    requires Shows(m, LoopLate())
    ensures Late(m, 1, 0)
  {
    var r := LoopLate();
    assert ShowsFed(m, r, 0) && ShowsEdge(m, r, 1) && r.sent[1][|r.sent[1]| - 1] == Data(2);
  }

  /** Data always comes in time between two federates that depend on each other if and only if
      one of them is uninterruptible, and the same holds without iteration. */
  lemma LoopInTime(x: bool, y: bool)
    ensures (forall run: seq<Action>, b: nat, a: nat :: !Late(Execute(Loop(x, y), run), b, a)) <==> x || y
    ensures (forall run: seq<Action>, b: nat, a: nat :: NoIteration(run) ==> !Late(Execute(Loop(x, y), run), b, a))
      <==> x || y
  {
    hide Execute, Late, Loop, NoIteration;
    if x || y {
      forall run: seq<Action>, b: nat, a: nat
        ensures !Late(Execute(Loop(x, y), run), b, a)
      {
        SafeLoop(x, y, run, b, a);
      }
    } else {
      var run := LoopIsOvertaken();
      assert Late(Execute(Loop(x, y), run), 1, 0);
    }
  }
}
