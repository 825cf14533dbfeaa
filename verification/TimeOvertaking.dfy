/** Two runs of federates in a line, each depending on the one before it, in which data comes
    too late for the last of them. */
module TimeOvertaking {
  import opened TimeDependencies
  import opened TimeCoordinator
  import opened TimeGrants
  import opened TimePromises
  import opened TimeNetwork
  import opened TimeRuns

  // ---------- the ends of a part of the line

  /** The first federate of a part and what it has sent, and the last federate. */
  datatype Ends = Ends(first: Coord, phase0: Phase, sent: seq<Packet>, last: Coord, phase1: Phase)

  /** Default options, apart from being uninterruptible. */
  predicate Plain(info: Options) { info == PLAIN.(uninterruptible := info.uninterruptible) }

  /** A federate as execution starts, which others depend on. */
  ghost predicate Beginning(c: Coord) {
    && Plain(c.info) && c == Entered(c.info, c.deps, true) && |c.deps| <= 1
    && forall k :: 0 <= k < |c.deps| ==> c.deps[k] == At(c.deps[k].fed, 0)
  }

  /** The federate has published at time 0 and then asked for time 1. */
  ghost predicate Opened(ps: seq<Packet>) {
    && |ps| >= 2 && ps[0] == Data(0) && ps[1].Timing? && ps[1].m.Request? && ps[1].m.deMin >= 1
    && ps[1].m == Request(1, 1, ps[1].m.deMin, false)
  }

  /** A federate as execution starts, at the end of the part. */
  ghost predicate Enters(c: Coord, d: nat) {
    Plain(c.info) && c == Entered(c.info, [At(d, 0)], c.hasDependents)
  }

  /** A federate that asked for time 2 and knows of no data. */
  ghost predicate Aiming(c: Coord, d: nat) {
    && Plain(c.info) && |c.deps| == 1 && c.deps[0].fed == d && !c.iterating && c.granted == c.base == 0
    && c.requested == 2 && c.value == c.message == c.block == MAX
  }

  ghost predicate Passed(c: Coord) { c.granted == 2 && c.info.inputDelay == 0 }

  /** The first federate was granted time 2 and has told so. */
  ghost predicate Arrived(e: Ends) {
    && e.first.granted == 2 && e.first.info.outputDelay == 0 && e.phase0.Acts? && |e.sent| == 2
    && e.sent[0].Timing? && e.sent[0].m.Request? && e.sent[0].m.next <= 2 && e.sent[1] == Timing(Grant(2))
  }

  /** A federate takes a timing message between two requests. */
  lemma Learns(c: Coord, d: Dependency, m: Message)
    requires c.deps == [d] && c.granted != MAX
    ensures Step(c, Hear(d.fed, m)) == (c.(deps := [Process(d, m).0]), [])
    ensures !PutOff(c, d.fed, m) <==> !Delays(c, d, m)
  {
    assert [d][0] == d;
    Single(d);
  }

  lemma LastAsks(c: Coord, d: nat)
    requires Enters(c, d)
    ensures Aiming(Turn(c, For(2)).0, d) && !Turn(c, For(2)).2
  {
    hide FactorsOf, EventsReset, IterationsReset, Updated, ReadyForGrant;
    Single(At(d, 0));
  }

  lemma LastHears(c: Coord, d: nat, m: Message)
    requires Aiming(c, d) && m.Request? && m.next <= 2
    ensures var (c', ms, answered) := Turn(c, Hear(d, m));
      if m.next < 2 then Aiming(c', d) && !answered else Passed(c') && answered
  {
    hide FactorsOf, EventsReset, IterationsReset, Updated, ReadyForGrant;
    assert c.deps == [c.deps[0]];
    Single(c.deps[0]);
    Single(Process(c.deps[0], m).0);
  }

  lemma FirstAsks(c: Coord)
    requires Beginning(c)
    ensures var ms := Turn(c, For(1)).1;
      |ms| >= 1 && ms[0].Request? && ms[0].deMin >= 1 && ms[0] == Request(1, 1, ms[0].deMin, false)
  {
    if c.deps != [] {
      hide FactorsOf, EventsReset, IterationsReset, Updated, ReadyForGrant;
      assert c.deps == [At(c.deps[0].fed, 0)];
      Single(At(c.deps[0].fed, 0));
    }
  }

  // ---------- what one federate does

  lemma TrustsPromise(d: nat)
    ensures Turns(Node(Wants(d, 1, 2, 1), 0, 2, 1, 1, 2, 1, 2, MAX), Hear(d, Req(1, 2, 2)),
                  Node(Wants(d, 1, 2, 2), 0, 2, 2, 2, 2, 1, 2, MAX), [Req(2, 2, 2)], false)
  {
    hide FactorsOf, EventsReset, IterationsReset, Updated, ReadyForGrant;
    Single(Wants(d, 1, 2, 1));
    Single(Wants(d, 1, 2, 2));
  }

  lemma AsksAfterOne(d: nat)
    ensures Turns(Node(Wants(d, 1, 1, 1), 1, 2, 1, 1, 1, 1, 1, 1), For(2),
                  Node(Wants(d, 1, 1, 1), 1, 2, 2, 1, 1, 1, 2, MAX), [Req(2, 2, 2)], false)
  {
    hide FactorsOf, EventsReset, IterationsReset, Updated, ReadyForGrant;
    Single(Wants(d, 1, 1, 1));
  }

  lemma ActsOnData(d: nat)
    ensures Turns(Node(At(d, 1), 0, 2, 1, 1, 1, 1, 1, 1), Hear(d, Req(2, 2, 2)),
                  Node(Wants(d, 2, 2, 2), 1, 2, 1, 1, 1, 2, 1, 1), [Grant(1)], true)
  {
    hide FactorsOf, EventsReset, IterationsReset, Updated, ReadyForGrant;
    Single(At(d, 1));
    Single(Wants(d, 2, 2, 2));
  }

  lemma AsksAndIsGranted(d: nat)
    ensures Turns(Node(Wants(d, 2, 2, 2), 1, 2, 1, 1, 1, 2, 1, 1), For(2),
                  Node(Wants(d, 2, 2, 2), 2, 2, 2, 2, 2, 2, 2, MAX), [Req(2, 2, 2), Grant(2)], true)
  {
    hide FactorsOf, EventsReset, IterationsReset, Updated, ReadyForGrant;
    Single(Wants(d, 2, 2, 2));
  }

  lemma TakesPromiseBack(d: nat)
    ensures Turns(Node(Wants(d, 1, 2, 2), 0, 2, 2, 2, 2, 1, 2, MAX), Hear(d, Req(1, 2, 1)),
                  Node(Wants(d, 1, 2, 1), 0, 2, 1, 1, 2, 1, 2, MAX), [Req(1, 2, 2)], false)
  {
    hide FactorsOf, EventsReset, IterationsReset, Updated, ReadyForGrant;
    Single(Wants(d, 1, 2, 2));
    Single(Wants(d, 1, 2, 1));
  }

  lemma AsksForOne(d: nat)
    ensures Turns(Node(At(d, 2), 0, MAX, 0, 0, 0, -MAX, MAX, MAX), For(1),
                  Node(At(d, 2), 1, 1, 1, 2, 2, 2, 1, MAX), [Req(1, 1, 2), Grant(1)], true)
  {
    hide FactorsOf, EventsReset, IterationsReset, Updated, ReadyForGrant;
    Single(At(d, 2));
  }

  lemma NoticesTwo(d: nat)
    ensures Step(Node(At(d, 2), 1, 1, 1, 2, 2, 2, 1, MAX), Value(2))
            == (Node(At(d, 2), 1, 1, 1, 2, 2, 2, 2, 2), [Req(1, 2, 2)])
  {
    hide FactorsOf, EventsReset, IterationsReset, Updated, ReadyForGrant;
    Single(At(d, 2));
  }

  lemma HearsOfOne(d: nat)
    ensures Turns(Node(At(d, 0), 0, 2, 1, 0, 0, 0, 2, MAX), Hear(d, Req(1, 1, 2)),
                  Node(Wants(d, 1, 1, 1), 0, 2, 1, 1, 1, 1, 2, MAX), [Req(1, 2, 1)], false)
  {
    hide FactorsOf, EventsReset, IterationsReset, Updated, ReadyForGrant;
    Single(At(d, 0));
    Single(Wants(d, 1, 1, 1));
  }

  lemma PromisesTwo(d: nat)
    ensures Turns(Node(At(d, 1), 0, 2, 1, 1, 1, 1, 2, MAX), Hear(d, Req(1, 2, 2)),
                  Node(Wants(d, 1, 2, 2), 0, 2, 2, 2, 2, 1, 2, MAX), [Req(2, 2, 2)], false)
  {
    hide FactorsOf, EventsReset, IterationsReset, Updated, ReadyForGrant;
    Single(At(d, 1));
    Single(Wants(d, 1, 2, 2));
  }

  lemma RepeatsOne(d: nat)
    ensures Turns(Node(At(d, 2), 1, 1, 1, 2, 2, 2, 2, 2), Ask(1, true, 2, MAX),
                  Node(At(d, 2), 1, 1, 1, 2, 2, 2, 1, 2).(iterating := true), [Request(1, 1, 2, true), Grant(1)], true)
  {
    hide FactorsOf, EventsReset, IterationsReset, Updated, ReadyForGrant;
    Single(At(d, 2));
  }

  lemma GoesOnToTwo(d: nat)
    ensures Turns(Node(At(d, 2), 1, 1, 1, 2, 2, 2, 1, 2).(iterating := true), Ask(2, false, 2, MAX),
                  Node(At(d, 2), 2, 2, 2, 2, 2, 2, 2, 2), [Req(2, 2, 2), Grant(2)], true)
  {
    hide FactorsOf, EventsReset, IterationsReset, Updated, ReadyForGrant;
    Single(At(d, 2));
  }

  lemma HearsOfRepetition(d: nat)
    ensures Turns(Node(Wants(d, 1, 2, 2), 0, 2, 2, 2, 2, 1, 2, MAX), Hear(d, Request(1, 1, 2, true)),
                  Node(Repeats(d, 1, 1, 1), 0, 2, 1, 1, 1, 1, 2, MAX), [Req(1, 2, 1)], false)
  {
    hide FactorsOf, EventsReset, IterationsReset, Updated, ReadyForGrant;
    Single(Wants(d, 1, 2, 2));
    Single(Repeats(d, 1, 1, 1));
  }

  lemma HearsRepeatedGrant(d: nat)
    ensures Turns(Node(Repeats(d, 1, 1, 1), 0, 2, 1, 1, 1, 1, 2, MAX), Hear(d, Grant(1)),
                  Node(At(d, 1), 0, 2, 1, 1, 1, 1, 2, MAX), [], false)
    ensures !PutOff(Node(Repeats(d, 1, 1, 1), 0, 2, 1, 1, 1, 1, 2, MAX), d, Grant(1))
  {
    hide FactorsOf, EventsReset, IterationsReset, Updated, ReadyForGrant;
    Single(Repeats(d, 1, 1, 1));
    Single(At(d, 1));
  }

  lemma HearsFirst(d: nat, x: Time)
    requires x >= 1
    ensures Turns(Node(At(d, 0), 0, 2, 1, 0, 0, 0, 1, 1), Hear(d, Request(1, 1, x, false)),
                  Node(Wants(d, 1, 1, 1), 1, 2, 1, 1, 1, 1, 1, 1), [Grant(1)], true)
  {
    hide FactorsOf, EventsReset, IterationsReset, Updated, ReadyForGrant;
    Single(At(d, 0));
    Single(Wants(d, 1, 1, 1));
  }

  // ---------- three interruptible federates in a row

  /** Five federates as execution starts, the middle three interruptible. */
  function FiveReady(i: nat, e: Ends): Row {
    Row(i, false,
        [e.first,
         Node(At(i, 0), 0, MAX, 0, 0, 0, -MAX, MAX, MAX),
         Node(At(i + 1, 0), 0, MAX, 0, 0, 0, -MAX, MAX, MAX),
         Node(At(i + 2, 0), 0, MAX, 0, 0, 0, -MAX, MAX, MAX),
         e.last],
        [e.phase0, Acts, Acts, Acts, e.phase1],
        [e.sent,
         [],
         [],
         []])
  }

  /** All but the first ask for time 2. */
  function FiveAsking(i: nat, e: Ends): Row {
    Row(i, false,
        [e.first,
         Node(At(i, 0), 0, 2, 1, 0, 0, 0, 2, MAX),
         Node(At(i + 1, 0), 0, 2, 1, 0, 0, 0, 2, MAX),
         Node(At(i + 2, 0), 0, 2, 1, 0, 0, 0, 2, MAX),
         e.last],
        [e.phase0, Waits, Waits, Waits, e.phase1],
        [e.sent,
         [Timing(Req(1, 2, 1))],
         [Timing(Req(1, 2, 1))],
         [Timing(Req(1, 2, 1))]])
  }

  lemma RunFiveAsking(n: Network, before: seq<Action>, l: Network, i: nat, e: Ends)
    returns (run: seq<Action>, m: Network, e1: Ends)
    requires Leads(n, before, l) && Shows(l, FiveReady(i, e)) && NoIteration(before)
    requires Enters(e.last, i + 3) && e.phase1.Acts?
    ensures Leads(n, run, m) && Shows(m, FiveAsking(i, e1)) && NoIteration(run)
    ensures Aiming(e1.last, i + 3) && e1.phase1.Waits?
    ensures e1.first == e.first && e1.phase0 == e.phase0 && e1.sent == e.sent
  {
    hide Step, Turn, Leads, NoIteration, Shows;
    var r := FiveReady(i, e);
    run, m := before, l;
    AsksFirst(i, 2);
    run, m, r := AskStep(n, run, m, r, 1, For(2));
    AsksFirst(i + 1, 2);
    run, m, r := AskStep(n, run, m, r, 2, For(2));
    AsksFirst(i + 2, 2);
    run, m, r := AskStep(n, run, m, r, 3, For(2));
    LastAsks(e.last, i + 3);
    run, m, r := AskStep(n, run, m, r, 4, For(2));
    e1 := Ends(r.feds[0], r.phases[0], r.sent[0], r.feds[4], r.phases[4]);
    SameRow(r, FiveAsking(i, e1));
  }

  /** The fourth hears that the second asks for time 2, by way of the third, and takes 2 for its
      next time. */
  function FiveTrusting(i: nat, e: Ends): Row {
    Row(i, false,
        [e.first,
         Node(At(i, 0), 0, 2, 1, 0, 0, 0, 2, MAX),
         Node(Wants(i + 1, 1, 2, 1), 0, 2, 1, 1, 2, 1, 2, MAX),
         Node(Wants(i + 2, 1, 2, 2), 0, 2, 2, 2, 2, 1, 2, MAX),
         e.last],
        [e.phase0, Waits, Waits, Waits, e.phase1],
        [e.sent,
         [],
         [],
         [Timing(Req(1, 2, 1)), Timing(Req(1, 2, 2)), Timing(Req(2, 2, 2))]])
  }

  lemma RunFiveTrusting(n: Network, before: seq<Action>, l: Network, i: nat, e: Ends)
    returns (run: seq<Action>, m: Network)
    requires Leads(n, before, l) && Shows(l, FiveAsking(i, e)) && NoIteration(before)
    ensures Leads(n, run, m) && Shows(m, FiveTrusting(i, e)) && NoIteration(run)
  {
    hide Step, Turn, Leads, NoIteration, Shows;
    var r := FiveAsking(i, e);
    run, m := before, l;
    HearsSameRequest(i + 1, 2);
    run, m, r := HearStep(n, run, m, r, 2);
    HearsSameRequest(i + 2, 2);
    run, m, r := HearStep(n, run, m, r, 3);
    TrustsPromise(i + 2);
    run, m, r := HearStep(n, run, m, r, 3);
    SameRow(r, FiveTrusting(i, e));
  }

  /** The last one hears so and is granted time 2. */
  function FiveOvertaking(i: nat, e: Ends): Row {
    Row(i, false,
        [e.first,
         Node(At(i, 0), 0, 2, 1, 0, 0, 0, 2, MAX),
         Node(Wants(i + 1, 1, 2, 1), 0, 2, 1, 1, 2, 1, 2, MAX),
         Node(Wants(i + 2, 1, 2, 2), 0, 2, 2, 2, 2, 1, 2, MAX),
         e.last],
        [e.phase0, Waits, Waits, Waits, e.phase1],
        [e.sent,
         [],
         [],
         []])
  }

  lemma RunFiveOvertaking(n: Network, before: seq<Action>, l: Network, i: nat, e: Ends)
    returns (run: seq<Action>, m: Network, e1: Ends)
    requires Leads(n, before, l) && Shows(l, FiveTrusting(i, e)) && NoIteration(before)
    requires Aiming(e.last, i + 3) && e.phase1.Waits?
    ensures Leads(n, run, m) && Shows(m, FiveOvertaking(i, e1)) && NoIteration(run)
    ensures Passed(e1.last) && e1.first == e.first && e1.phase0 == e.phase0 && e1.sent == e.sent
  {
    hide Step, Turn, Leads, NoIteration, Shows;
    var r := FiveTrusting(i, e);
    run, m := before, l;
    LastHears(r.feds[4], i + 3, r.sent[3][0].m);
    run, m, r := HearStep(n, run, m, r, 4);
    LastHears(r.feds[4], i + 3, r.sent[3][0].m);
    run, m, r := HearStep(n, run, m, r, 4);
    LastHears(r.feds[4], i + 3, r.sent[3][0].m);
    run, m, r := HearStep(n, run, m, r, 4);
    e1 := Ends(r.feds[0], r.phases[0], r.sent[0], r.feds[4], r.phases[4]);
    SameRow(r, FiveOvertaking(i, e1));
  }

  /** The first federate publishes at time 0 and asks for time 1. */
  lemma RunFiveStarting(n: Network, before: seq<Action>, l: Network, i: nat, e: Ends)
    returns (run: seq<Action>, m: Network, e1: Ends)
    requires Leads(n, before, l) && Shows(l, FiveOvertaking(i, e)) && NoIteration(before)
    requires Beginning(e.first) && e.phase0.Acts? && e.sent == []
    ensures Leads(n, run, m) && Shows(m, FiveOvertaking(i, e1)) && NoIteration(run)
    ensures Opened(e1.sent) && e1.last == e.last
  {
    hide Step, Turn, Leads, NoIteration, Shows;
    var r := FiveOvertaking(i, e);
    run, m := before, l;
    run, m, r := PublishStep(n, run, m, r, 0);
    FirstAsks(e.first);
    run, m, r := AskStep(n, run, m, r, 0, For(1));
    e1 := Ends(r.feds[0], r.phases[0], r.sent[0], r.feds[4], r.phases[4]);
    SameRow(r, FiveOvertaking(i, e1));
  }

  /** The second acts on that at time 1, publishes and asks for time 2. */
  function FiveSecond(i: nat, e: Ends): Row {
    Row(i, false,
        [e.first,
         Node(Wants(i, 1, 1, 1), 1, 2, 2, 1, 1, 1, 2, MAX),
         Node(Wants(i + 1, 1, 2, 1), 0, 2, 1, 1, 2, 1, 2, MAX),
         Node(Wants(i + 2, 1, 2, 2), 0, 2, 2, 2, 2, 1, 2, MAX),
         e.last],
        [e.phase0, Waits, Waits, Waits, e.phase1],
        [e.sent,
         [Timing(Req(1, 1, 1)), Timing(Grant(1)), Data(1), Timing(Req(2, 2, 2))],
         [],
         []])
  }

  lemma RunFiveSecond(n: Network, before: seq<Action>, l: Network, i: nat, e: Ends)
    returns (run: seq<Action>, m: Network, e1: Ends)
    requires Leads(n, before, l) && Shows(l, FiveOvertaking(i, e)) && NoIteration(before)
    requires Opened(e.sent)
    ensures Leads(n, run, m) && Shows(m, FiveSecond(i, e1)) && NoIteration(run)
    ensures e1.last == e.last
  {
    hide Step, Turn, Leads, NoIteration, Shows;
    var r := FiveOvertaking(i, e);
    run, m := before, l;
    NoticesStart(i, 2);
    run, m, r := TakeStep(n, run, m, r, 1);
    HearsFirst(i, r.sent[0][0].m.deMin);
    run, m, r := HearStep(n, run, m, r, 1);
    run, m, r := PublishStep(n, run, m, r, 1);
    AsksAfterOne(i);
    run, m, r := AskStep(n, run, m, r, 1, For(2));
    e1 := Ends(r.feds[0], r.phases[0], r.sent[0], r.feds[4], r.phases[4]);
    SameRow(r, FiveSecond(i, e1));
  }

  /** The third hears that the second was granted time 1. */
  function FiveAlerted(i: nat, e: Ends): Row {
    Row(i, false,
        [e.first,
         Node(Wants(i, 1, 1, 1), 1, 2, 2, 1, 1, 1, 2, MAX),
         Node(At(i + 1, 1), 0, 2, 1, 1, 1, 1, 2, MAX),
         Node(Wants(i + 2, 1, 2, 2), 0, 2, 2, 2, 2, 1, 2, MAX),
         e.last],
        [e.phase0, Waits, Waits, Waits, e.phase1],
        [e.sent,
         [Data(1), Timing(Req(2, 2, 2))],
         [Timing(Req(1, 2, 1))],
         []])
  }

  lemma RunFiveAlerted(n: Network, before: seq<Action>, l: Network, i: nat, e: Ends)
    returns (run: seq<Action>, m: Network)
    requires Leads(n, before, l) && Shows(l, FiveSecond(i, e)) && NoIteration(before)
    ensures Leads(n, run, m) && Shows(m, FiveAlerted(i, e)) && NoIteration(run)
  {
    hide Step, Turn, Leads, NoIteration, Shows;
    var r := FiveSecond(i, e);
    run, m := before, l;
    HearsOfData(i + 1, 2);
    run, m, r := HearStep(n, run, m, r, 2);
    HearsGrant(i + 1, 2);
    run, m, r := HearStep(n, run, m, r, 2);
    SameRow(r, FiveAlerted(i, e));
  }

  /** It acts at time 1 as well, publishes and asks for time 2. */
  function FiveThird(i: nat, e: Ends): Row {
    Row(i, false,
        [e.first,
         Node(Wants(i, 1, 1, 1), 1, 2, 2, 1, 1, 1, 2, MAX),
         Node(Wants(i + 1, 2, 2, 2), 2, 2, 2, 2, 2, 2, 2, MAX),
         Node(Wants(i + 2, 1, 2, 2), 0, 2, 2, 2, 2, 1, 2, MAX),
         e.last],
        [e.phase0, Waits, Acts, Waits, e.phase1],
        [e.sent,
         [],
         [Timing(Req(1, 2, 1)), Timing(Req(1, 1, 1)), Timing(Grant(1)), Data(1), Timing(Req(2, 2, 2)),
          Timing(Grant(2))],
         []])
  }

  lemma RunFiveThird(n: Network, before: seq<Action>, l: Network, i: nat, e: Ends)
    returns (run: seq<Action>, m: Network)
    requires Leads(n, before, l) && Shows(l, FiveAlerted(i, e)) && NoIteration(before)
    ensures Leads(n, run, m) && Shows(m, FiveThird(i, e)) && NoIteration(run)
  {
    hide Step, Turn, Leads, NoIteration, Shows;
    var r := FiveAlerted(i, e);
    run, m := before, l;
    NoticesData(i + 1, 2);
    run, m, r := TakeStep(n, run, m, r, 2);
    ActsOnData(i + 1);
    run, m, r := HearStep(n, run, m, r, 2);
    run, m, r := PublishStep(n, run, m, r, 2);
    AsksAndIsGranted(i + 1);
    run, m, r := AskStep(n, run, m, r, 2, For(2));
    SameRow(r, FiveThird(i, e));
  }

  /** The fourth hears that the third was granted time 1. */
  function FiveWarned(i: nat, e: Ends): Row {
    Row(i, false,
        [e.first,
         Node(Wants(i, 1, 1, 1), 1, 2, 2, 1, 1, 1, 2, MAX),
         Node(Wants(i + 1, 2, 2, 2), 2, 2, 2, 2, 2, 2, 2, MAX),
         Node(At(i + 2, 1), 0, 2, 1, 1, 1, 1, 2, MAX),
         e.last],
        [e.phase0, Waits, Acts, Waits, e.phase1],
        [e.sent,
         [],
         [Data(1), Timing(Req(2, 2, 2)), Timing(Grant(2))],
         [Timing(Req(1, 2, 2)), Timing(Req(1, 2, 1))]])
  }

  lemma RunFiveWarned(n: Network, before: seq<Action>, l: Network, i: nat, e: Ends)
    returns (run: seq<Action>, m: Network)
    requires Leads(n, before, l) && Shows(l, FiveThird(i, e)) && NoIteration(before)
    ensures Leads(n, run, m) && Shows(m, FiveWarned(i, e)) && NoIteration(run)
  {
    hide Step, Turn, Leads, NoIteration, Shows;
    var r := FiveThird(i, e);
    run, m := before, l;
    TakesPromiseBack(i + 2);
    run, m, r := HearStep(n, run, m, r, 3);
    HearsOfData(i + 2, 2);
    run, m, r := HearStep(n, run, m, r, 3);
    HearsGrant(i + 2, 2);
    run, m, r := HearStep(n, run, m, r, 3);
    SameRow(r, FiveWarned(i, e));
  }

  /** It acts at time 1, too, but what it publishes comes too late for the last one. */
  function FiveFourth(i: nat, e: Ends): Row {
    Row(i, false,
        [e.first,
         Node(Wants(i, 1, 1, 1), 1, 2, 2, 1, 1, 1, 2, MAX),
         Node(Wants(i + 1, 2, 2, 2), 2, 2, 2, 2, 2, 2, 2, MAX),
         Node(Wants(i + 2, 2, 2, 2), 1, 2, 1, 1, 1, 2, 1, 1),
         e.last],
        [e.phase0, Waits, Acts, Acts, e.phase1],
        [e.sent,
         [],
         [Timing(Grant(2))],
         [Timing(Req(1, 2, 2)), Timing(Req(1, 2, 1)), Timing(Req(1, 1, 1)), Timing(Grant(1)), Data(1)]])
  }

  lemma RunFiveFourth(n: Network, before: seq<Action>, l: Network, i: nat, e: Ends)
    returns (run: seq<Action>, m: Network)
    requires Leads(n, before, l) && Shows(l, FiveWarned(i, e)) && NoIteration(before)
    ensures Leads(n, run, m) && Shows(m, FiveFourth(i, e)) && NoIteration(run)
  {
    hide Step, Turn, Leads, NoIteration, Shows;
    var r := FiveWarned(i, e);
    run, m := before, l;
    NoticesData(i + 2, 2);
    run, m, r := TakeStep(n, run, m, r, 3);
    ActsOnData(i + 2);
    run, m, r := HearStep(n, run, m, r, 3);
    run, m, r := PublishStep(n, run, m, r, 3);
    SameRow(r, FiveFourth(i, e));
  }

  // ---------- two interruptible federates in a row

  /** Four federates, the middle two interruptible; the first has been granted time 2. */
  function FourReady(i: nat, e: Ends): Row {
    Row(i, false,
        [e.first,
         Node(At(i, 0), 0, MAX, 0, 0, 0, -MAX, MAX, MAX),
         Node(At(i + 1, 0), 0, MAX, 0, 0, 0, -MAX, MAX, MAX),
         e.last],
        [e.phase0, Acts, Acts, e.phase1],
        [e.sent,
         [],
         []])
  }

  /** The first publishes, and the second hears of its request and grant before it asks. */
  function FourTold(i: nat, e: Ends): Row {
    Row(i, false,
        [e.first,
         Node(At(i, 2), 0, MAX, 0, 0, 0, -MAX, MAX, MAX),
         Node(At(i + 1, 0), 0, MAX, 0, 0, 0, -MAX, MAX, MAX),
         e.last],
        [e.phase0, Calls, Acts, e.phase1],
        [e.sent,
         [],
         []])
  }

  lemma RunFourTold(n: Network, before: seq<Action>, l: Network, i: nat, e: Ends)
    returns (run: seq<Action>, m: Network, e1: Ends)
    requires Leads(n, before, l) && Shows(l, FourReady(i, e))
    requires Arrived(e)
    ensures Leads(n, run, m) && Shows(m, FourTold(i, e1))
    ensures e1.first == e.first && e1.sent == [Data(2)] && e1.last == e.last && e1.phase1 == e.phase1
  {
    hide Step, Turn, Leads, NoIteration, Shows;
    var r := FourReady(i, e);
    run, m := before, l;
    run, m, r := PublishStep(n, run, m, r, 0);
    Learns(r.feds[1], At(i, 0), r.sent[0][0].m);
    run, m, r := TakeStep(n, run, m, r, 1);
    Learns(r.feds[1], r.feds[1].deps[0], Grant(2));
    run, m, r := TakeStep(n, run, m, r, 1);
    e1 := Ends(r.feds[0], r.phases[0], r.sent[0], r.feds[3], r.phases[3]);
    SameRow(r, FourTold(i, e1));
  }

  /** The second is granted time 1 and takes the data, which is for time 2, before its next request:
      from then on it tells that its next event is at time 2. */
  function FourSecond(i: nat, e: Ends): Row {
    Row(i, false,
        [e.first,
         Node(At(i, 2), 1, 1, 1, 2, 2, 2, 2, 2),
         Node(At(i + 1, 0), 0, MAX, 0, 0, 0, -MAX, MAX, MAX),
         e.last],
        [e.phase0, Calls, Acts, e.phase1],
        [e.sent,
         [Timing(Req(1, 1, 2)), Timing(Grant(1)), Timing(Req(1, 2, 2))],
         []])
  }

  lemma RunFourSecond(n: Network, before: seq<Action>, l: Network, i: nat, e: Ends)
    returns (run: seq<Action>, m: Network, e1: Ends)
    requires Leads(n, before, l) && Shows(l, FourTold(i, e))
    requires e.sent == [Data(2)]
    ensures Leads(n, run, m) && Shows(m, FourSecond(i, e1))
    ensures e1.sent == [] && e1.last == e.last && e1.phase1 == e.phase1
  {
    hide Step, Turn, Leads, NoIteration, Shows;
    var r := FourTold(i, e);
    run, m := before, l;
    AsksForOne(i);
    run, m, r := AskStep(n, run, m, r, 1, For(1));
    NoticesTwo(i);
    run, m, r := TakeStep(n, run, m, r, 1);
    e1 := Ends(r.feds[0], r.phases[0], r.sent[0], r.feds[3], r.phases[3]);
    SameRow(r, FourSecond(i, e1));
  }

  /** The third asks for time 2, hears so, and takes 2 for its next time. */
  function FourThird(i: nat, e: Ends): Row {
    Row(i, false,
        [e.first,
         Node(At(i, 2), 1, 1, 1, 2, 2, 2, 2, 2),
         Node(Wants(i + 1, 1, 2, 2), 0, 2, 2, 2, 2, 1, 2, MAX),
         e.last],
        [e.phase0, Calls, Waits, e.phase1],
        [e.sent,
         [],
         [Timing(Req(1, 2, 1)), Timing(Req(1, 2, 1)), Timing(Req(2, 2, 2))]])
  }

  lemma RunFourThird(n: Network, before: seq<Action>, l: Network, i: nat, e: Ends)
    returns (run: seq<Action>, m: Network)
    requires Leads(n, before, l) && Shows(l, FourSecond(i, e))
    ensures Leads(n, run, m) && Shows(m, FourThird(i, e))
  {
    hide Step, Turn, Leads, NoIteration, Shows;
    var r := FourSecond(i, e);
    run, m := before, l;
    AsksFirst(i + 1, 2);
    run, m, r := AskStep(n, run, m, r, 2, For(2));
    HearsOfOne(i + 1);
    run, m, r := HearStep(n, run, m, r, 2);
    HearsGrant(i + 1, 2);
    run, m, r := HearStep(n, run, m, r, 2);
    PromisesTwo(i + 1);
    run, m, r := HearStep(n, run, m, r, 2);
    SameRow(r, FourThird(i, e));
  }

  /** The last one hears so and is granted time 2. */
  function FourOvertaking(i: nat, e: Ends): Row {
    Row(i, false,
        [e.first,
         Node(At(i, 2), 1, 1, 1, 2, 2, 2, 2, 2),
         Node(Wants(i + 1, 1, 2, 2), 0, 2, 2, 2, 2, 1, 2, MAX),
         e.last],
        [e.phase0, Calls, Waits, e.phase1],
        [e.sent,
         [],
         []])
  }

  lemma RunFourOvertaking(n: Network, before: seq<Action>, l: Network, i: nat, e: Ends)
    returns (run: seq<Action>, m: Network, e1: Ends)
    requires Leads(n, before, l) && Shows(l, FourThird(i, e))
    requires Enters(e.last, i + 2) && e.phase1.Acts?
    ensures Leads(n, run, m) && Shows(m, FourOvertaking(i, e1))
    ensures Passed(e1.last)
  {
    hide Step, Turn, Leads, NoIteration, Shows;
    var r := FourThird(i, e);
    run, m := before, l;
    LastAsks(e.last, i + 2);
    run, m, r := AskStep(n, run, m, r, 3, For(2));
    LastHears(r.feds[3], i + 2, r.sent[2][0].m);
    run, m, r := HearStep(n, run, m, r, 3);
    LastHears(r.feds[3], i + 2, r.sent[2][0].m);
    run, m, r := HearStep(n, run, m, r, 3);
    LastHears(r.feds[3], i + 2, r.sent[2][0].m);
    run, m, r := HearStep(n, run, m, r, 3);
    e1 := Ends(r.feds[0], r.phases[0], r.sent[0], r.feds[3], r.phases[3]);
    SameRow(r, FourOvertaking(i, e1));
  }

  /** The second repeats time 1, publishes, and is granted time 2. */
  function FourRepeating(i: nat, e: Ends): Row {
    Row(i, false,
        [e.first,
         Node(At(i, 2), 2, 2, 2, 2, 2, 2, 2, 2),
         Node(Wants(i + 1, 1, 2, 2), 0, 2, 2, 2, 2, 1, 2, MAX),
         e.last],
        [e.phase0, Acts, Waits, e.phase1],
        [e.sent,
         [Timing(Request(1, 1, 2, true)), Timing(Grant(1)), Data(1), Timing(Req(2, 2, 2)), Timing(Grant(2))],
         []])
  }

  lemma RunFourRepeating(n: Network, before: seq<Action>, l: Network, i: nat, e: Ends)
    returns (run: seq<Action>, m: Network)
    requires Leads(n, before, l) && Shows(l, FourOvertaking(i, e))
    ensures Leads(n, run, m) && Shows(m, FourRepeating(i, e))
  {
    hide Step, Turn, Leads, NoIteration, Shows;
    var r := FourOvertaking(i, e);
    run, m := before, l;
    RepeatsOne(i);
    run, m, r := AskStep(n, run, m, r, 1, Ask(1, true, 2, MAX));
    run, m, r := PublishStep(n, run, m, r, 1);
    GoesOnToTwo(i);
    run, m, r := AskStep(n, run, m, r, 1, Ask(2, false, 2, MAX));
    SameRow(r, FourRepeating(i, e));
  }

  /** The third acts on that at time 1, but what it publishes comes too late for the last one. */
  function FourLate(i: nat, e: Ends): Row {
    Row(i, false,
        [e.first,
         Node(At(i, 2), 2, 2, 2, 2, 2, 2, 2, 2),
         Node(Wants(i + 1, 2, 2, 2), 1, 2, 1, 1, 1, 2, 1, 1),
         e.last],
        [e.phase0, Acts, Acts, e.phase1],
        [e.sent,
         [Timing(Grant(2))],
         [Timing(Req(1, 2, 1)), Timing(Req(1, 1, 1)), Timing(Grant(1)), Data(1)]])
  }

  lemma RunFourLate(n: Network, before: seq<Action>, l: Network, i: nat, e: Ends)
    returns (run: seq<Action>, m: Network)
    requires Leads(n, before, l) && Shows(l, FourRepeating(i, e))
    ensures Leads(n, run, m) && Shows(m, FourLate(i, e))
  {
    hide Step, Turn, Leads, NoIteration, Shows;
    var r := FourRepeating(i, e);
    run, m := before, l;
    HearsOfRepetition(i + 1);
    run, m, r := HearStep(n, run, m, r, 2);
    HearsRepeatedGrant(i + 1);
    run, m, r := HearStep(n, run, m, r, 2);
    NoticesData(i + 1, 2);
    run, m, r := TakeStep(n, run, m, r, 2);
    ActsOnData(i + 1);
    run, m, r := HearStep(n, run, m, r, 2);
    run, m, r := PublishStep(n, run, m, r, 2);
    SameRow(r, FourLate(i, e));
  }

  // ---------- the whole runs

  /** Three interruptible federates in a row, between any two others, are enough for data to come
      too late, without any iteration. */
  lemma FiveAreOvertaken(n: Network, before: seq<Action>, l: Network, i: nat, e: Ends)
    returns (run: seq<Action>, m: Network)
    requires Leads(n, before, l) && Shows(l, FiveReady(i, e)) && NoIteration(before)
    requires Beginning(e.first) && e.phase0.Acts? && e.sent == [] && Enters(e.last, i + 3) && e.phase1.Acts?
    ensures Leads(n, run, m) && NoIteration(run) && Late(m, i + 3, i + 4)
  {
    hide Leads, Shows, NoIteration, Beginning, Enters, Aiming, Late;
    var e1: Ends;
    run, m, e1 := RunFiveAsking(n, before, l, i, e);
    run, m := RunFiveTrusting(n, run, m, i, e1);
    run, m, e1 := RunFiveOvertaking(n, run, m, i, e1);
    run, m, e1 := RunFiveStarting(n, run, m, i, e1);
    run, m, e1 := RunFiveSecond(n, run, m, i, e1);
    run, m := RunFiveAlerted(n, run, m, i, e1);
    run, m := RunFiveThird(n, run, m, i, e1);
    run, m := RunFiveWarned(n, run, m, i, e1);
    run, m := RunFiveFourth(n, run, m, i, e1);
    assert FiveFourth(i, e1).sent[3][4] == Data(1);
    TooLate(m, FiveFourth(i, e1), 3, 1);
  }

  /** With iteration two such federates are enough. */
  lemma FourAreOvertaken(n: Network, before: seq<Action>, l: Network, i: nat, e: Ends)
    returns (run: seq<Action>, m: Network)
    requires Leads(n, before, l) && Shows(l, FourReady(i, e)) && Arrived(e) && Enters(e.last, i + 2) && e.phase1.Acts?
    ensures Leads(n, run, m) && Late(m, i + 2, i + 3)
  {
    hide Leads, Shows, Enters, Late;
    var e1: Ends;
    run, m, e1 := RunFourTold(n, before, l, i, e);
    run, m, e1 := RunFourSecond(n, run, m, i, e1);
    run, m := RunFourThird(n, run, m, i, e1);
    run, m, e1 := RunFourOvertaking(n, run, m, i, e1);
    run, m := RunFourRepeating(n, run, m, i, e1);
    run, m := RunFourLate(n, run, m, i, e1);
    assert FourLate(i, e1).sent[2][|FourLate(i, e1).sent[2]| - 1] == Data(1);
    TooLate(m, FourLate(i, e1), 2, 1);
  }

  lemma TooLate(m: Network, r: Row, k: nat, t: Time)
    requires Shows(m, r) && k < |r.sent| && k + 1 < |r.feds| && Data(t) in r.sent[k] && t < 2 && Passed(r.feds[k + 1])
    ensures Late(m, r.first + k, r.first + k + 1)
  {
    assert ShowsEdge(m, r, k) && ShowsFed(m, r, k + 1);
  }
}
