/** Two federates that depend on each other: exactly when they can come to a standstill. */
module TimeStandstill {
  import opened TimeDependencies
  import opened TimeCoordinator
  import opened TimeGrants
  import opened TimePromises
  import opened TimeNetwork
  import opened TimeRuns
  import opened TimeLoop
  import opened TimeProgress

  // ---------- two federates, of which at least one can be interrupted

  /** A federate with one dependency, which iterates and can be interrupted or not. */
  function Peer(x: bool, again: bool, d: Dependency, requested: Time, next: Time, minminDe: Time, minDe: Time,
                allow: Time, exec: Time): Coord
  {
    var c := Node(d, 0, requested, next, minminDe, minDe, allow, exec, MAX);
    c.(info := PLAIN.(uninterruptible := x), iterating := again)
  }

  /** The interruptible federate is the k-th; what is under way to the other one, and to it. */
  function Two(k: nat, c: Coord, p: Phase, out: seq<Packet>, other: Coord, q: Phase, back: seq<Packet>): Row {
    if k == 0 then Row(0, true, [c, other], [p, q], [out, back]) else Row(0, true, [other, c], [q, p], [back, out])
  }

  function Beginning(x: bool, d: nat): Coord { Peer(x, false, At(d, 0), MAX, 0, 0, 0, -MAX, MAX) }

  function TwoStart(k: nat, x: bool): Row {
    Two(k, Beginning(false, Other(k)), Acts, [], Beginning(x, k), Acts, [])
  }

  lemma StartShows(k: nat, x: bool)
    requires k <= 1
    ensures var n := if k == 0 then Loop(false, x) else Loop(x, false); Shows(n, TwoStart(k, x))
  {
    var n := if k == 0 then Loop(false, x) else Loop(x, false);
    var r := TwoStart(k, x);
    assert forall j :: 0 <= j < 2 ==> ShowsFed(n, r, j);
    assert forall j :: 0 <= j < 2 ==> ShowsEdge(n, r, j);
  }

  lemma WithinOn(run: seq<Action>, action: Action, limit: Time)
    requires Within(run, limit) && (action.AskFor? ==> action.time <= limit)
    ensures Within(run + [action], limit)
  {
  }

  lemma Swapped(k: nat, c: Coord, p: Phase, out: seq<Packet>, other: Coord, q: Phase, back: seq<Packet>)
    requires k <= 1
    ensures Two(k, c, p, out, other, q, back) == Two(Other(k), other, q, back, c, p, out)
  {
  }

  lemma RequestIsTaken(c: Coord, fed: nat, m: Message)
    requires m.Request?
    ensures !PutOff(c, fed, m)
  {
  }

  lemma TwoIs(r: Row, k: nat, c: Coord, p: Phase, out: seq<Packet>, other: Coord, q: Phase, back: seq<Packet>)
    requires k <= 1 && r.Ok() && r.first == 0 && r.ring && |r.feds| == 2
    requires r.feds[k] == c && r.phases[k] == p && r.sent[k] == out
    requires r.feds[Other(k)] == other && r.phases[Other(k)] == q && r.sent[Other(k)] == back
    ensures r == Two(k, c, p, out, other, q, back)
  {
    var s := Two(k, c, p, out, other, q, back);
    assert r.feds == s.feds && r.phases == s.phases && r.sent == s.sent;
  }

  lemma TwoAsks(n: Network, before: seq<Action>, l: Network, k: nat, c: Coord, p: Phase, out: seq<Packet>,
                other: Coord, q: Phase, back: seq<Packet>, i: Input, c': Coord, told: Message, sent: seq<Packet>,
                limit: Time)
    returns (run: seq<Action>, m: Network)
    requires k <= 1 && Leads(n, before, l) && Shows(l, Two(k, c, p, out, other, q, back)) && Within(before, limit)
    requires i.Ask? && i.time <= limit && !p.Waits? && c.granted < MAX
    requires Turns(c, i, c', [told], false) && sent == out + [Timing(told)]
    ensures Leads(n, run, m) && Within(run, limit) && (NoIteration(before) && !i.iterate ==> NoIteration(run))
    ensures Shows(m, Two(k, c', Waits, sent, other, q, back))
  {
    OnePacket(told);
    hide Step, Turn, Leads, NoIteration, Shows, Within, Packets;
    var r := Two(k, c, p, out, other, q, back);
    WithinOn(before, AskFor(k, i.time, i.iterate, i.newValue, i.newMessage), limit);
    run, m, r := AskStep(n, before, l, r, k, i);
    TwoIs(r, k, c', Waits, sent, other, q, back);
  }

  lemma TwoTakes(n: Network, before: seq<Action>, l: Network, k: nat, c: Coord, p: Phase, out: seq<Packet>,
                 other: Coord, q: Phase, told: Message, rest: seq<Packet>, c': Coord, limit: Time)
    returns (run: seq<Action>, m: Network)
    requires k <= 1 && Leads(n, before, l) && Shows(l, Two(k, c, p, out, other, q, [Timing(told)] + rest))
    requires Within(before, limit) && !p.Waits? && !PutOff(c, Other(k), told)
    requires Step(c, Hear(Other(k), told)) == (c', [])
    ensures Leads(n, run, m) && Within(run, limit) && (NoIteration(before) ==> NoIteration(run))
    ensures Shows(m, Two(k, c', Calls, out, other, q, rest))
  {
    hide Step, Leads, NoIteration, Shows, Within, PutOff;
    var r := Two(k, c, p, out, other, q, [Timing(told)] + rest);
    WithinOn(before, Deliver(Other(k), k), limit);
    run, m, r := TakeStep(n, before, l, r, k);
    OnePacket(told);
    assert out + [] == out && ([Timing(told)] + rest)[1..] == rest;
    TwoIs(r, k, c', Calls, out, other, q, rest);
  }

  lemma TwoHears(n: Network, before: seq<Action>, l: Network, k: nat, c: Coord, out: seq<Packet>, other: Coord,
                 q: Phase, told: Message, rest: seq<Packet>, c': Coord, ms: seq<Message>, answered: bool,
                 sent: seq<Packet>, limit: Time)
    returns (run: seq<Action>, m: Network)
    requires k <= 1 && Leads(n, before, l) && Shows(l, Two(k, c, Waits, out, other, q, [Timing(told)] + rest))
    requires Within(before, limit) && !PutOff(c, Other(k), told) && Turns(c, Hear(Other(k), told), c', ms, answered)
    requires sent == out + Packets(ms)
    ensures Leads(n, run, m) && Within(run, limit) && (NoIteration(before) ==> NoIteration(run))
    ensures Shows(m, Two(k, c', if answered then Acts else Waits, sent, other, q, rest))
  {
    hide Step, Turn, Leads, NoIteration, Shows, Within, PutOff, Packets;
    var r := Two(k, c, Waits, out, other, q, [Timing(told)] + rest);
    WithinOn(before, Deliver(Other(k), k), limit);
    run, m, r := HearStep(n, before, l, r, k);
    assert ([Timing(told)] + rest)[1..] == rest;
    TwoIs(r, k, c', if answered then Acts else Waits, sent, other, q, rest);
  }

  // ---------- waiting for data only

  function NextTime(x: bool): Time { if x then 3 else 1 }

  /** Waiting for data, before and after it has heard of the other one. */
  function Idle(d: nat): Coord { Peer(false, false, At(d, 0), MAX, 1, 0, 0, 0, MAX) }
  function Silent(x: bool, d: nat): Coord {
    var t := NextTime(x); Peer(false, false, Wants(d, t, 3, t), MAX, t, t, 3, t, MAX)
  }

  /** About to ask for time 3, and waiting for it. */
  function Learned(x: bool, d: nat): Coord { Peer(x, false, Wants(d, 1, MAX, 1), MAX, 0, 0, 0, -MAX, MAX) }
  function Caller(x: bool, d: nat): Coord { Peer(x, false, Wants(d, 1, 1, 1), 3, NextTime(x), 1, 1, 1, 3) }

  lemma AsksForData(d: nat)
    ensures Turns(Beginning(false, d), For(MAX), Idle(d), [Req(1, MAX, 1)], false)
  {
    hide FactorsOf, EventsReset, IterationsReset, Updated, ReadyForGrant;
    Single(At(d, 0));
  }

  lemma LearnsOfData(x: bool, d: nat)
    ensures Step(Beginning(x, d), Hear(d, Req(1, MAX, 1))) == (Learned(x, d), [])
  {
    hide FactorsOf, EventsReset, IterationsReset, Updated, ReadyForGrant;
    Single(At(d, 0));
  }

  lemma AsksForTime(x: bool, d: nat)
    ensures Turns(Learned(x, d), For(3),
                  Caller(x, d), [Req(NextTime(x), 3, NextTime(x))], false)
  {
    hide FactorsOf, EventsReset, IterationsReset, Updated, ReadyForGrant;
    Single(Wants(d, 1, MAX, 1));
    Single(Wants(d, 1, 1, 1));
  }

  /** It learns that the other one acts at time 3 only, but does not tell it any more. */
  lemma KeepsSilent(x: bool, d: nat)
    ensures Turns(Idle(d), Hear(d, Req(NextTime(x), 3, NextTime(x))),
                  Silent(x, d), [], false)
  {
    hide FactorsOf, EventsReset, IterationsReset, Updated, ReadyForGrant;
    Single(At(d, 0));
    Single(Wants(d, NextTime(x), 3, NextTime(x)));
  }

  function DataEnd(k: nat, x: bool): Row {
    Two(k, Silent(x, Other(k)), Waits, [],
        Caller(x, k), Waits, [])
  }

  /** The interruptible federate asks for no time in particular, and the other one hears of it. */
  lemma DataAsked(k: nat, x: bool, n: Network) returns (run: seq<Action>, m: Network)
    requires k <= 1 && Shows(n, TwoStart(k, x))
    ensures Leads(n, run, m) && NoIteration(run) && Within(run, MAX)
    ensures Shows(m, Two(Other(k), Learned(x, k), Calls, [],
                         Idle(Other(k)), Waits, []))
  {
    var j, start, begun, told := Other(k), Beginning(false, Other(k)), Beginning(x, k), Req(1, MAX, 1);
    var c := Idle(j);
    LeadsNowhere(n);
    assert NoIteration([]) && Within([], MAX);
    AsksForData(j);
    LearnsOfData(x, k);
    RequestIsTaken(begun, k, told);
    Swapped(k, c, Waits, [Timing(told)], begun, Acts, []);
    hide Step, Turn, Turns, Leads, NoIteration, Shows, Within, Two, PutOff, Peer;
    run, m := TwoAsks(n, [], n, k, start, Acts, [], begun, Acts, [], For(MAX), c, told, [Timing(told)], MAX);
    var learned := Learned(x, k);
    assert [Timing(told)] + [] == [Timing(told)];
    run, m := TwoTakes(n, run, m, j, begun, Acts, [], c, Waits, told, [], learned, MAX);
  }

  /** The other one asks for a time that it cannot be granted. */
  lemma DataStandstill(k: nat, x: bool, n: Network) returns (run: seq<Action>, m: Network)
    requires k <= 1 && Shows(n, TwoStart(k, x))
    ensures Leads(n, run, m) && NoIteration(run) && Within(run, MAX) && Shows(m, DataEnd(k, x))
  {
    var j, told := Other(k), Req(NextTime(x), 3, NextTime(x));
    var c := Idle(j);
    var learned := Learned(x, k);
    var wants := Caller(x, k);
    var silent := Silent(x, j);
    AsksForTime(x, k);
    KeepsSilent(x, j);
    RequestIsTaken(c, j, told);
    Swapped(j, wants, Waits, [Timing(told)], c, Waits, []);
    OnePacket(told);
    hide Step, Turn, Turns, Leads, NoIteration, Shows, Within, Two, PutOff, Packets, NextTime;
    hide Idle, Silent, Learned, Caller;
    run, m := DataAsked(k, x, n);
    run, m := TwoAsks(n, run, m, j, learned, Calls, [], c, Waits, [], For(3), wants, told, [Timing(told)], MAX);
    assert [Timing(told)] + [] == [Timing(told)];
    run, m := TwoHears(n, run, m, k, c, [], wants, Waits, told, [], silent, [], false, [], MAX);
  }

  // ---------- iterating

  function Repeating(t: Time): Input { Ask(t, true, MAX, MAX) }

  const AGAIN: Message := Request(0, 0, 0, true)

  /** Waiting for time 2, before and after it has heard of the other one. */
  function Later(d: nat): Coord { Peer(false, true, At(d, 0), 2, 0, 0, 0, 0, 2) }
  function LaterStill(d: nat): Coord { Peer(false, true, Repeats(d, 0, 0, 0), 2, 0, 0, 0, 0, 2) }

  /** Waiting to repeat time 0, and repeating it. */
  function Now(x: bool, d: nat): Coord { Peer(x, true, At(d, 0), 0, 0, 0, 0, 0, 0) }
  function Acted(x: bool, d: nat): Coord { Peer(x, true, At(d, 0), 0, 0, 0, 2, 0, 0) }

  lemma AsksToRepeat(d: nat)
    ensures Turns(Beginning(false, d), Repeating(2), Later(d), [Request(0, 2, 0, true)], false)
  {
    hide FactorsOf, EventsReset, IterationsReset, Updated, ReadyForGrant;
    Single(At(d, 0));
  }

  /** Asking to repeat time 0, from the start and from an iteration. */
  lemma RepeatsNow(x: bool, d: nat)
    ensures Turns(Beginning(x, d), Repeating(0), Now(x, d), [AGAIN], false)
    ensures Turns(Acted(x, d), Repeating(0), Now(x, d), [AGAIN], false) && Acted(x, d).granted < MAX
  {
    hide FactorsOf, EventsReset, IterationsReset, Updated, ReadyForGrant;
    Single(At(d, 0));
  }

  /** The other one wants to repeat time 0, too: it is taken to do so now. */
  lemma RepeatsWithOther(x: bool, d: nat)
    ensures Turns(Now(x, d), Hear(d, Request(0, 2, 0, true)), Acted(x, d), [Grant(0)], true)
  {
    hide FactorsOf, EventsReset, IterationsReset, Updated, ReadyForGrant;
    Single(At(d, 0));
    Single(Repeats(d, 0, 2, 0));
  }

  /** But it waits for time 2, whatever it hears. */
  lemma WaitsForLater(d: nat)
    ensures Turns(Later(d), Hear(d, AGAIN), LaterStill(d), [], false)
    ensures Turns(LaterStill(d), Hear(d, Grant(0)), Later(d), [], false) && !PutOff(LaterStill(d), d, Grant(0))
  {
    hide FactorsOf, EventsReset, IterationsReset, Updated, ReadyForGrant;
    Single(At(d, 0));
    Single(Repeats(d, 0, 0, 0));
  }

  lemma NothingAsked(limit: Time)
    ensures NoIteration([]) && Within([], limit)
  {
  }

  lemma Begun(x: bool, d: nat)
    ensures Beginning(x, d).granted < MAX
  {
  }

  /** Both ask to iterate, and the other one hears so. */
  lemma RepeatAsked(k: nat, x: bool, n: Network) returns (run: seq<Action>, m: Network)
    requires k <= 1 && Shows(n, TwoStart(k, x))
    ensures Leads(n, run, m) && Within(run, 2)
    ensures Shows(m, Two(Other(k), Acted(x, k), Acts, [Timing(AGAIN), Timing(Grant(0))], Later(Other(k)), Waits, []))
  {
    hide Step, Turn, Turns, Leads, NoIteration, Shows, Within, Two, PutOff, Packets, Later, Now, Acted, Beginning;
    var j, start, begun, told := Other(k), Beginning(false, Other(k)), Beginning(x, k), Request(0, 2, 0, true);
    LeadsNowhere(n);
    NothingAsked(2);
    AsksToRepeat(j);
    RepeatsNow(x, k);
    RepeatsWithOther(x, k);
    RequestIsTaken(Now(x, k), k, told);
    OnePacket(Grant(0));
    Begun(false, j);
    Begun(x, k);
    Swapped(k, Later(j), Waits, [Timing(told)], begun, Acts, []);
    run, m := TwoAsks(n, [], n, k, start, Acts, [], begun, Acts, [], Repeating(2), Later(j), told, [Timing(told)], 2);
    run, m := TwoAsks(n, run, m, j, begun, Acts, [], Later(j), Waits, [Timing(told)], Repeating(0), Now(x, k), AGAIN,
                      [Timing(AGAIN)], 2);
    assert [Timing(told)] + [] == [Timing(told)];
    run, m := TwoHears(n, run, m, j, Now(x, k), [Timing(AGAIN)], Later(j), Waits, told, [], Acted(x, k), [Grant(0)],
                       true, [Timing(AGAIN), Timing(Grant(0))], 2);
  }

  /** It iterates and asks again. */
  lemma RepeatedAgain(k: nat, x: bool, n: Network) returns (run: seq<Action>, m: Network)
    requires k <= 1 && Shows(n, TwoStart(k, x))
    ensures Leads(n, run, m) && Within(run, 2)
    ensures var all := [Timing(AGAIN), Timing(Grant(0)), Timing(AGAIN)];
      Shows(m, Two(k, Later(Other(k)), Waits, [], Now(x, k), Waits, all))
  {
    hide Step, Turn, Turns, Leads, NoIteration, Shows, Within, Two, PutOff, Packets, Later, Now, Acted;
    var j, some := Other(k), [Timing(AGAIN), Timing(Grant(0))];
    var all := [Timing(AGAIN), Timing(Grant(0)), Timing(AGAIN)];
    RepeatsNow(x, k);
    Swapped(j, Now(x, k), Waits, all, Later(j), Waits, []);
    run, m := RepeatAsked(k, x, n);
    run, m := TwoAsks(n, run, m, j, Acted(x, k), Acts, some, Later(j), Waits, [], Repeating(0), Now(x, k), AGAIN, all,
                      2);
  }

  function RepeatEnd(k: nat, x: bool): Row {
    Two(k, LaterStill(Other(k)), Waits, [], Now(x, k), Waits, [])
  }

  lemma RepeatStandstill(k: nat, x: bool, n: Network) returns (run: seq<Action>, m: Network)
    requires k <= 1 && Shows(n, TwoStart(k, x))
    ensures Leads(n, run, m) && Within(run, 2) && Shows(m, RepeatEnd(k, x))
  {
    hide Step, Turn, Turns, Leads, NoIteration, Shows, Within, Two, PutOff, Packets, Later, Now, LaterStill;
    var j, two, one := Other(k), [Timing(Grant(0)), Timing(AGAIN)], [Timing(AGAIN)];
    WaitsForLater(j);
    RequestIsTaken(Later(j), j, AGAIN);
    OnePacket(AGAIN);
    assert [Timing(AGAIN), Timing(Grant(0)), Timing(AGAIN)] == [Timing(AGAIN)] + two;
    run, m := RepeatedAgain(k, x, n);
    run, m := TwoHears(n, run, m, k, Later(j), [], Now(x, k), Waits, AGAIN, two, LaterStill(j), [], false, [], 2);
    assert two == [Timing(Grant(0))] + one;
    run, m := TwoHears(n, run, m, k, LaterStill(j), [], Now(x, k), Waits, Grant(0), one, Later(j), [], false, [], 2);
    assert one == [Timing(AGAIN)] + [];
    run, m := TwoHears(n, run, m, k, Later(j), [], Now(x, k), Waits, AGAIN, [], LaterStill(j), [], false, [], 2);
  }

  // ---------- exactly when

  ghost predicate OnlyTwo(n: Network) { n.phase.Keys == {0, 1} && n.channels.Keys == {(0, 1), (1, 0)} }

  lemma {:induction false} StillTwo(n: Network, run: seq<Action>)
    requires OnlyTwo(n)
    ensures OnlyTwo(Execute(n, run))
    decreases |run|
  {
    if run != [] && Enabled(n, run[0]) {
      KeepsTwo(n, run[0]);
      hide Apply;
      StillTwo(Apply(n, run[0]), run[1..]);
    }
  }

  lemma KeepsTwo(n: Network, action: Action)
    requires OnlyTwo(n) && Enabled(n, action)
    ensures OnlyTwo(Apply(n, action))
  {
    hide Step, Answered, PutOff, Packets;
  }

  lemma BothWait(m: Network, k: nat, c: Coord, other: Coord)
    requires k <= 1 && OnlyTwo(m) && Shows(m, Two(k, c, Waits, [], other, Waits, []))
    ensures Stuck(m)
  {
    var r := Two(k, c, Waits, [], other, Waits, []);
    assert ShowsFed(m, r, 0) && ShowsFed(m, r, 1) && ShowsEdge(m, r, 0) && ShowsEdge(m, r, 1);
  }

  lemma LoopIsTwo(x: bool, y: bool)
    ensures OnlyTwo(Loop(x, y))
  {
  }

  lemma DataEnds(k: nat, x: bool, m: Network)
    requires k <= 1 && OnlyTwo(m) && (Shows(m, DataEnd(k, x)) || Shows(m, RepeatEnd(k, x)))
    ensures Stuck(m)
  {
    hide Shows, OnlyTwo, Stuck, Peer, Two;
    var j := Other(k);
    if Shows(m, RepeatEnd(k, x)) {
      BothWait(m, k, LaterStill(j), Now(x, k));
    } else {
      BothWait(m, k, Silent(x, j),
               Caller(x, k));
    }
  }

  /** An interruptible federate and any other one come to a standstill in a run without iteration,
      and in a run in which no request is for more than time 2. */
  lemma ComesToStandstill(x: bool, y: bool) returns (waiting: seq<Action>, iterating: seq<Action>)
    requires !x || !y
    ensures NoIteration(waiting) && Within(waiting, MAX) && Stuck(Execute(Loop(x, y), waiting))
    ensures Within(iterating, 2) && Stuck(Execute(Loop(x, y), iterating))
  {
    hide Shows, Leads, Loop, NoIteration, Within, Two, OnlyTwo, Stuck, DataEnd, RepeatEnd, TwoStart, Execute;
    var k, z, n, m := if x then 1 else 0, if x then x else y, Loop(x, y), Loop(x, y);
    StartShows(k, z);
    LoopIsTwo(x, y);
    waiting, m := DataStandstill(k, z, n);
    LeadsTo(n, waiting, m);
    StillTwo(n, waiting);
    DataEnds(k, z, m);
    iterating, m := RepeatStandstill(k, z, n);
    LeadsTo(n, iterating, m);
    StillTwo(n, iterating);
    DataEnds(k, z, m);
  }

  lemma LoopIsAlive(x: bool, y: bool, limit: Time)
    ensures Alive(Loop(x, y), limit) && (x && y ==> FirmPair(Loop(x, y)))
  {
  }

  /** A federate that can be interrupted waits for data, not for a time. */
  ghost predicate WaitsForData(n: Network) {
    exists f :: f in n.feds && f in n.phase && n.phase[f].Waits? && !n.feds[f].info.uninterruptible
      && n.feds[f].exec == MAX
  }

  /** Without iteration, a standstill needs a federate that waits for data only. */
  lemma StandstillOfData(x: bool, y: bool, run: seq<Action>, limit: Time)
    requires NoIteration(run) && Within(run, limit) && limit <= MAX && Stuck(Execute(Loop(x, y), run))
    ensures limit == MAX && WaitsForData(Execute(Loop(x, y), run))
  {
    hide Execute, Stuck, Loop, Alive;
    AllModest(run, limit);
    LoopIsAlive(x, y, limit);
    ExecuteAlive(Loop(x, y), run, limit);
    StuckForData(Execute(Loop(x, y), run), limit);
  }

  lemma AllModest(run: seq<Action>, limit: Time)
    requires NoIteration(run) && Within(run, limit)
    ensures forall k :: 0 <= k < |run| ==> Modest(run[k], limit)
  {
  }

  lemma StuckForData(n: Network, limit: Time)
    requires Alive(n, limit) && Stuck(n)
    ensures limit >= MAX && WaitsForData(n)
  {
    hide Stuck, Follows, OneKnows;
    StuckAtTheEnd(n, limit);
    var f :| 0 <= f <= 1 && AtTheEnd(SideOf(n, f));
    assert f in n.feds;
  }

  lemma SteadyLoop(run: seq<Action>)
    requires Within(run, MAX)
    ensures !Stuck(Execute(Loop(true, true), run))
  {
    hide Execute, Stuck, Loop, FirmPair;
    LoopIsAlive(true, true, MAX);
    ExecuteFirm(Loop(true, true), run);
    FirmIsNotStuck(Execute(Loop(true, true), run));
  }

  /** Two federates that depend on each other can always go on if and only if both are
      uninterruptible, in all runs, in those without iteration and in those with requests for
      proper times. Without iteration and with requests for proper times they always can. */
  lemma LoopGoesOn(x: bool, y: bool)
    ensures (forall run :: Within(run, MAX) ==> !Stuck(Execute(Loop(x, y), run))) <==> x && y
    ensures (forall run :: Within(run, MAX) && NoIteration(run) ==> !Stuck(Execute(Loop(x, y), run))) <==> x && y
    ensures (forall run :: Within(run, MAX - 1) ==> !Stuck(Execute(Loop(x, y), run))) <==> x && y
    ensures forall run :: Within(run, MAX - 1) && NoIteration(run) ==> !Stuck(Execute(Loop(x, y), run))
  {
    forall run | Within(run, MAX - 1) && NoIteration(run)
      ensures !Stuck(Execute(Loop(x, y), run))
    {
      hide Execute, Stuck, Loop, NoIteration, Within;
      if Stuck(Execute(Loop(x, y), run)) {
        StandstillOfData(x, y, run, MAX - 1);
      }
    }
    forall run | Within(run, 2)
      ensures Within(run, MAX - 1)
    {
    }
    forall run | Within(run, MAX - 1)
      ensures Within(run, MAX)
    {
    }
    hide Execute, Stuck, Loop, NoIteration, Within;
    if x && y {
      forall run | Within(run, MAX)
        ensures !Stuck(Execute(Loop(x, y), run))
      {
        SteadyLoop(run);
      }
    } else {
      var waiting, iterating := ComesToStandstill(x, y);
      assert Within(iterating, MAX - 1) && Within(iterating, MAX);
    }
  }
}
