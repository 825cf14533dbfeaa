/** Runs that are worked out action by action, in any network. */
module TimeRuns {
  import opened TimeDependencies
  import opened TimeCoordinator
  import opened TimeGrants
  import opened TimePromises
  import opened TimeNetwork

  // ---------- runs

  /** Every action of the run is possible, and it leads from n to m. */
  ghost predicate Leads(n: Network, run: seq<Action>, m: Network)
    decreases |run|
  {
    if run == [] then m == n else Enabled(n, run[0]) && Leads(Apply(n, run[0]), run[1..], m)
  }

  lemma LeadsNowhere(n: Network)
    ensures Leads(n, [], n)
  {
  }

  lemma {:induction false} LeadsTo(n: Network, run: seq<Action>, m: Network)
    requires Leads(n, run, m)
    ensures Execute(n, run) == m
    decreases |run|
  {
    hide Enabled, Apply;
    if run != [] {
      LeadsTo(Apply(n, run[0]), run[1..], m);
    }
  }

  lemma {:induction false} LeadsThen(n: Network, run: seq<Action>, m: Network, more: seq<Action>, l: Network)
    requires Leads(n, run, m) && Leads(m, more, l)
    ensures Leads(n, run + more, l)
    decreases |run|
  {
    hide Enabled, Apply;
    if run == [] {
      assert run + more == more;
    } else {
      LeadsThen(Apply(n, run[0]), run[1..], m, more, l);
      assert (run + more)[0] == run[0] && (run + more)[1..] == run[1..] + more;
    }
  }

  lemma LeadsOn(n: Network, run: seq<Action>, m: Network, action: Action)
    requires Leads(n, run, m) && Enabled(m, action)
    ensures Leads(n, run + [action], Apply(m, action))
  {
    hide Enabled, Apply;
    assert [action][1..] == [];
    assert Leads(Apply(m, action), [], Apply(m, action));
    LeadsThen(n, run, m, [action], Apply(m, action));
  }

  predicate NoIteration(run: seq<Action>) {
    forall k :: 0 <= k < |run| && run[k].AskFor? ==> !run[k].iterate
  }

  /** All requests are for times up to a limit. */
  predicate Within(run: seq<Action>, limit: Time) {
    forall k :: 0 <= k < |run| && run[k].AskFor? ==> run[k].time <= limit
  }

  /** Data on the way from federate b is too old for federate a. */
  ghost predicate Late(n: Network, b: nat, a: nat) {
    (b, a) in n.channels && a in n.feds && !InTime(n, b, a)
  }

  // ---------- what happens to one federate

  /** Only federate f moves on, to a state and a phase, and sends messages. */
  ghost predicate Moves(n: Network, f: nat, c: Coord, p: Phase, ms: seq<Message>, m: Network) {
    && m.feds == n.feds[f := c] && m.phase == n.phase[f := p] && m.channels.Keys == n.channels.Keys
    && forall e :: e in n.channels ==> m.channels[e] == if e.0 == f then n.channels[e] + Packets(ms) else n.channels[e]
  }

  /** A federate takes an input and looks: its new state, what it sent, and whether it stops
      waiting. */
  function Turn(c: Coord, i: Input): (Coord, seq<Message>, bool) {
    var (heard, first) := Step(c, i);
    var (looked, second) := Step(heard, Look);
    (looked, first + second, Answered(heard))
  }

  predicate Turns(c: Coord, i: Input, looked: Coord, ms: seq<Message>, answered: bool) {
    Turn(c, i).0 == looked && Turn(c, i).1 == ms && Turn(c, i).2 == answered
  }

  lemma FedMoves(n: Network, f: nat, i: Input, p: Phase)
    requires f in n.feds
    ensures var (c, ms) := Step(n.feds[f], i); Moves(n, f, c, p, ms, Fed(n, f, i).(phase := n.phase[f := p]))
  {
    hide Step;
  }

  lemma MovesTwice(n: Network, f: nat, c1: Coord, p1: Phase, m1: seq<Message>, n1: Network, c2: Coord, p2: Phase,
                   m2: seq<Message>, n2: Network)
    requires Moves(n, f, c1, p1, m1, n1) && Moves(n1, f, c2, p2, m2, n2)
    ensures Moves(n, f, c2, p2, m1 + m2, n2)
  {
    assert n.feds[f := c1][f := c2] == n.feds[f := c2] && n.phase[f := p1][f := p2] == n.phase[f := p2];
    hide Packets;
    forall e | e in n.channels
      ensures n2.channels[e] == if e.0 == f then n.channels[e] + Packets(m1 + m2) else n.channels[e]
    {
      PacketsOn(n.channels[e], m1, m2);
    }
  }

  lemma PacketsOn(ps: seq<Packet>, m1: seq<Message>, m2: seq<Message>)
    ensures ps + Packets(m1) + Packets(m2) == ps + Packets(m1 + m2)
  {
  }

  lemma TurnMoves(n: Network, f: nat, i: Input)
    requires f in n.feds && f in n.phase
    ensures var (c, ms, answered) := Turn(n.feds[f], i);
      Moves(n, f, c, if answered then Acts else Waits, ms, TryGrant(Fed(n, f, i).(phase := n.phase[f := Waits]), f))
  {
    var (c1, m1) := Step(n.feds[f], i);
    var (c2, m2) := Step(c1, Look);
    var p := if Answered(c1) then Acts else Waits;
    var n1 := Fed(n, f, i).(phase := n.phase[f := Waits]);
    assert n1.feds[f] == c1 by { hide Step; }
    hide Step, Answered, Fed, Moves;
    FedMoves(n, f, i, Waits);
    FedMoves(n1, f, Look, p);
    MovesTwice(n, f, c1, Waits, m1, n1, c2, p, m2, TryGrant(n1, f));
  }

  // ---------- a part of a network

  /** Federates first, first + 1, and so on, each depending on the one before it, and in a ring
      the first on the last; sent[k] is under way from the k-th to the next one. */
  datatype Row = Row(first: nat, ring: bool, feds: seq<Coord>, phases: seq<Phase>, sent: seq<seq<Packet>>) {
    predicate Ok() { |feds| >= 2 && |phases| == |feds| && |sent| == if ring then |feds| else |feds| - 1 }

    function After(k: nat): nat { if k + 1 < |feds| then first + k + 1 else first }

    predicate Follows(k: nat) { k < |feds| && (k == 0 ==> ring) }

    /** The one before the k-th. */
    function Prior(k: nat): (j: nat)
      requires Ok() && Follows(k)
      ensures j < |sent| && After(j) == first + k
    {
      if k == 0 then |feds| - 1 else k - 1
    }

    /** What the k-th takes next. */
    function Next(k: nat): seq<Packet>
      requires Ok() && Follows(k)
    {
      sent[Prior(k)]
    }

    /** The k-th federate moves on to c and a phase, and sends packets. */
    function Moved(k: nat, c: Coord, p: Phase, ps: seq<Packet>): (r: Row)
      requires Ok() && k < |feds|
      ensures r.Ok()
    {
      Row(first, ring, feds[k := c], phases[k := p], if k < |sent| then sent[k := sent[k] + ps] else sent)
    }

    /** The k-th federate takes the next packet of the one before it. */
    function Took(k: nat): (r: Row)
      requires Ok() && Follows(k) && Next(k) != []
      ensures r.Ok()
    {
      Row(first, ring, feds, phases, sent[Prior(k) := Next(k)[1..]])
    }

    /** The k-th federate takes an input and looks whether its time can be granted. */
    function Turned(k: nat, i: Input): (r: Row)
      requires Ok() && k < |feds|
      ensures r.Ok()
    {
      var (c, ms, answered) := Turn(feds[k], i);
      Moved(k, c, if answered then Acts else Waits, Packets(ms))
    }
  }

  ghost predicate ShowsFed(m: Network, r: Row, k: nat)
    requires r.Ok() && k < |r.feds|
  {
    var f := r.first + k;
    f in m.feds && m.feds[f] == r.feds[k] && f in m.phase && m.phase[f] == r.phases[k]
  }

  ghost predicate ShowsEdge(m: Network, r: Row, k: nat)
    requires r.Ok() && k < |r.sent|
  {
    var e := (r.first + k, r.After(k));
    e in m.channels && m.channels[e] == r.sent[k]
  }

  /** The federates of the row are in the network, and what is under way between them. */
  ghost predicate Shows(m: Network, r: Row) {
    && r.Ok()
    && (forall k :: 0 <= k < |r.feds| ==> ShowsFed(m, r, k))
    && (forall k :: 0 <= k < |r.sent| ==> ShowsEdge(m, r, k))
  }

  lemma ShowsMoved(m: Network, r: Row, k: nat, c: Coord, p: Phase, ms: seq<Message>, m': Network)
    requires Shows(m, r) && k < |r.feds| && Moves(m, r.first + k, c, p, ms, m')
    ensures Shows(m', r.Moved(k, c, p, Packets(ms)))
  {
    hide Packets;
    var r' := r.Moved(k, c, p, Packets(ms));
    forall j | 0 <= j < |r.feds|
      ensures ShowsFed(m', r', j)
    {
      assert ShowsFed(m, r, j);
    }
    forall j | 0 <= j < |r.sent|
      ensures ShowsEdge(m', r', j)
    {
      assert ShowsEdge(m, r, j);
    }
  }

  /** The network without the next packet on an edge. */
  function Off(m: Network, b: nat, a: nat): Network
    requires (b, a) in m.channels && m.channels[(b, a)] != []
  {
    m.(channels := m.channels[(b, a) := m.channels[(b, a)][1..]])
  }

  lemma ShowsTook(m: Network, r: Row, k: nat)
    requires Shows(m, r) && r.Follows(k) && r.Next(k) != []
    ensures var b := r.first + r.Prior(k);
      && (b, r.first + k) in m.channels && m.channels[(b, r.first + k)] == r.Next(k)
      && Shows(Off(m, b, r.first + k), r.Took(k))
  {
    var b, r' := r.first + r.Prior(k), r.Took(k);
    assert ShowsEdge(m, r, r.Prior(k));
    var m' := Off(m, b, r.first + k);
    forall j | 0 <= j < |r.feds|
      ensures ShowsFed(m', r', j)
    {
      assert ShowsFed(m, r, j);
    }
    forall j | 0 <= j < |r.sent|
      ensures ShowsEdge(m', r', j)
    {
      assert ShowsEdge(m, r, j);
    }
  }

  /** The next packet of the k-th federate can be delivered. */
  lemma ShowsDeliver(m: Network, r: Row, k: nat)
    requires Shows(m, r) && r.Follows(k) && r.Next(k) != []
    requires r.Next(k)[0].Timing? ==> !PutOff(r.feds[k], r.first + r.Prior(k), r.Next(k)[0].m)
    ensures var b, a := r.first + r.Prior(k), r.first + k;
      && Enabled(m, Deliver(b, a)) && m.channels[(b, a)] == r.Next(k)
      && m.feds[a] == r.feds[k] && m.phase[a] == r.phases[k]
      && Shows(Off(m, b, a), r.Took(k)) && r.Took(k).first == r.first && |r.Took(k).feds| == |r.feds|
  {
    hide PutOff;
    ShowsTook(m, r, k);
    assert ShowsFed(m, r, k);
  }

  // ---------- one action more

  lemma AskStep(n: Network, run: seq<Action>, m: Network, r: Row, k: nat, i: Input)
    returns (run': seq<Action>, m': Network, r': Row)
    requires r.Ok() && Leads(n, run, m) && Shows(m, r) && i.Ask? && k < |r.feds|
    requires !r.phases[k].Waits? && r.feds[k].granted < MAX
    ensures Leads(n, run', m') && (NoIteration(run) && !i.iterate ==> NoIteration(run'))
    ensures r' == r.Turned(k, i) && Shows(m', r')
    ensures run' == run + [AskFor(r.first + k, i.time, i.iterate, i.newValue, i.newMessage)]
  {
    var f, action := r.first + k, AskFor(r.first + k, i.time, i.iterate, i.newValue, i.newMessage);
    assert ShowsFed(m, r, k);
    hide Step, Leads, Turn, Moves, TryGrant, Fed, Shows;
    run', m', r' := run + [action], Apply(m, action), r.Turned(k, i);
    LeadsOn(n, run, m, action);
    TurnMoves(m, f, i);
    var (c, ms, answered) := Turn(r.feds[k], i);
    ShowsMoved(m, r, k, c, if answered then Acts else Waits, ms, m');
  }

  lemma PublishStep(n: Network, run: seq<Action>, m: Network, r: Row, k: nat)
    returns (run': seq<Action>, m': Network, r': Row)
    requires r.Ok() && Leads(n, run, m) && Shows(m, r) && k < |r.feds| && r.phases[k].Acts? && r.feds[k].granted < MAX
    ensures Leads(n, run', m') && (NoIteration(run) ==> NoIteration(run'))
    ensures var c := r.feds[k];
      r' == r.Moved(k, c, Acts, [Data(c.granted + c.info.outputDelay)]) && Shows(m', r')
  {
    hide Step, Leads, TryGrant, Fed;
    var c := r.feds[k];
    var p := Data(c.granted + c.info.outputDelay);
    assert ShowsFed(m, r, k);
    run', m', r' := run + [Publish(r.first + k)], Apply(m, Publish(r.first + k)), r.Moved(k, c, Acts, [p]);
    LeadsOn(n, run, m, Publish(r.first + k));
    forall j | 0 <= j < |r.feds|
      ensures ShowsFed(m', r', j)
    {
      assert ShowsFed(m, r, j);
    }
    forall j | 0 <= j < |r.sent|
      ensures ShowsEdge(m', r', j)
    {
      assert ShowsEdge(m, r, j);
    }
  }

  lemma HearMoves(m: Network, b: nat, a: nat)
    requires Enabled(m, Deliver(b, a)) && m.channels[(b, a)][0].Timing? && m.phase[a].Waits?
    ensures var (c, ms, answered) := Turn(m.feds[a], Hear(b, m.channels[(b, a)][0].m));
      Moves(Off(m, b, a), a, c, if answered then Acts else Waits, ms, Apply(m, Deliver(b, a)))
  {
    SamePhase(m, b, a);
    hide Step, Turn, Moves, TryGrant, Fed, PutOff;
    TurnMoves(Off(m, b, a), a, Hear(b, m.channels[(b, a)][0].m));
  }

  lemma SamePhase(m: Network, b: nat, a: nat)
    requires a in m.feds && a in m.phase && m.phase[a].Waits? && (b, a) in m.channels && m.channels[(b, a)] != []
    ensures Taken(m, b, a) == Off(m, b, a) && m.phase[a := Waits] == m.phase
    ensures forall i :: Fed(Off(m, b, a), a, i).(phase := m.phase) == Fed(Off(m, b, a), a, i)
  {
    hide Step;
    assert m.phase[a := Waits] == m.phase;
  }

  lemma TookKeeps(r: Row, k: nat)
    requires r.Ok() && r.Follows(k) && r.Next(k) != []
    ensures r.Took(k).feds == r.feds && r.Took(k).first == r.first
  {
  }

  /** A waiting federate takes a timing message and looks. */
  lemma HearStep(n: Network, run: seq<Action>, m: Network, r: Row, k: nat)
    returns (run': seq<Action>, m': Network, r': Row)
    requires r.Ok() && Leads(n, run, m) && Shows(m, r) && r.Follows(k) && r.phases[k].Waits?
    requires r.Next(k) != [] && r.Next(k)[0].Timing? && !PutOff(r.feds[k], r.first + r.Prior(k), r.Next(k)[0].m)
    ensures Leads(n, run', m') && (NoIteration(run) ==> NoIteration(run'))
    ensures r' == r.Took(k).Turned(k, Hear(r.first + r.Prior(k), r.Next(k)[0].m)) && Shows(m', r')
    ensures run' == run + [Deliver(r.first + r.Prior(k), r.first + k)]
  {
    hide Step, Leads, Turn, Moves, Apply, PutOff, Shows, Row.Took;
    var b, a := r.first + r.Prior(k), r.first + k;
    ShowsDeliver(m, r, k);
    assert r.Took(k).feds[k] == r.feds[k] by { TookKeeps(r, k); }
    run', m', r' := run + [Deliver(b, a)], Apply(m, Deliver(b, a)), r.Took(k).Turned(k, Hear(b, r.Next(k)[0].m));
    LeadsOn(n, run, m, Deliver(b, a));
    HearMoves(m, b, a);
    var (c, ms, answered) := Turn(r.feds[k], Hear(b, r.Next(k)[0].m));
    ShowsMoved(Off(m, b, a), r.Took(k), k, c, if answered then Acts else Waits, ms, m');
  }

  lemma TakeMoves(m: Network, b: nat, a: nat)
    requires Enabled(m, Deliver(b, a)) && (m.channels[(b, a)][0].Timing? ==> !m.phase[a].Waits?)
    ensures var p := m.channels[(b, a)][0];
      var (c, ms) := Step(m.feds[a], if p.Data? then Value(p.time) else Hear(b, p.m));
      Moves(Off(m, b, a), a, c, Taking(m.phase[a]), ms, Apply(m, Deliver(b, a)))
  {
    hide Step, TryGrant, PutOff;
  }

  /** A federate takes data, or a timing message between two requests. */
  lemma TakeStep(n: Network, run: seq<Action>, m: Network, r: Row, k: nat)
    returns (run': seq<Action>, m': Network, r': Row)
    requires r.Ok() && Leads(n, run, m) && Shows(m, r) && r.Follows(k) && r.Next(k) != []
    requires r.Next(k)[0].Timing? ==> !r.phases[k].Waits? && !PutOff(r.feds[k], r.first + r.Prior(k), r.Next(k)[0].m)
    ensures Leads(n, run', m') && (NoIteration(run) ==> NoIteration(run'))
    ensures var p := r.Next(k)[0];
      var (c, ms) := Step(r.feds[k], if p.Data? then Value(p.time) else Hear(r.first + r.Prior(k), p.m));
      r' == r.Took(k).Moved(k, c, Taking(r.phases[k]), Packets(ms)) && Shows(m', r')
    ensures run' == run + [Deliver(r.first + r.Prior(k), r.first + k)]
  {
    hide Step, Leads, Moves, Apply, PutOff, Shows, Row.Took;
    var b, a, p := r.first + r.Prior(k), r.first + k, r.Next(k)[0];
    ShowsDeliver(m, r, k);
    var (c, ms) := Step(r.feds[k], if p.Data? then Value(p.time) else Hear(b, p.m));
    run', m' := run + [Deliver(b, a)], Apply(m, Deliver(b, a));
    r' := r.Took(k).Moved(k, c, Taking(r.phases[k]), Packets(ms));
    LeadsOn(n, run, m, Deliver(b, a));
    TakeMoves(m, b, a);
    ShowsMoved(Off(m, b, a), r.Took(k), k, c, Taking(r.phases[k]), ms, m');
  }

  lemma SameRow(r: Row, s: Row)
    requires r.first == s.first && r.ring == s.ring && r.feds == s.feds && r.phases == s.phases
    requires |r.sent| == |s.sent| <= 4
    requires |s.sent| > 0 ==> r.sent[0] == s.sent[0]
    requires |s.sent| > 1 ==> r.sent[1] == s.sent[1]
    requires |s.sent| > 2 ==> r.sent[2] == s.sent[2]
    requires |s.sent| > 3 ==> r.sent[3] == s.sent[3]
    ensures r == s
  {
    assert r.sent == s.sent;
  }

  // ---------- federates with default options

  const PLAIN: Options := Options(EPSILON, 0, 0, 0, 0, false)

  // A dependency that was granted a time or asks for one, once or again, and its request.
  function At(fed: nat, t: Time): Dependency { Dependency(fed, TimeGranted, t, t, t, MAX) }
  function Wants(fed: nat, next: Time, te: Time, deMin: Time): Dependency {
    Dependency(fed, TimeRequested, next, te, deMin, MAX)
  }
  function Repeats(fed: nat, next: Time, te: Time, deMin: Time): Dependency {
    Dependency(fed, TimeRequestedIterative, next, te, deMin, MAX)
  }
  function Req(next: Time, te: Time, deMin: Time): Message { Request(next, te, deMin, false) }

  /** An interruptible federate with one dependency, and others that depend on it. */
  function Node(d: Dependency, granted: Time, requested: Time, next: Time, minminDe: Time, minDe: Time, allow: Time,
                exec: Time, value: Time): Coord
  {
    Coord(PLAIN, [d], true, false, granted, granted, requested, next, minminDe, minDe, allow, exec, MAX, value, MAX)
  }

  /** A request for a time, without iteration and data that is due. */
  function For(t: Time): Input { Ask(t, false, MAX, MAX) }

  lemma Single(d: Dependency)
    ensures forall f :: FactorsOf(f, [d]) == Include(f, d)
    ensures forall t :: EventsReset(t, [d]) == [EventReset(t, d)] && IterationsReset(t, [d]) == [IterationReset(t, d)]
    ensures forall m :: Updated([d], d.fed, m) == [Process(d, m).0]
    ensures forall t :: ReadyForGrant([d], t) == (d.next > t || (d.next == t && d.state != TimeGranted))
  {
    assert [d][0] == d;
    forall f
      ensures FactorsOf(f, [d]) == Include(f, d)
    {
      assert [d][..0] == [] && FactorsOf(f, []) == f;
    }
  }

  // ---------- how federates with one dependency begin

  lemma AsksFirst(d: nat, t: Time)
    requires 1 < t < MAX
    ensures Turns(Node(At(d, 0), 0, MAX, 0, 0, 0, -MAX, MAX, MAX), For(t),
                  Node(At(d, 0), 0, t, 1, 0, 0, 0, t, MAX), [Req(1, t, 1)], false)
  {
    hide FactorsOf, EventsReset, IterationsReset, Updated, ReadyForGrant;
    Single(At(d, 0));
  }

  lemma HearsSameRequest(d: nat, t: Time)
    requires 1 < t < MAX
    ensures Turns(Node(At(d, 0), 0, t, 1, 0, 0, 0, t, MAX), Hear(d, Req(1, t, 1)),
                  Node(Wants(d, 1, t, 1), 0, t, 1, 1, t, 1, t, MAX), [Req(1, t, t)], false)
  {
    hide FactorsOf, EventsReset, IterationsReset, Updated, ReadyForGrant;
    Single(At(d, 0));
    Single(Wants(d, 1, t, 1));
  }

  lemma NoticesStart(d: nat, t: Time)
    requires 1 < t < MAX
    ensures Step(Node(At(d, 0), 0, t, 1, 0, 0, 0, t, MAX), Value(0))
            == (Node(At(d, 0), 0, t, 1, 0, 0, 0, 1, 1), [Req(1, 1, 1)])
  {
    hide FactorsOf, EventsReset, IterationsReset, Updated, ReadyForGrant;
    Single(At(d, 0));
  }

  lemma HearsOfData(d: nat, t: Time)
    requires 1 < t < MAX
    ensures Turns(Node(Wants(d, 1, t, 1), 0, t, 1, 1, t, 1, t, MAX), Hear(d, Req(1, 1, 1)),
                  Node(Wants(d, 1, 1, 1), 0, t, 1, 1, 1, 1, t, MAX), [Req(1, t, 1)], false)
  {
    hide FactorsOf, EventsReset, IterationsReset, Updated, ReadyForGrant;
    Single(Wants(d, 1, t, 1));
    Single(Wants(d, 1, 1, 1));
  }

  lemma HearsGrant(d: nat, t: Time)
    requires 1 < t < MAX
    ensures Turns(Node(Wants(d, 1, 1, 1), 0, t, 1, 1, 1, 1, t, MAX), Hear(d, Grant(1)),
                  Node(At(d, 1), 0, t, 1, 1, 1, 1, t, MAX), [], false)
    ensures !PutOff(Node(Wants(d, 1, 1, 1), 0, t, 1, 1, 1, 1, t, MAX), d, Grant(1))
  {
    hide FactorsOf, EventsReset, IterationsReset, Updated, ReadyForGrant;
    Single(Wants(d, 1, 1, 1));
    Single(At(d, 1));
  }

  lemma NoticesData(d: nat, t: Time)
    requires 1 < t < MAX
    ensures Step(Node(At(d, 1), 0, t, 1, 1, 1, 1, t, MAX), Value(1))
            == (Node(At(d, 1), 0, t, 1, 1, 1, 1, 1, 1), [Req(1, 1, 1)])
  {
    hide FactorsOf, EventsReset, IterationsReset, Updated, ReadyForGrant;
    Single(At(d, 1));
  }
}
