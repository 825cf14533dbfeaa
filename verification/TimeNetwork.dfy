/** Federates that depend on each other, with messages under way between them. */
module TimeNetwork {
  import opened TimeDependencies
  import opened TimeCoordinator
  import opened TimeGrants
  import opened TimePromises

  /** What travels from a federate to one that depends on it, in order. */
  datatype Packet = Timing(m: Message) | Data(time: Time)

  /** The federates, what each of them is doing, and what is under way on each dependency: the
      edge (b, a) says that a depends on b. */
  datatype Network = Network(feds: map<nat, Coord>, phase: map<nat, Phase>, channels: map<(nat, nat), seq<Packet>>)

  /** A federate asks for a time, publishes at the time it was granted, or takes the next
      packet of a federate it depends on. */
  datatype Action =
    | AskFor(fed: nat, time: Time, iterate: bool, newValue: Time, newMessage: Time)
    | Publish(fed: nat)
    | Deliver(from: nat, to: nat)

  predicate PutOff(c: Coord, b: nat, m: Message) {
    exists d :: d in c.deps && d.fed == b && Delays(c, d, m)
  }

  /** Packets are taken only once a federate calls for a new time, and then it publishes nothing
      more; some may come before its own request. */
  predicate Enabled(n: Network, action: Action) {
    match action
    case AskFor(f, _, _, _, _) => f in n.feds && f in n.phase && !n.phase[f].Waits? && n.feds[f].granted < MAX
    case Publish(f) => f in n.feds && f in n.phase && n.phase[f].Acts? && n.feds[f].granted < MAX
    case Deliver(b, a) =>
      && a in n.feds && a in n.phase && (b, a) in n.channels && n.channels[(b, a)] != []
      && (n.channels[(b, a)][0].Timing? ==> !PutOff(n.feds[a], b, n.channels[(b, a)][0].m))
  }

  function Packets(ms: seq<Message>): (ps: seq<Packet>)
    ensures |ps| == |ms| && forall i :: 0 <= i < |ms| ==> ps[i] == Timing(ms[i])
  {
    if ms == [] then [] else [Timing(ms[0])] + Packets(ms[1..])
  }

  /** Puts packets on all edges from a federate. */
  function Sent(channels: map<(nat, nat), seq<Packet>>, fed: nat, ps: seq<Packet>): map<(nat, nat), seq<Packet>> {
    map e | e in channels :: if e.0 == fed then channels[e] + ps else channels[e]
  }

  /** One federate takes an input. */
  function Fed(n: Network, f: nat, i: Input): Network
    requires f in n.feds
  {
    var (c, ms) := Step(n.feds[f], i);
    n.(feds := n.feds[f := c], channels := Sent(n.channels, f, Packets(ms)))
  }

  /** A waiting federate looks whether its time can be granted. */
  function TryGrant(n: Network, f: nat): Network
    requires f in n.feds
  {
    Fed(n, f, Look).(phase := n.phase[f := if Answered(n.feds[f]) then Acts else Waits])
  }

  /** Federate a calls for a new time, if it did not yet, and takes a packet. */
  function Taken(n: Network, b: nat, a: nat): Network
    requires a in n.phase && (b, a) in n.channels && n.channels[(b, a)] != []
  {
    n.(phase := n.phase[a := if n.phase[a].Waits? then Waits else Calls],
       channels := n.channels[(b, a) := n.channels[(b, a)][1..]])
  }

  /** A request and every timing message that reaches a waiting federate are followed by a
      look at whether its time can be granted. */
  function Apply(n: Network, action: Action): Network
    requires Enabled(n, action)
  {
    match action
    case AskFor(f, time, iterate, newValue, newMessage) =>
      TryGrant(Fed(n, f, Ask(time, iterate, newValue, newMessage)).(phase := n.phase[f := Waits]), f)
    case Publish(f) =>
      n.(channels := Sent(n.channels, f, [Data(n.feds[f].granted + n.feds[f].info.outputDelay)]))
    case Deliver(b, a) =>
      match n.channels[(b, a)][0]
      case Data(t) => Fed(Taken(n, b, a), a, Value(t))
      case Timing(m) =>
        var heard := Fed(Taken(n, b, a), a, Hear(b, m));
        if n.phase[a].Waits? then TryGrant(heard, a) else heard
  }

  /** A run, which ends early at an action that is not enabled. */
  function Execute(n: Network, actions: seq<Action>): Network
    decreases |actions|
  {
    if actions == [] || !Enabled(n, actions[0]) then n else Execute(Apply(n, actions[0]), actions[1..])
  }

  // ---------- the invariant

  /** The greatest time that each federate has claimed, and that each has heard of each of its
      dependencies, since the start. */
  datatype History = History(said: map<nat, Time>, heard: map<nat, map<nat, Time>>)

  /** No data on an edge is older than what its receiver has heard of the sender by then, and
      the sender has claimed all that is heard in the end. */
  ghost predicate Flow(lo: Time, ps: seq<Packet>, hi: Time, rank: nat)
    decreases |ps|
  {
    if ps == [] then Upto(lo, hi) else
      match ps[0]
      case Timing(m) => Timely(m) && Flow(Max(lo, Claim(rank, m)), ps[1..], hi, rank)
      case Data(t) => Upto(lo, t) && Flow(lo, ps[1..], hi, rank)
  }

  /** A federate of one of three ranks: firm, or above all its dependencies. */
  ghost predicate Vouched(rank: map<nat, nat>, f: nat, c: Coord) {
    && f in rank && rank[f] <= 2 && (rank[f] == 0 ==> Firm(c))
    && (Firm(c) || forall i :: 0 <= i < |c.deps| ==> c.deps[i].fed in rank && rank[c.deps[i].fed] < rank[f])
  }

  ghost predicate FedOk(rank: map<nat, nat>, n: Network, h: History, f: nat)
    requires f in n.feds
  {
    var c := n.feds[f];
    && f in n.phase && f in h.said && f in h.heard && Sound(c) && Knows(c, h.heard[f])
    && (Vouched(rank, f, c) ==>
      Source(c, n.phase[f], rank[f], h.heard[f]) && Honest(c, n.phase[f], rank[f], h.heard[f], h.said[f]))
  }

  ghost predicate EdgeOk(rank: map<nat, nat>, n: Network, h: History, b: nat, a: nat)
    requires (b, a) in n.channels
  {
    && b in n.feds && a in n.feds && Vouched(rank, b, n.feds[b]) && Has(n.feds[a].deps, b)
    && b in h.said && a in h.heard && b in h.heard[a]
    && Flow(h.heard[a][b], n.channels[(b, a)], h.said[b], rank[b])
  }

  ghost predicate Invariant(rank: map<nat, nat>, n: Network, h: History) {
    && (forall f :: f in n.feds ==> FedOk(rank, n, h, f))
    && (forall b, a :: (b, a) in n.channels ==> EdgeOk(rank, n, h, b, a))
  }

  // ---------- what flows on an edge

  lemma {:induction false} FlowBound(lo: Time, ps: seq<Packet>, hi: Time, rank: nat)
    requires Flow(lo, ps, hi, rank)
    ensures Upto(lo, hi) && forall t :: Data(t) in ps ==> Upto(lo, t)
    decreases |ps|
  {
    if ps != [] {
      FlowBound(if ps[0].Timing? then Max(lo, Claim(rank, ps[0].m)) else lo, ps[1..], hi, rank);
    }
  }

  lemma {:induction false} FlowSent(lo: Time, ps: seq<Packet>, hi: Time, rank: nat, m: Message)
    requires Flow(lo, ps, hi, rank) && Timely(m)
    ensures Flow(lo, ps + [Timing(m)], Max(hi, Claim(rank, m)), rank)
    decreases |ps|
  {
    if ps == [] {
      assert ps + [Timing(m)] == [Timing(m)] && [Timing(m)][1..] == [];
    } else {
      assert (ps + [Timing(m)])[1..] == ps[1..] + [Timing(m)];
      FlowSent(if ps[0].Timing? then Max(lo, Claim(rank, ps[0].m)) else lo, ps[1..], hi, rank, m);
    }
  }

  lemma {:induction false} FlowData(lo: Time, ps: seq<Packet>, hi: Time, rank: nat, t: Time)
    requires Flow(lo, ps, hi, rank) && Upto(hi, t)
    ensures Flow(lo, ps + [Data(t)], hi, rank)
    decreases |ps|
  {
    if ps == [] {
      assert ps + [Data(t)] == [Data(t)] && [Data(t)][1..] == [];
    } else {
      assert (ps + [Data(t)])[1..] == ps[1..] + [Data(t)];
      FlowData(if ps[0].Timing? then Max(lo, Claim(rank, ps[0].m)) else lo, ps[1..], hi, rank, t);
    }
  }

  /** What a federate has claimed once it sent at most one message. */
  function Saying(said: Time, rank: nat, ms: seq<Message>): Time {
    if ms == [] then said else Max(said, Claim(rank, ms[0]))
  }

  lemma FlowOn(lo: Time, ps: seq<Packet>, hi: Time, rank: nat, ms: seq<Message>)
    requires Flow(lo, ps, hi, rank) && |ms| <= 1 && forall m :: m in ms ==> Timely(m)
    ensures Flow(lo, ps + Packets(ms), Saying(hi, rank, ms), rank)
  {
    if ms == [] {
      assert ps + Packets(ms) == ps;
    } else {
      assert Packets(ms) == [Timing(ms[0])];
      FlowSent(lo, ps, hi, rank, ms[0]);
    }
  }

  // ---------- what never changes

  lemma SameShape(c: Coord, i: Input)
    ensures var c' := Step(c, i).0;
      && c'.info == c.info && |c'.deps| == |c.deps|
      && forall k :: 0 <= k < |c.deps| ==> c'.deps[k].fed == c.deps[k].fed
  {
    hide NextPossibleTime, AllowedTime, FactorsOf, ReadyForGrant, RequestOf, ExecTime, EventTime;
  }

  lemma FewMessages(c: Coord, i: Input)
    ensures var ms := Step(c, i).1; |ms| <= 1 && forall m :: m in ms ==> Timely(m)
  {
    hide NextPossibleTime, AllowedTime, FactorsOf, ReadyForGrant, ExecTime, EventTime;
  }

  /** An input changes neither what a federate depends on nor whether it is vouched for. */
  lemma SameVouched(rank: map<nat, nat>, f: nat, c: Coord, i: Input)
    ensures Vouched(rank, f, Step(c, i).0) == Vouched(rank, f, c)
    ensures forall b :: Has(Step(c, i).0.deps, b) == Has(c.deps, b)
  {
    SameShape(c, i);
    hide Step;
  }

  // ---------- every action keeps the invariant

  /** What a federate has said after an input. */
  function Said(rank: map<nat, nat>, n: Network, h: History, f: nat, i: Input): History
    requires f in n.feds && f in h.said
  {
    h.(said := h.said[f := Saying(h.said[f], if f in rank then rank[f] else 0, Step(n.feds[f], i).1)])
  }

  /** An input that is no timing message, at a federate whose promises hold afterwards. */
  lemma FedKeeps(rank: map<nat, nat>, n: Network, h: History, f: nat, i: Input, phase: Phase)
    requires Invariant(rank, n, h) && f in n.feds && !i.Hear?
    requires var (c, ms) := Step(n.feds[f], i);
      var heard := h.heard[f];
      Vouched(rank, f, n.feds[f]) ==>
        && Source(c, phase, rank[f], heard) && Honest(c, phase, rank[f], heard, h.said[f])
        && forall m :: m in ms ==> Honest(c, phase, rank[f], heard, Claim(rank[f], m))
    ensures Invariant(rank, Fed(n, f, i).(phase := n.phase[f := phase]), Said(rank, n, h, f, i))
  {
    hide Step, Sound, Knows, Source, Honest, Flow, Vouched, Has;
    var (c, ms) := Step(n.feds[f], i);
    var n', h' := Fed(n, f, i).(phase := n.phase[f := phase]), Said(rank, n, h, f, i);
    FewMessages(n.feds[f], i);
    assert FedOk(rank, n, h, f);
    StepKeeps(n.feds[f], i);
    StepKnows(n.feds[f], i, h.heard[f]);
    SameVouched(rank, f, n.feds[f], i);
    if Vouched(rank, f, n.feds[f]) {
      VouchedRank(rank, f, n.feds[f]);
      SayingHonest(c, phase, rank[f], h.heard[f], h.said[f], ms);
    }
    forall g | g in n'.feds
      ensures FedOk(rank, n', h', g)
    {
      assert FedOk(rank, n, h, g);
    }
    forall b, a | (b, a) in n'.channels
      ensures EdgeOk(rank, n', h', b, a)
    {
      assert EdgeOk(rank, n, h, b, a);
      if b == f {
        FlowOn(h.heard[a][b], n.channels[(b, a)], h.said[b], rank[b], ms);
      }
    }
  }

  lemma VouchedRank(rank: map<nat, nat>, f: nat, c: Coord)
    requires Vouched(rank, f, c)
    ensures f in rank && (rank[f] == 0 ==> Firm(c))
  {
  }

  lemma SayingHonest(c: Coord, phase: Phase, rank: nat, heard: map<nat, Time>, said: Time, ms: seq<Message>)
    requires Honest(c, phase, rank, heard, said)
    requires forall m :: m in ms ==> Honest(c, phase, rank, heard, Claim(rank, m))
    ensures Honest(c, phase, rank, heard, Saying(said, rank, ms))
  {
    hide Honest, Claim;
  }

  /** A federate of rank 1 does not iterate. */
  predicate Calm(rank: map<nat, nat>, action: Action) {
    action.AskFor? && action.iterate && action.fed in rank ==> rank[action.fed] != 1
  }

  lemma AskKeeps(rank: map<nat, nat>, n: Network, h: History, f: nat, i: Input) returns (h': History)
    requires Invariant(rank, n, h) && f in n.feds && f in n.phase && !n.phase[f].Waits? && n.feds[f].granted < MAX
    requires i.Ask? && (i.iterate && f in rank ==> rank[f] != 1)
    ensures Invariant(rank, Fed(n, f, i).(phase := n.phase[f := Waits]), h')
  {
    assert FedOk(rank, n, h, f);
    h' := Said(rank, n, h, f, i);
    if Vouched(rank, f, n.feds[f]) {
      AskHonest(n.feds[f], n.phase[f], rank[f], i, h.heard[f], h.said[f]);
    }
    hide Step, Sound, Invariant, Source, Honest, Knows, Vouched;
    FedKeeps(rank, n, h, f, i, Waits);
  }

  lemma LookKeeps(rank: map<nat, nat>, n: Network, h: History, f: nat) returns (h': History)
    requires Invariant(rank, n, h) && f in n.feds && f in n.phase && n.phase[f].Waits?
    ensures Invariant(rank, TryGrant(n, f), h')
  {
    assert FedOk(rank, n, h, f);
    h' := Said(rank, n, h, f, Look);
    if Vouched(rank, f, n.feds[f]) {
      LookHonest(n.feds[f], rank[f], h.heard[f], h.said[f]);
    }
    hide Step, Sound, Invariant, Answered, Source, Honest, Knows, Vouched;
    FedKeeps(rank, n, h, f, Look, if Answered(n.feds[f]) then Acts else Waits);
  }

  lemma PublishKeeps(rank: map<nat, nat>, n: Network, h: History, f: nat)
    requires Invariant(rank, n, h) && f in n.feds && f in n.phase && n.phase[f].Acts?
    ensures var t := n.feds[f].granted + n.feds[f].info.outputDelay;
      Invariant(rank, n.(channels := Sent(n.channels, f, [Data(t)])), h)
  {
    hide FedOk, Flow, Has, Vouched;
    var t := n.feds[f].granted + n.feds[f].info.outputDelay;
    var n' := n.(channels := Sent(n.channels, f, [Data(t)]));
    if Vouched(rank, f, n.feds[f]) {
      NothingOlder(rank, n, h, f);
    }
    SameFeds(rank, n, n', h);
    forall b, a | (b, a) in n'.channels
      ensures EdgeOk(rank, n', h, b, a)
    {
      assert EdgeOk(rank, n, h, b, a);
      if b == f {
        assert b in rank by { VouchedRank(rank, b, n.feds[b]); }
        FlowData(h.heard[a][b], n.channels[(b, a)], h.said[b], rank[b], t);
      }
    }
  }

  /** A vouched federate publishes no data older than it has claimed. */
  lemma NothingOlder(rank: map<nat, nat>, n: Network, h: History, f: nat)
    requires f in n.feds && FedOk(rank, n, h, f) && n.phase[f].Acts? && Vouched(rank, f, n.feds[f])
    ensures Upto(h.said[f], n.feds[f].granted + n.feds[f].info.outputDelay)
  {
    hide Knows, Source, Vouched;
  }

  /** What is under way does not matter to the federates. */
  lemma SameFeds(rank: map<nat, nat>, n: Network, n': Network, h: History)
    requires Invariant(rank, n, h) && n'.feds == n.feds && n'.phase == n.phase
    ensures forall f :: f in n.feds ==> FedOk(rank, n', h, f)
  {
    hide Sound, Knows, Source, Honest, Vouched;
    forall f | f in n.feds
      ensures FedOk(rank, n', h, f)
    {
      assert FedOk(rank, n, h, f);
    }
  }

  /** The phase of a federate that takes a packet. */
  function Taking(phase: Phase): Phase { if phase.Waits? then Waits else Calls }

  lemma TakingHonest(c: Coord, phase: Phase, rank: nat, heard: map<nat, Time>, t: Time)
    requires Source(c, phase, rank, heard) && Honest(c, phase, rank, heard, t)
    ensures Source(c, Taking(phase), rank, heard) && Honest(c, Taking(phase), rank, heard, t)
  {
    if phase.Acts? {
      CallHonest(c, rank, heard, t);
      CallHonest(c, rank, heard, c.next);
    }
  }

  lemma CallKeeps(rank: map<nat, nat>, n: Network, h: History, a: nat)
    requires Invariant(rank, n, h) && a in n.feds && a in n.phase
    ensures Invariant(rank, n.(phase := n.phase[a := Taking(n.phase[a])]), h)
  {
    var n' := n.(phase := n.phase[a := Taking(n.phase[a])]);
    assert FedOk(rank, n, h, a);
    if Vouched(rank, a, n.feds[a]) {
      TakingHonest(n.feds[a], n.phase[a], rank[a], h.heard[a], h.said[a]);
    }
    hide Sound, Knows, Source, Honest, Vouched, Flow, Has;
    forall g | g in n'.feds
      ensures FedOk(rank, n', h, g)
    {
      assert FedOk(rank, n, h, g);
    }
    forall x, y | (x, y) in n'.channels
      ensures EdgeOk(rank, n', h, x, y)
    {
      assert EdgeOk(rank, n, h, x, y);
    }
  }

  /** Data that is taken off an edge. */
  function Without(n: Network, b: nat, a: nat): Network
    requires (b, a) in n.channels && n.channels[(b, a)] != []
  {
    n.(channels := n.channels[(b, a) := n.channels[(b, a)][1..]])
  }

  lemma WithoutKeeps(rank: map<nat, nat>, n: Network, h: History, b: nat, a: nat)
    requires Invariant(rank, n, h) && (b, a) in n.channels && n.channels[(b, a)] != [] && n.channels[(b, a)][0].Data?
    ensures Invariant(rank, Without(n, b, a), h)
  {
    var n' := Without(n, b, a);
    SameFeds(rank, n, n', h);
    hide FedOk, Has, Vouched;
    forall x, y | (x, y) in n'.channels
      ensures EdgeOk(rank, n', h, x, y)
    {
      assert EdgeOk(rank, n, h, x, y);
    }
  }

  lemma DataKeeps(rank: map<nat, nat>, n: Network, h: History, b: nat, a: nat) returns (h': History)
    requires Invariant(rank, n, h) && (b, a) in n.channels && n.channels[(b, a)] != [] && n.channels[(b, a)][0].Data?
    requires a in n.phase && !n.phase[a].Acts?
    ensures a in n.feds && Invariant(rank, Fed(Without(n, b, a), a, Value(n.channels[(b, a)][0].time)), h')
  {
    hide Step, Sound, Source, Honest, Knows, Vouched;
    var n1, t := Without(n, b, a), n.channels[(b, a)][0].time;
    assert EdgeOk(rank, n, h, b, a) && Upto(h.heard[a][b], t);
    WithoutKeeps(rank, n, h, b, a);
    assert FedOk(rank, n1, h, a);
    h' := Said(rank, n1, h, a, Value(t));
    if Vouched(rank, a, n1.feds[a]) {
      VouchedRank(rank, a, n1.feds[a]);
      var i :| 0 <= i < |n1.feds[a].deps| && n1.feds[a].deps[i].fed == b;
      DataHonest(n1.feds[a], n.phase[a], rank[a], i, t, h.heard[a], h.said[a]);
    }
    hide Invariant;
    FedKeeps(rank, n1, h, a, Value(t), n.phase[a]);
    assert n1.phase[a := n.phase[a]] == n1.phase;
    assert Fed(n1, a, Value(t)).(phase := n1.phase) == Fed(n1, a, Value(t));
  }

  lemma TimingKeeps(rank: map<nat, nat>, n: Network, h: History, b: nat, a: nat) returns (h': History)
    requires Invariant(rank, n, h) && (b, a) in n.channels && n.channels[(b, a)] != [] && n.channels[(b, a)][0].Timing?
    requires a in n.phase && !n.phase[a].Acts?
    ensures a in n.feds && Invariant(rank, Fed(Without(n, b, a), a, Hear(b, n.channels[(b, a)][0].m)), h')
  {
    hide Step, FedOk, Has, Vouched, Claim;
    var n1, m := Without(n, b, a), n.channels[(b, a)][0].m;
    var n' := Fed(n1, a, Hear(b, m));
    assert EdgeOk(rank, n, h, b, a);
    VouchedRank(rank, b, n.feds[b]);
    h' := h.(heard := h.heard[a := Hearing(h.heard[a], b, Claim(rank[b], m))]);
    HeardFeds(rank, n, h, b, a);
    SameVouched(rank, a, n.feds[a], Hear(b, m));
    SentNothing(n1.channels, a);
    assert n'.channels == n1.channels by { HeardFed(rank, n, h, b, a, m); }
    forall x, y | (x, y) in n'.channels
      ensures EdgeOk(rank, n', h', x, y)
    {
      assert EdgeOk(rank, n, h, x, y);
      SameVouched(rank, x, n.feds[x], Hear(b, m));
      SameVouched(rank, y, n.feds[y], Hear(b, m));
    }
  }

  lemma HeardFeds(rank: map<nat, nat>, n: Network, h: History, b: nat, a: nat)
    requires Invariant(rank, n, h) && (b, a) in n.channels && n.channels[(b, a)] != [] && n.channels[(b, a)][0].Timing?
    requires EdgeOk(rank, n, h, b, a) && a in n.phase && !n.phase[a].Acts?
    ensures var m := n.channels[(b, a)][0].m;
      var h' := h.(heard := h.heard[a := Hearing(h.heard[a], b, Claim(rank[b], m))]);
      forall g :: g in n.feds ==> FedOk(rank, Fed(Without(n, b, a), a, Hear(b, m)), h', g)
  {
    var n1, m := Without(n, b, a), n.channels[(b, a)][0].m;
    var n' := Fed(n1, a, Hear(b, m));
    var h' := h.(heard := h.heard[a := Hearing(h.heard[a], b, Claim(rank[b], m))]);
    HeardFed(rank, n, h, b, a, m);
    SameVouched(rank, a, n.feds[a], Hear(b, m));
    hide Step, Sound, Knows, Source, Honest, Has, Vouched, Claim, Flow;
    forall g | g in n.feds
      ensures FedOk(rank, n', h', g)
    {
      assert FedOk(rank, n, h, g);
    }
  }

  lemma SentNothing(channels: map<(nat, nat), seq<Packet>>, fed: nat)
    ensures Sent(channels, fed, Packets([])) == channels
  {
    assert Packets([]) == [] && forall e :: e in channels ==> channels[e] + [] == channels[e];
  }

  /** The federate that hears a timing message. */
  lemma HeardFed(rank: map<nat, nat>, n: Network, h: History, b: nat, a: nat, m: Message)
    requires Invariant(rank, n, h) && (b, a) in n.channels && EdgeOk(rank, n, h, b, a) && Timely(m)
    requires a in n.phase && !n.phase[a].Acts?
    ensures Step(n.feds[a], Hear(b, m)).1 == []
    ensures var c := Step(n.feds[a], Hear(b, m)).0;
      var heard := Hearing(h.heard[a], b, Claim(rank[b], m));
      && Sound(c) && Knows(c, heard)
      && (Vouched(rank, a, n.feds[a]) ==>
        Source(c, n.phase[a], rank[a], heard) && Honest(c, n.phase[a], rank[a], heard, h.said[a]))
  {
    var c := n.feds[a];
    assert FedOk(rank, n, h, a);
    StepKeeps(c, Hear(b, m));
    HearKnows(c, b, m, rank[b], h.heard[a]);
    if Vouched(rank, a, c) {
      var i :| 0 <= i < |c.deps| && c.deps[i].fed == b;
      HearHonest(c, n.phase[a], rank[a], b, m, rank[b], h.heard[a], h.said[a]);
    }
  }

  // ---------- every run

  lemma ApplyKeeps(rank: map<nat, nat>, n: Network, h: History, action: Action) returns (h': History)
    requires Invariant(rank, n, h) && Enabled(n, action) && Calm(rank, action)
    ensures Invariant(rank, Apply(n, action), h')
  {
    hide Step, Invariant, Answered, PutOff;
    match action
    case AskFor(f, time, iterate, newValue, newMessage) =>
      h' := AskKeeps(rank, n, h, f, Ask(time, iterate, newValue, newMessage));
      h' := LookKeeps(rank, Fed(n, f, Ask(time, iterate, newValue, newMessage)).(phase := n.phase[f := Waits]), h', f);
      assert n.phase[f := Waits][f := Acts] == n.phase[f := Acts];
      assert n.phase[f := Waits][f := Waits] == n.phase[f := Waits];
    case Publish(f) =>
      h' := h;
      PublishKeeps(rank, n, h, f);
    case Deliver(b, a) =>
      h' := DeliverKeeps(rank, n, h, b, a);
  }

  lemma DeliverKeeps(rank: map<nat, nat>, n: Network, h: History, b: nat, a: nat) returns (h': History)
    requires Invariant(rank, n, h) && Enabled(n, Deliver(b, a))
    ensures Invariant(rank, Apply(n, Deliver(b, a)), h')
  {
    hide Step, Invariant, Answered, PutOff;
    var called := n.(phase := n.phase[a := Taking(n.phase[a])]);
    CallKeeps(rank, n, h, a);
    assert Without(called, b, a) == Taken(n, b, a);
    if n.channels[(b, a)][0].Data? {
      h' := DataKeeps(rank, called, h, b, a);
    } else {
      h' := TimingKeeps(rank, called, h, b, a);
      if n.phase[a].Waits? {
        h' := LookKeeps(rank, Fed(Taken(n, b, a), a, Hear(b, n.channels[(b, a)][0].m)), h', a);
      }
    }
  }

  lemma {:induction false} ExecuteKeeps(rank: map<nat, nat>, n: Network, h: History, actions: seq<Action>)
    returns (h': History)
    requires Invariant(rank, n, h) && forall k :: 0 <= k < |actions| ==> Calm(rank, actions[k])
    ensures Invariant(rank, Execute(n, actions), h')
    decreases |actions|
  {
    hide Invariant, Enabled, Apply;
    h' := h;
    if actions != [] && Enabled(n, actions[0]) {
      h' := ApplyKeeps(rank, n, h, actions[0]);
      h' := ExecuteKeeps(rank, Apply(n, actions[0]), h', actions[1..]);
    }
  }

  /** Federates that have just entered execution mode and know so of each other, with a
      channel for every dependency. */
  ghost predicate Entering(n: Network) {
    && (forall f :: f in n.feds ==> f in n.phase && n.phase[f].Acts?)
    && (forall f :: f in n.feds ==>
      var c := n.feds[f]; c.info.Ok() && c == Entered(c.info, c.deps, c.hasDependents))
    && (forall f, i :: f in n.feds && 0 <= i < |n.feds[f].deps| ==>
      n.feds[f].deps[i].next <= 0 && (n.feds[f].deps[i].fed, f) in n.channels)
    && (forall b, a :: (b, a) in n.channels ==>
      b in n.feds && a in n.feds && Has(n.feds[a].deps, b) && n.channels[(b, a)] == [])
  }

  /** The ranks of all federates that others depend on. */
  ghost predicate Ranked(rank: map<nat, nat>, n: Network) {
    forall b, a :: (b, a) in n.channels ==> b in n.feds && Vouched(rank, b, n.feds[b])
  }

  lemma InitialIsSafe(rank: map<nat, nat>, n: Network) returns (h: History)
    requires Entering(n) && Ranked(rank, n)
    ensures Invariant(rank, n, h)
  {
    hide Source, Honest, Knows, Sound, Vouched;
    h := Silence(n);
    forall f | f in n.feds
      ensures FedOk(rank, n, h, f)
    {
      EnteredKnows(n.feds[f], h.heard[f]);
      if Vouched(rank, f, n.feds[f]) {
        VouchedRank(rank, f, n.feds[f]);
        EnteredSource(n.feds[f], rank[f], h.heard[f]);
      }
    }
    forall b, a | (b, a) in n.channels
      ensures EdgeOk(rank, n, h, b, a)
    {
      var k :| 0 <= k < |n.feds[a].deps| && n.feds[a].deps[k].fed == b;
      assert n.feds[a].deps[k] in n.feds[a].deps;
    }
  }

  /** Nothing was said before the start. */
  function Silence(n: Network): History {
    History(map f | f in n.feds :: 0, map f | f in n.feds :: map d: Dependency | d in n.feds[f].deps :: d.fed := 0)
  }

  lemma EnteredKnows(c: Coord, heard: map<nat, Time>)
    requires c.info.Ok() && c == Entered(c.info, c.deps, c.hasDependents)
    requires forall i :: 0 <= i < |c.deps| ==> c.deps[i].next <= 0
    requires forall i :: 0 <= i < |c.deps| ==> c.deps[i].fed in heard && heard[c.deps[i].fed] == 0
    ensures Sound(c) && Knows(c, heard)
  {
  }

  lemma EnteredSource(c: Coord, rank: nat, heard: map<nat, Time>)
    requires Sound(c) && c == Entered(c.info, c.deps, c.hasDependents)
    requires rank == 0 ==> Firm(c)
    ensures Source(c, Acts, rank, heard) && Honest(c, Acts, rank, heard, 0)
  {
  }

  /** Data on its way to a federate can still be noticed: it is not older than the time that
      was granted, once it was delayed as the federate asks. */
  ghost predicate InTime(n: Network, b: nat, a: nat)
    requires a in n.feds && (b, a) in n.channels
  {
    forall t :: Data(t) in n.channels[(b, a)] ==> n.feds[a].granted <= t + n.feds[a].info.inputDelay || t >= MAX
  }

  /** The time at which a federate acts now, can act after its next request, or would act next. */
  function ActsAt(n: Network, f: nat): Time
    requires f in n.feds && f in n.phase
  {
    match n.phase[f]
    case Acts => n.feds[f].granted
    case Calls => Again(n.feds[f])
    case Waits => n.feds[f].exec
  }

  /** In every run of every network with such ranks in which federates of rank 1 do not iterate,
      no federate is granted a time beyond that of the data which a federate it depends on can
      send, and all data under way arrives in time. */
  lemma {:induction false} NoOneRunsAhead(rank: map<nat, nat>, n: Network, actions: seq<Action>, b: nat, a: nat)
    requires Entering(n) && Ranked(rank, n) && forall k :: 0 <= k < |actions| ==> Calm(rank, actions[k])
    requires (b, a) in Execute(n, actions).channels
    ensures var m := Execute(n, actions);
      && b in m.feds && a in m.feds && b in m.phase && InTime(m, b, a)
      && (m.feds[a].granted <= ActsAt(m, b) + m.feds[b].info.outputDelay + m.feds[a].info.inputDelay
        || ActsAt(m, b) + m.feds[b].info.outputDelay >= MAX)
  {
    var h := InitialIsSafe(rank, n);
    h := ExecuteKeeps(rank, n, h, actions);
    var m := Execute(n, actions);
    hide Execute, Source;
    assert EdgeOk(rank, m, h, b, a) && FedOk(rank, m, h, a) && FedOk(rank, m, h, b);
    FlowBound(h.heard[a][b], m.channels[(b, a)], h.said[b], rank[b]);
    var i :| 0 <= i < |m.feds[a].deps| && m.feds[a].deps[i].fed == b;
    assert Knows(m.feds[a], h.heard[a]);
    AgainIsLater(m.feds[b]);
  }
}
