/** Networks without cycles: federates can always go on. */
module TimeAcyclic {
  import opened TimeDependencies
  import opened TimeCoordinator
  import opened TimeGrants
  import opened TimePromises
  import opened TimeNetwork
  import opened TimeRuns
  import opened TimePipeline
  import opened TimeProgress

  // ---------- what is under way

  predicate Ordinary(m: Message) { m.Request? || (m.Grant? && m.time < MAX) || m.Disconnect? }

  /** Data comes only while its sender is known to act. */
  ghost predicate Flows(d: Dependency, ps: seq<Packet>)
    decreases |ps|
  {
    ps == [] || (if ps[0].Data? then Acting(d) && Flows(d, ps[1..])
                 else Ordinary(ps[0].m) && Flows(Process(d, ps[0].m).0, ps[1..]))
  }

  /** What a federate has sent to one that knows d of it. */
  ghost predicate Sends(c: Coord, phase: Phase, d: Dependency, ps: seq<Packet>) {
    && Flows(d, ps) && (phase.Acts? && c.granted < MAX ==> Acting(End(d, ps)))
    && (c.granted == MAX ==> End(d, ps).next == MAX)
  }

  lemma {:induction false} FlowsOn(d: Dependency, ps: seq<Packet>, p: Packet)
    requires Flows(d, ps) && (if p.Data? then Acting(End(d, ps)) else Ordinary(p.m))
    ensures Flows(d, ps + [p])
    ensures End(d, ps + [p]) == if p.Timing? then Process(End(d, ps), p.m).0 else End(d, ps)
    decreases |ps|
  {
    if ps == [] {
      assert ps + [p] == [p] && [p][1..] == [];
    } else {
      assert (ps + [p])[1..] == ps[1..] + [p];
      FlowsOn(if ps[0].Timing? then Process(d, ps[0].m).0 else d, ps[1..], p);
    }
  }

  /** What only matters until the sender is heard of again. */
  predicate Alike(d: Dependency, e: Dependency) {
    && d.fed == e.fed && d.next == e.next && d.forward == e.forward == MAX
    && (d.state == e.state || (d.state != TimeGranted && e.state == TimeGranted && e.next < MAX))
  }

  lemma {:induction false} FlowsAlike(d: Dependency, e: Dependency, ps: seq<Packet>)
    requires Flows(d, ps) && Alike(d, e)
    ensures Flows(e, ps) && End(e, ps).next == End(d, ps).next && (Acting(End(d, ps)) ==> Acting(End(e, ps)))
    decreases |ps|
  {
    if ps != [] {
      if ps[0].Data? {
        FlowsAlike(d, e, ps[1..]);
      } else {
        assert Process(e, ps[0].m).0 == Process(d, ps[0].m).0;
      }
    }
  }

  lemma SendsAlike(c: Coord, phase: Phase, d: Dependency, e: Dependency, ps: seq<Packet>)
    requires Sends(c, phase, d, ps) && Alike(d, e)
    ensures Sends(c, phase, e, ps)
  {
    FlowsAlike(d, e, ps);
  }

  // ---------- one federate

  /** A look tells the federate to wait. */
  predicate ToldToWait(c: Coord) { c.exec == ExecTime(c) && CheckGrant(c).2.Continue? }

  ghost predicate Keeps(c: Coord, phase: Phase) {
    && c.info.Ok() && c.block == MAX && c.granted <= MAX
    && (forall i :: 0 <= i < |c.deps| ==> c.deps[i].forward == MAX)
    && (phase.Waits? ==> c.granted < MAX && (ToldToWait(c) || exists i :: 0 <= i < |c.deps| && Acting(c.deps[i])))
  }

  lemma FactorsKeep(c: Coord)
    ensures var c' := UpdateFactors(c).0;
      && c' == c.(minminDe := c'.minminDe, next := c'.next, minDe := c'.minDe, allow := c'.allow, exec := ExecTime(c))
      && UpdateFactors(c').0.exec == c'.exec && UpdateFactors(c').0.allow == c'.allow
  {
    hide NextPossibleTime, AllowedTime, FactorsOf;
  }

  lemma LookAgain(c: Coord)
    requires CheckGrant(c).2.Continue?
    ensures ToldToWait(CheckGrant(c).0)
  {
    hide UpdateFactors, ReadyForGrant, RequestOf;
    FactorsKeep(c);
    var c1 := UpdateFactors(c).0;
    FactorsKeep(c1);
  }

  /** All entries of the table are alike. */
  ghost predicate Similar(ds: seq<Dependency>, es: seq<Dependency>) {
    |ds| == |es| && forall i :: 0 <= i < |ds| ==> Alike(ds[i], es[i])
  }

  /** What a federate sends when it moves on: its last word is what it does. */
  ghost predicate Goes(c: Coord, c': Coord, phase: Phase, ms: seq<Message>) {
    && c'.hasDependents == c.hasDependents && (forall k :: 0 <= k < |ms| ==> Ordinary(ms[k]))
    && (c.hasDependents && phase.Acts? && c'.granted < MAX ==> ms != [] && ms[|ms| - 1].Grant?)
    && (c.hasDependents && c'.granted == MAX ==> if ms == [] then c.granted == MAX else ms[|ms| - 1].Disconnect?)
  }

  ghost predicate Base(c: Coord) {
    && c.info.Ok() && c.block == MAX && c.granted < MAX
    && forall i :: 0 <= i < |c.deps| ==> c.deps[i].forward == MAX
  }

  lemma LookGoes(c: Coord)
    requires Base(c)
    ensures var (c', ms, v) := CheckGrant(c);
      var phase := if v.Continue? then Waits else Acts;
      Keeps(c', phase) && Goes(c, c', phase, ms) && Similar(c.deps, c'.deps)
  {
    hide UpdateFactors, ReadyForGrant;
    FactorsKeep(c);
    if CheckGrant(c).2.Continue? {
      LookAgain(c);
    }
  }

  lemma AskGoes(c: Coord, i: Input)
    requires Base(c) && i.Ask?
    ensures var (c', ms) := Step(c, i);
      Base(c') && Similar(c.deps, c'.deps) && c'.hasDependents == c.hasDependents && c'.granted == c.granted
      && (ms == [] || (|ms| == 1 && ms[0].Request?))
  {
    hide UpdateFactors, NextPossibleTime;
    var asked := Asked(c, i.time, i.iterate, i.newValue, i.newMessage).(deps := EventsReset(c.granted, c.deps));
    FactorsKeep(asked);
  }

  /** A request and the look after it. */
  lemma AskTurn(c: Coord, i: Input)
    requires Base(c) && i.Ask?
    ensures var (c', ms, answered) := Turn(c, i);
      var phase := if answered then Acts else Waits;
      Keeps(c', phase) && Goes(c, c', phase, ms) && Similar(c.deps, c'.deps)
  {
    AskGoes(c, i);
    var (c1, m1) := Step(c, i);
    hide Step, Base, Keeps, Alike;
    LookGoes(c1);
    LookStep(c1);
    TurnIs(c, i);
  }

  lemma LookStep(c: Coord)
    requires Base(c)
    ensures Step(c, Look) == (CheckGrant(c).0, CheckGrant(c).1) && (Answered(c) <==> !CheckGrant(c).2.Continue?)
  {
  }

  lemma HearGoes(c: Coord, fed: nat, m: Message)
    requires Base(c) && Ordinary(m)
    ensures var (c', ms) := Step(c, Hear(fed, m));
      && Base(c') && ms == [] && c' == c.(deps := c'.deps) && |c'.deps| == |c.deps|
      && forall i :: 0 <= i < |c.deps| ==>
        c'.deps[i] == if c.deps[i].fed == fed then Process(c.deps[i], m).0 else c.deps[i]
  {
  }

  lemma DataGoes(c: Coord, t: Time)
    requires Base(c)
    ensures var (c', ms) := Step(c, Value(t));
      && Base(c') && c'.deps == c.deps && c'.hasDependents == c.hasDependents && c'.granted == c.granted
      && forall k :: 0 <= k < |ms| ==> Ordinary(ms[k])
  {
    hide NextPossibleTime, ExecTime;
  }

  // ---------- the packets of one federate

  lemma {:induction false} SendsAll(c: Coord, c': Coord, phase: Phase, p': Phase, ms: seq<Message>, d: Dependency,
                                    ps: seq<Packet>)
    requires Sends(c, phase, d, ps) && Goes(c, c', p', ms) && c.hasDependents
    ensures Sends(c', p', d, ps + Packets(ms))
  {
    FlowsAll(d, ps, ms);
    assert ms == [] ==> ps + Packets(ms) == ps;
  }

  lemma {:induction false} FlowsAll(d: Dependency, ps: seq<Packet>, ms: seq<Message>)
    requires Flows(d, ps) && forall k :: 0 <= k < |ms| ==> Ordinary(ms[k])
    ensures Flows(d, ps + Packets(ms))
    ensures ms == [] ==> End(d, ps + Packets(ms)) == End(d, ps)
    ensures ms != [] && ms[|ms| - 1].Grant? ==> Acting(End(d, ps + Packets(ms)))
    ensures ms != [] && ms[|ms| - 1].Disconnect? ==> End(d, ps + Packets(ms)).next == MAX
    decreases |ms|
  {
    hide Flows, End;
    OnePacket(Disconnect);
    if ms == [] {
      assert ps + [] == ps;
    } else {
      var all := ps + [Timing(ms[0])];
      FlowsOn(d, ps, Timing(ms[0]));
      FlowsAll(d, all, ms[1..]);
      FirstPacket(ps, ms);
    }
  }

  lemma FirstPacket(ps: seq<Packet>, ms: seq<Message>)
    requires ms != []
    ensures ps + Packets(ms) == ps + [Timing(ms[0])] + Packets(ms[1..])
  {
  }

  // ---------- the network

  ghost predicate EdgeGoes(n: Network, rank: map<nat, nat>, b: nat, a: nat)
    requires (b, a) in n.channels
  {
    && b in n.feds && a in n.feds && b in n.phase && b in rank && a in rank && rank[b] < rank[a]
    && n.feds[b].hasDependents && Has(n.feds[a].deps, b)
    && (n.feds[a].granted < MAX ==> Inbound(n, b, n.feds[a], n.channels[(b, a)]))
  }

  /** What federate b has sent to one with the given table. */
  ghost predicate Inbound(n: Network, b: nat, c: Coord, ps: seq<Packet>)
    requires b in n.feds && b in n.phase
  {
    forall i :: 0 <= i < |c.deps| && c.deps[i].fed == b ==> Sends(n.feds[b], n.phase[b], c.deps[i], ps)
  }

  ghost predicate FedGoes(n: Network, f: nat)
    requires f in n.feds
  {
    && f in n.phase && Keeps(n.feds[f], n.phase[f]) && Ordered(n.feds[f].deps)
    && forall i :: 0 <= i < |n.feds[f].deps| ==> (n.feds[f].deps[i].fed, f) in n.channels
  }

  ghost predicate Going(n: Network, rank: map<nat, nat>) {
    && n.phase.Keys == n.feds.Keys && (forall f :: f in n.feds ==> FedGoes(n, f))
    && forall b, a :: (b, a) in n.channels ==> EdgeGoes(n, rank, b, a)
  }

  /** All but one federate and what is under way to it. */
  ghost predicate OthersGo(n: Network, rank: map<nat, nat>, f: nat) {
    && n.phase.Keys == n.feds.Keys && f in n.feds && (forall g :: g in n.feds && g != f ==> FedGoes(n, g))
    && (forall b, a :: (b, a) in n.channels && a != f ==> EdgeGoes(n, rank, b, a))
    && (forall b :: (b, f) in n.channels ==>
      b in n.feds && b in n.phase && b in rank && f in rank && rank[b] < rank[f] && n.feds[b].hasDependents
      && Has(n.feds[f].deps, b))
  }

  predicate SameFeds(ds: seq<Dependency>, es: seq<Dependency>) {
    |ds| == |es| && forall i :: 0 <= i < |ds| ==> ds[i].fed == es[i].fed
  }

  lemma SameHas(ds: seq<Dependency>, es: seq<Dependency>, fed: nat)
    requires SameFeds(ds, es) && Has(ds, fed)
    ensures Has(es, fed)
  {
    var i :| 0 <= i < |ds| && ds[i].fed == fed;
    assert es[i].fed == fed;
  }

  lemma EdgeLands(l: Network, rank: map<nat, nat>, f: nat, c: Coord, p: Phase, ms: seq<Message>, m: Network, b: nat,
                  a: nat)
    requires OthersGo(l, rank, f) && Moves(l, f, c, p, ms, m) && Goes(l.feds[f], c, p, ms) && (b, a) in l.channels
    requires SameFeds(l.feds[f].deps, c.deps)
    requires a == f && c.granted < MAX ==> Inbound(l, b, c, l.channels[(b, f)])
    ensures EdgeGoes(m, rank, b, a)
  {
    hide Sends, Packets, Has, FedGoes, SameFeds, Inbound;
    if a != f {
      assert EdgeGoes(l, rank, b, a);
      if b == f {
        if l.feds[a].granted < MAX {
          SpeakerMoves(l, f, c, p, ms, a, m);
        }
      } else {
        SameInbound(l, m, b);
      }
    } else {
      assert rank[b] < rank[f];
      SameHas(l.feds[f].deps, c.deps, b);
      SameInbound(l, m, b);
    }
  }

  lemma SameInbound(l: Network, m: Network, b: nat)
    requires b in l.feds && b in l.phase && b in m.feds && b in m.phase
    requires m.feds[b] == l.feds[b] && m.phase[b] == l.phase[b]
    ensures forall c, ps :: Inbound(m, b, c, ps) <==> Inbound(l, b, c, ps)
  {
  }

  lemma Lands(l: Network, rank: map<nat, nat>, f: nat, c: Coord, p: Phase, ms: seq<Message>, m: Network)
    requires OthersGo(l, rank, f) && Moves(l, f, c, p, ms, m) && Keeps(c, p) && Goes(l.feds[f], c, p, ms)
    requires Ordered(l.feds[f].deps) && SameFeds(l.feds[f].deps, c.deps)
    requires forall i :: 0 <= i < |c.deps| ==> (c.deps[i].fed, f) in l.channels
    requires c.granted < MAX ==> forall b :: (b, f) in l.channels ==> Inbound(l, b, c, l.channels[(b, f)])
    ensures Going(m, rank)
  {
    hide Keeps, Goes, Packets, EdgeGoes, Inbound;
    forall g | g in m.feds
      ensures FedGoes(m, g)
    {
      assert g != f ==> FedGoes(l, g);
    }
    hide FedGoes, OthersGo;
    forall b, a | (b, a) in m.channels
      ensures EdgeGoes(m, rank, b, a)
    {
      EdgeLands(l, rank, f, c, p, ms, m, b, a);
    }
  }

  lemma SpeakerMoves(l: Network, f: nat, c: Coord, p: Phase, ms: seq<Message>, a: nat, m: Network)
    requires f in l.feds && f in l.phase && a in l.feds && a != f && (f, a) in l.channels && l.feds[f].hasDependents
    requires Moves(l, f, c, p, ms, m) && Goes(l.feds[f], c, p, ms) && Inbound(l, f, l.feds[a], l.channels[(f, a)])
    ensures Inbound(m, f, m.feds[a], m.channels[(f, a)])
  {
    hide Goes, Sends, Packets;
    forall i | 0 <= i < |l.feds[a].deps| && l.feds[a].deps[i].fed == f
      ensures Sends(c, p, l.feds[a].deps[i], l.channels[(f, a)] + Packets(ms))
    {
      SendsAll(l.feds[f], c, l.phase[f], p, ms, l.feds[a].deps[i], l.channels[(f, a)]);
    }
  }

  lemma AllGo(n: Network, rank: map<nat, nat>, f: nat)
    requires Going(n, rank) && f in n.feds
    ensures OthersGo(n, rank, f) && FedGoes(n, f)
    ensures forall b :: (b, f) in n.channels ==> EdgeGoes(n, rank, b, f)
  {
    hide Keeps, Sends;
    forall b | (b, f) in n.channels
      ensures EdgeGoes(n, rank, b, f)
    {
    }
  }

  /** What is under way does not change when a table does, but for what is heard of again. */
  lemma InboundSimilar(n: Network, b: nat, c: Coord, c': Coord, ps: seq<Packet>)
    requires b in n.feds && b in n.phase && Inbound(n, b, c, ps) && Similar(c.deps, c'.deps)
    ensures Inbound(n, b, c', ps)
  {
    hide Sends;
    forall i | 0 <= i < |c'.deps| && c'.deps[i].fed == b
      ensures Sends(n.feds[b], n.phase[b], c'.deps[i], ps)
    {
      SendsAlike(n.feds[b], n.phase[b], c.deps[i], c'.deps[i], ps);
    }
  }

  lemma AskGoing(n: Network, rank: map<nat, nat>, f: nat, i: Input, m: Network)
    requires Going(n, rank) && f in n.feds && i.Ask? && n.feds[f].granted < MAX
    requires var (c, ms, answered) := Turn(n.feds[f], i); Moves(n, f, c, if answered then Acts else Waits, ms, m)
    ensures Going(m, rank)
  {
    hide Turn, Moves, Goes, Inbound, OthersGo, ToldToWait, Going;
    AllGo(n, rank, f);
    var (c, ms, answered) := Turn(n.feds[f], i);
    AskTurn(n.feds[f], i);
    hide Keeps;
    forall b | (b, f) in n.channels
      ensures Inbound(n, b, c, n.channels[(b, f)])
    {
      assert EdgeGoes(n, rank, b, f);
      InboundSimilar(n, b, n.feds[f], c, n.channels[(b, f)]);
    }
    Lands(n, rank, f, c, if answered then Acts else Waits, ms, m);
  }

  // ---------- taking a packet

  lemma OffGo(n: Network, rank: map<nat, nat>, b: nat, f: nat)
    requires Going(n, rank) && f in n.feds && (b, f) in n.channels && n.channels[(b, f)] != []
    ensures OthersGo(Off(n, b, f), rank, f)
  {
    hide Keeps, Inbound;
    AllGo(n, rank, f);
    var l := Off(n, b, f);
    forall g | g in l.feds && g != f
      ensures FedGoes(l, g)
    {
      assert FedGoes(n, g);
    }
    forall x, a | (x, a) in l.channels && a != f
      ensures EdgeGoes(l, rank, x, a)
    {
      assert EdgeGoes(n, rank, x, a);
      OffInbound(n, b, f, x, a);
    }
  }

  lemma OffInbound(n: Network, b: nat, f: nat, x: nat, a: nat)
    requires (b, f) in n.channels && n.channels[(b, f)] != [] && x in n.feds && x in n.phase && a in n.feds
    ensures forall c, ps :: Inbound(Off(n, b, f), x, c, ps) <==> Inbound(n, x, c, ps)
  {
  }

  /** The table c' after the first packet was taken from b. */
  ghost predicate Took(c: Coord, c': Coord, b: nat, p: Packet) {
    && |c'.deps| == |c.deps|
    && forall i :: 0 <= i < |c.deps| ==>
      c'.deps[i] == if c.deps[i].fed == b && p.Timing? then Process(c.deps[i], p.m).0 else c.deps[i]
  }

  lemma TookInbound(n: Network, rank: map<nat, nat>, b: nat, f: nat, c: Coord)
    requires Going(n, rank) && f in n.feds && n.feds[f].granted < MAX
    requires (b, f) in n.channels && n.channels[(b, f)] != []
    requires Took(n.feds[f], c, b, n.channels[(b, f)][0])
    ensures var l := Off(n, b, f);
      forall x :: (x, f) in l.channels ==> x in l.feds && x in l.phase && Inbound(l, x, c, l.channels[(x, f)])
  {
    AllGo(n, rank, f);
    var l, was := Off(n, b, f), n.feds[f];
    forall x | (x, f) in l.channels
      ensures x in l.feds && x in l.phase && Inbound(l, x, c, l.channels[(x, f)])
    {
      assert EdgeGoes(n, rank, x, f);
      forall i | 0 <= i < |c.deps| && c.deps[i].fed == x
        ensures Sends(l.feds[x], l.phase[x], c.deps[i], l.channels[(x, f)])
      {
        assert Sends(n.feds[x], n.phase[x], was.deps[i], n.channels[(x, f)]);
      }
    }
  }

  lemma HearTurn(c: Coord, b: nat, p: Packet)
    requires Base(c) && p.Timing? && Ordinary(p.m)
    ensures var c1 := Step(c, Hear(b, p.m)).0;
      var (c', ms, answered) := Turn(c, Hear(b, p.m));
      var phase := if answered then Acts else Waits;
      && Took(c, c1, b, p) && Keeps(c', phase) && Goes(c, c', phase, ms) && Similar(c1.deps, c'.deps)
  {
    HearGoes(c, b, p.m);
    var c1 := Step(c, Hear(b, p.m)).0;
    hide Step, Alike;
    LookGoes(c1);
    LookStep(c1);
    TurnIs(c, Hear(b, p.m));
    var m2 := CheckGrant(c1).1;
    assert [] + m2 == m2;
  }

  lemma HearGoing(n: Network, rank: map<nat, nat>, b: nat, f: nat, m: Network)
    requires Going(n, rank) && f in n.feds && n.phase[f].Waits? && (b, f) in n.channels
    requires n.channels[(b, f)] != [] && n.channels[(b, f)][0].Timing?
    requires var (c, ms, answered) := Turn(n.feds[f], Hear(b, n.channels[(b, f)][0].m));
      Moves(Off(n, b, f), f, c, if answered then Acts else Waits, ms, m)
    ensures Going(m, rank)
  {
    AllGo(n, rank, f);
    var p, l := n.channels[(b, f)][0], Off(n, b, f);
    FirstOrdinary(n, rank, b, f);
    HearTurn(n.feds[f], b, p);
    var c1 := Step(n.feds[f], Hear(b, p.m)).0;
    var (c, ms, answered) := Turn(n.feds[f], Hear(b, p.m));
    OffGo(n, rank, b, f);
    TookInbound(n, rank, b, f, c1);
    hide Turn, Moves, Keeps, Goes, Inbound, OthersGo, Step, Off;
    TookFeds(n, rank, b, f, c1, c);
    forall x | (x, f) in l.channels
      ensures Inbound(l, x, c, l.channels[(x, f)])
    {
      InboundSimilar(l, x, c1, c, l.channels[(x, f)]);
    }
    Lands(l, rank, f, c, if answered then Acts else Waits, ms, m);
  }

  lemma FirstOrdinary(n: Network, rank: map<nat, nat>, b: nat, f: nat)
    requires Going(n, rank) && f in n.feds && n.feds[f].granted < MAX
    requires (b, f) in n.channels && n.channels[(b, f)] != []
    ensures var p := n.channels[(b, f)][0];
      if p.Timing? then Ordinary(p.m) else exists i :: 0 <= i < |n.feds[f].deps| && Acting(n.feds[f].deps[i])
  {
    assert EdgeGoes(n, rank, b, f);
    var i :| 0 <= i < |n.feds[f].deps| && n.feds[f].deps[i].fed == b;
    assert Sends(n.feds[b], n.phase[b], n.feds[f].deps[i], n.channels[(b, f)]);
  }

  lemma TookFeds(n: Network, rank: map<nat, nat>, b: nat, f: nat, c1: Coord, c: Coord)
    requires Going(n, rank) && f in n.feds && (b, f) in n.channels && n.channels[(b, f)] != []
    requires Took(n.feds[f], c1, b, n.channels[(b, f)][0]) && Similar(c1.deps, c.deps)
    ensures var l := Off(n, b, f);
      && f in l.feds && l.feds[f] == n.feds[f] && Ordered(l.feds[f].deps) && SameFeds(l.feds[f].deps, c.deps)
      && forall i :: 0 <= i < |c.deps| ==> (c.deps[i].fed, f) in l.channels
  {
    assert FedGoes(n, f);
    hide Keeps, EdgeGoes;
  }

  lemma TakeKeeps(c: Coord, phase: Phase, b: nat, p: Packet)
    requires Base(c)
    requires if p.Timing? then Ordinary(p.m) && !phase.Waits? else exists i :: 0 <= i < |c.deps| && Acting(c.deps[i])
    ensures var (c', ms) := Step(c, if p.Data? then Value(p.time) else Hear(b, p.m));
      Took(c, c', b, p) && Keeps(c', Taking(phase)) && Goes(c, c', Taking(phase), ms) && Similar(c'.deps, c'.deps)
  {
    if p.Data? {
      DataGoes(c, p.time);
    } else {
      HearGoes(c, b, p.m);
    }
    hide Step;
  }

  lemma HaltedKeeps(c: Coord, i: Input)
    requires Keeps(c, Acts) && c.granted == MAX
    ensures Step(c, i) == (c, []) && Keeps(c, Calls) && Goes(c, c, Calls, [])
  {
  }

  lemma TakeGoing(n: Network, rank: map<nat, nat>, b: nat, f: nat, m: Network)
    requires Going(n, rank) && f in n.feds && (b, f) in n.channels && n.channels[(b, f)] != []
    requires n.channels[(b, f)][0].Timing? ==> !n.phase[f].Waits?
    requires var p := n.channels[(b, f)][0];
      var (c, ms) := Step(n.feds[f], if p.Data? then Value(p.time) else Hear(b, p.m));
      Moves(Off(n, b, f), f, c, Taking(n.phase[f]), ms, m)
    ensures Going(m, rank)
  {
    AllGo(n, rank, f);
    var p, l := n.channels[(b, f)][0], Off(n, b, f);
    var (c, ms) := Step(n.feds[f], if p.Data? then Value(p.time) else Hear(b, p.m));
    OffGo(n, rank, b, f);
    if n.feds[f].granted < MAX {
      FirstOrdinary(n, rank, b, f);
      TakeKeeps(n.feds[f], n.phase[f], b, p);
      TookInbound(n, rank, b, f, c);
      TookFeds(n, rank, b, f, c, c);
    } else {
      HaltedKeeps(n.feds[f], if p.Data? then Value(p.time) else Hear(b, p.m));
    }
    hide Moves, Keeps, Goes, Inbound, OthersGo, Step;
    Lands(l, rank, f, c, Taking(n.phase[f]), ms, m);
  }

  lemma PublishGoing(n: Network, rank: map<nat, nat>, f: nat)
    requires Going(n, rank) && Enabled(n, Publish(f))
    ensures Going(Apply(n, Publish(f)), rank)
  {
    hide Keeps, Sends;
    var m := Apply(n, Publish(f));
    forall g | g in m.feds
      ensures FedGoes(m, g)
    {
      assert FedGoes(n, g);
    }
    forall b, a | (b, a) in m.channels
      ensures EdgeGoes(m, rank, b, a)
    {
      assert EdgeGoes(n, rank, b, a);
      if b == f && n.feds[a].granted < MAX {
        forall i | 0 <= i < |n.feds[a].deps| && n.feds[a].deps[i].fed == f
          ensures Sends(m.feds[f], m.phase[f], m.feds[a].deps[i], m.channels[(f, a)])
        {
          DataSent(n.feds[f], n.feds[a].deps[i], n.channels[(f, a)], n.feds[f].granted + n.feds[f].info.outputDelay);
        }
      }
    }
  }

  lemma DataSent(c: Coord, d: Dependency, ps: seq<Packet>, t: Time)
    requires Sends(c, Acts, d, ps) && c.granted < MAX
    ensures Sends(c, Acts, d, ps + [Data(t)])
  {
    FlowsOn(d, ps, Data(t));
  }

  lemma ApplyGoing(n: Network, rank: map<nat, nat>, action: Action)
    requires Going(n, rank) && Enabled(n, action)
    ensures Going(Apply(n, action), rank)
  {
    match action
    case AskFor(f, time, iterate, newValue, newMessage) =>
      TurnMoves(n, f, Ask(time, iterate, newValue, newMessage));
      hide Turn, Moves, TryGrant, Fed, Going;
      AskGoing(n, rank, f, Ask(time, iterate, newValue, newMessage), Apply(n, action));
    case Publish(f) => PublishGoing(n, rank, f);
    case Deliver(b, a) =>
      if n.phase[a].Waits? && n.channels[(b, a)][0].Timing? {
        HearMoves(n, b, a);
        hide Turn, Moves, Apply, Off, Going;
        HearGoing(n, rank, b, a, Apply(n, action));
      } else {
        TakeMoves(n, b, a);
        hide Moves, Apply, Off, Going, Step;
        TakeGoing(n, rank, b, a, Apply(n, action));
      }
  }

  lemma {:induction false} ExecuteGoing(n: Network, rank: map<nat, nat>, run: seq<Action>)
    requires Going(n, rank)
    ensures Going(Execute(n, run), rank)
    decreases |run|
  {
    hide Going, Apply;
    if run != [] && Enabled(n, run[0]) {
      ApplyGoing(n, rank, run[0]);
      ExecuteGoing(Apply(n, run[0]), rank, run[1..]);
    }
  }

  // ---------- nobody can go on

  /** Nothing is known to keep a federate from executing. */
  predicate Clear(c: Coord) { forall i :: 0 <= i < |c.deps| ==> Past(c.deps[i], c.exec) }

  predicate Past(d: Dependency, t: Time) {
    d.next > t || (d.next == t && d.state != TimeGranted) || d.next == MAX
  }

  lemma {:induction false} LeastNext(f: Factors, ds: seq<Dependency>, t: Time)
    requires f.next >= t && forall i :: 0 <= i < |ds| ==> ds[i].next >= t
    ensures FactorsOf(f, ds).next >= t
    decreases |ds|
  {
    if ds != [] {
      LeastNext(f, ds[..|ds| - 1], t);
    }
  }

  /** A federate that nothing keeps from executing does not wait. */
  lemma ClearIsGranted(c: Coord)
    requires Base(c) && Clear(c) && ToldToWait(c)
    ensures c.exec > MAX
  {
    hide UpdateFactors, ReadyForGrant;
    FactorsKeep(c);
    if c.exec <= MAX {
      AllowOf(c);
    }
  }

  lemma AllowOf(c: Coord)
    requires Base(c) && Clear(c) && c.exec <= MAX
    ensures var allow := UpdateFactors(c).0.allow;
      if c.exec == MAX then allow == MAX else allow > c.exec || (allow == c.exec && ReadyForGrant(c.deps, c.exec))
  {
    var start := Min(c.value, c.message);
    LeastNext(Factors(MAX, start, start), c.deps, c.exec);
    hide NextPossibleTime, AllowedTime;
  }

  lemma DepIsClear(m: Network, rank: map<nat, nat>, f: nat, i: nat)
    requires Going(m, rank) && f in m.feds && m.feds[f].granted < MAX && i < |m.feds[f].deps|
    requires var b := m.feds[f].deps[i].fed; !Enabled(m, Deliver(b, f)) && b in m.feds && m.feds[b].granted == MAX
    ensures !Acting(m.feds[f].deps[i]) && Past(m.feds[f].deps[i], m.feds[f].exec)
  {
    var c, d := m.feds[f], m.feds[f].deps[i];
    assert FedGoes(m, f);
    assert EdgeGoes(m, rank, d.fed, f);
    var ps := m.channels[(d.fed, f)];
    assert Sends(m.feds[d.fed], m.phase[d.fed], d, ps);
    if ps != [] {
      assert ps[0].Timing? && PutOff(c, d.fed, ps[0].m);
      var e :| e in c.deps && e.fed == d.fed && Delays(c, e, ps[0].m);
      SameEntry(c.deps, e, i);
    }
  }

  lemma SameEntry(ds: seq<Dependency>, e: Dependency, i: nat)
    requires Ordered(ds) && e in ds && i < |ds| && e.fed == ds[i].fed
    ensures e == ds[i]
  {
  }

  /** A federate that waits for others that do not wait, when nobody can do anything. */
  lemma FirstMoves(m: Network, rank: map<nat, nat>, f: nat)
    requires Going(m, rank) && f in m.feds && m.phase[f].Waits? && forall action: Action :: !Enabled(m, action)
    requires forall i :: 0 <= i < |m.feds[f].deps| ==>
      var b := m.feds[f].deps[i].fed; b in m.phase && !m.phase[b].Waits?
    ensures m.feds[f].exec == ExecTime(m.feds[f]) > MAX
  {
    var c := m.feds[f];
    assert FedGoes(m, f);
    forall i | 0 <= i < |c.deps|
      ensures !Acting(c.deps[i])
      ensures Past(c.deps[i], c.exec)
    {
      var b := c.deps[i].fed;
      assert FedGoes(m, b);
      assert !Enabled(m, AskFor(b, 0, false, MAX, MAX)) && !Enabled(m, Deliver(b, f));
      DepIsClear(m, rank, f, i);
    }
    hide EdgeGoes, Going;
    ClearIsGranted(c);
  }

  function RankOf(rank: map<nat, nat>, f: nat): nat { if f in rank then rank[f] else 0 }

  /** Somebody can go on, unless times go beyond the end of the clock. */
  lemma {:induction false} SomebodyGoes(m: Network, rank: map<nat, nat>, f: nat) returns (g: nat)
    requires Going(m, rank) && f in m.feds && m.phase[f].Waits? && forall action: Action :: !Enabled(m, action)
    ensures g in m.feds && m.phase[g].Waits? && m.feds[g].exec == ExecTime(m.feds[g]) > MAX && m.feds[g].granted < MAX
    decreases RankOf(rank, f)
  {
    assert FedGoes(m, f);
    var c := m.feds[f];
    assert forall i :: 0 <= i < |c.deps| ==> EdgeGoes(m, rank, c.deps[i].fed, f);
    hide Going, Keeps, Inbound, Enabled;
    if i :| 0 <= i < |c.deps| && m.phase[c.deps[i].fed].Waits? {
      g := SomebodyGoes(m, rank, c.deps[i].fed);
    } else {
      FirstMoves(m, rank, f);
      g := f;
    }
  }

  // ---------- every run

  /** Federates that have just entered execution mode and depend on each other without a cycle. */
  ghost predicate Started(n: Network, rank: map<nat, nat>) {
    && Entering(n) && n.phase.Keys == n.feds.Keys
    && (forall f :: f in n.feds ==> Ordered(n.feds[f].deps))
    && (forall f, i :: f in n.feds && 0 <= i < |n.feds[f].deps| ==> n.feds[f].deps[i] == At(n.feds[f].deps[i].fed, 0))
    && forall b, a :: (b, a) in n.channels ==>
      b in n.feds && n.feds[b].hasDependents && b in rank && a in rank && rank[b] < rank[a]
  }

  lemma StartedGoes(n: Network, rank: map<nat, nat>)
    requires Started(n, rank)
    ensures Going(n, rank)
  {
    forall f | f in n.feds
      ensures FedGoes(n, f)
    {
      hide ExecTime, CheckGrant;
    }
    forall b, a | (b, a) in n.channels
      ensures EdgeGoes(n, rank, b, a)
    {
      assert n.channels[(b, a)] == [];
    }
  }

  /** In every run of every network without cycles, whatever the options and with iteration or
      without: when nobody can do anything, nobody waits, as long as no time to execute at is beyond
      the end of the clock. */
  lemma AcyclicGoesOn(n: Network, rank: map<nat, nat>, run: seq<Action>)
    requires Started(n, rank)
    ensures var m := Execute(n, run);
      Stuck(m) ==>
        exists f :: f in m.feds && m.feds[f].granted < MAX && m.feds[f].exec == ExecTime(m.feds[f]) > MAX
  {
    StartedGoes(n, rank);
    hide Going, Started, Execute;
    ExecuteGoing(n, rank, run);
    var m := Execute(n, run);
    if Stuck(m) {
      assert m.phase.Keys == m.feds.Keys by { SameKeys(m, rank); }
      var f :| f in m.phase && m.phase[f].Waits?;
      var g := SomebodyGoes(m, rank, f);
      assert g in m.feds;
    }
  }

  lemma SameKeys(m: Network, rank: map<nat, nat>)
    requires Going(m, rank)
    ensures m.phase.Keys == m.feds.Keys
  {
  }

  // ---------- pipelines

  /** A federate with default options whose times are on the clock. */
  ghost predicate OnClock(c: Coord) {
    && c.info == PLAIN.(uninterruptible := c.info.uninterruptible) && Sound(c)
    && c.granted <= MAX && c.requested <= MAX && c.block == MAX
  }

  lemma StepOnClock(c: Coord, i: Input)
    requires OnClock(c) && (i.Ask? ==> i.time <= MAX) && !i.Block?
    ensures OnClock(Step(c, i).0)
  {
    StepKeeps(c, i);
    if c.granted < MAX {
      PlainNext(c);
    }
    hide Sound, NextPossibleTime, AllowedTime, FactorsOf, EventsReset, IterationsReset, Updated, RequestOf;
    hide ReadyForGrant, ExecTime;
  }

  lemma PlainNext(c: Coord)
    requires OnClock(c) && c.granted < MAX
    ensures NextPossibleTime(c.info, c.granted, c.base) <= MAX && ExecTime(c) <= MAX
  {
  }

  ghost predicate AllOnClock(n: Network) { forall f :: f in n.feds ==> OnClock(n.feds[f]) }

  lemma FedOnClock(n: Network, f: nat, i: Input)
    requires AllOnClock(n) && f in n.feds && (i.Ask? ==> i.time <= MAX) && !i.Block?
    ensures AllOnClock(Fed(n, f, i))
  {
    StepOnClock(n.feds[f], i);
    hide Step, OnClock;
  }

  lemma ApplyOnClock(n: Network, action: Action)
    requires AllOnClock(n) && Enabled(n, action) && (action.AskFor? ==> action.time <= MAX)
    ensures AllOnClock(Apply(n, action))
  {
    hide OnClock, Step, Answered, PutOff;
    match action
    case AskFor(f, time, iterate, newValue, newMessage) =>
      var i := Ask(time, iterate, newValue, newMessage);
      FedOnClock(n, f, i);
      FedOnClock(Fed(n, f, i).(phase := n.phase[f := Waits]), f, Look);
    case Publish(f) =>
    case Deliver(b, a) =>
      match n.channels[(b, a)][0]
      case Data(t) => FedOnClock(Taken(n, b, a), a, Value(t));
      case Timing(m) =>
        FedOnClock(Taken(n, b, a), a, Hear(b, m));
        FedOnClock(Fed(Taken(n, b, a), a, Hear(b, m)), a, Look);
  }

  lemma {:induction false} ExecuteOnClock(n: Network, run: seq<Action>)
    requires AllOnClock(n) && Within(run, MAX)
    ensures AllOnClock(Execute(n, run))
    decreases |run|
  {
    hide AllOnClock, Apply;
    if run != [] && Enabled(n, run[0]) {
      ApplyOnClock(n, run[0]);
      ExecuteOnClock(Apply(n, run[0]), run[1..]);
    }
  }

  function Place(flags: seq<bool>, k: nat): nat { k }

  function Places(flags: seq<bool>): map<nat, nat> { map k: nat | k < |flags| :: Place(flags, k) }

  lemma LineStarted(flags: seq<bool>)
    ensures Started(Line(flags), Places(flags)) && AllOnClock(Line(flags))
  {
    LineIsEntering(flags);
    LineOf(flags);
    hide Line, Entering;
  }

  /** In every run of a line of federates, of any length and uninterruptible or not, with iteration
      or without, somebody can go on as long as anybody waits. */
  lemma LineGoesOn(flags: seq<bool>, run: seq<Action>)
    requires Within(run, MAX)
    ensures !Stuck(Execute(Line(flags), run))
  {
    hide Line, Execute, Started, Stuck, ExecTime;
    LineStarted(flags);
    AcyclicGoesOn(Line(flags), Places(flags), run);
    ExecuteOnClock(Line(flags), run);
    var m := Execute(Line(flags), run);
    forall f | f in m.feds && m.feds[f].granted < MAX
      ensures ExecTime(m.feds[f]) <= MAX
    {
      PlainNext(m.feds[f]);
    }
  }
}
