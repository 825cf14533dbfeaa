/** Two federates that depend on each other: when they can always go on. */
module TimeProgress {
  import opened TimeDependencies
  import opened TimeCoordinator
  import opened TimeGrants
  import opened TimePromises
  import opened TimeNetwork
  import opened TimeRuns

  // ---------- one federate with default options that does not iterate

  ghost predicate Plain(c: Coord) {
    && c.info == PLAIN.(uninterruptible := c.info.uninterruptible) && c.hasDependents && !c.iterating
    && |c.deps| == 1 && c.deps[0].forward == MAX && c.block == MAX && c.base == c.granted && 0 <= c.granted <= MAX
    && (c.info.uninterruptible ==> c.exec == c.requested)
  }

  /** The earliest data that is due. */
  function Earliest(c: Coord): Time { Min(c.value, c.message) }

  /** There is no other time for it than the one asked for. */
  predicate Set(c: Coord) { c.info.uninterruptible || c.granted == MAX - 1 }

  /** A request is pending. */
  ghost predicate Asks(c: Coord) {
    && Plain(c) && c.granted < c.requested <= MAX && c.granted < Earliest(c)
    && (if Set(c) then c.next == c.exec == c.requested else c.exec == Min(c.requested, Earliest(c)))
  }

  /** What a federate with one dependency makes of it. */
  function LeastEvent(c: Coord, d: Dependency): Time {
    Min(Min(Earliest(c), d.te), if d.deMin >= d.next then Min(Earliest(c), d.deMin) else UNTRUSTED)
  }

  function NextEvent(c: Coord, d: Dependency): Time {
    var least := LeastEvent(c, d);
    if c.info.uninterruptible then c.requested
    else Min(if c.granted + 1 < least < MAX then least else c.granted + 1, c.exec)
  }

  predicate Free(c: Coord, d: Dependency) {
    d.next > c.exec || (d.next == c.exec && (c.requested <= c.exec || d.state != TimeGranted))
  }

  /** Another look changes nothing: the time cannot be granted yet. */
  ghost predicate Rests(c: Coord) {
    && Asks(c) && c.minDe == Min(Earliest(c), c.deps[0].te) && c.next == NextEvent(c, c.deps[0])
    && (if c.exec == MAX then c.deps[0].next < MAX else !Free(c, c.deps[0]))
  }

  lemma PlainFirst(c: Coord)
    requires Plain(c) && c.granted < MAX
    ensures NextPossibleTime(c.info, c.granted, c.base) == c.granted + 1
    ensures forall t :: AllowedTime(c.info, c.base, t) == t
  {
  }

  lemma PlainFactors(c: Coord)
    requires Asks(c)
    ensures var (c', update) := UpdateFactors(c);
      && c' == c.(minminDe := LeastEvent(c, c.deps[0]), next := NextEvent(c, c.deps[0]),
                  minDe := Min(Earliest(c), c.deps[0].te), allow := Min(MAX, c.deps[0].next))
      && (update <==> c'.next != c.next || c'.minDe != c.minDe)
  {
    hide NextPossibleTime, AllowedTime;
    PlainFirst(c);
    assert c.deps == [c.deps[0]];
    Single(c.deps[0]);
  }

  /** A look at whether the time can be granted. At the end of time, nothing more is told. */
  lemma LookPlain(c: Coord)
    requires Asks(c)
    ensures var (c', ms, v) := CheckGrant(c);
      match v
      case Continue =>
        && Rests(c') && c' == c.(minminDe := c'.minminDe, next := c'.next, minDe := c'.minDe, allow := c'.allow)
        && ms == if c.exec < MAX && (c'.next != c.next || c'.minDe != c.minDe) then [RequestOf(c')] else []
      case Halted => Plain(c') && c'.granted == MAX && ms == [Disconnect] && c'.deps == c.deps && c'.info == c.info
      case NextStep =>
        && Plain(c') && c'.granted == c.exec < MAX && c'.next <= c'.granted && ms == [Grant(c.exec)]
        && c'.deps == c.deps && c'.info == c.info
      case Iterating => false
  {
    hide UpdateFactors;
    PlainFactors(c);
    assert c.deps == [c.deps[0]];
    Single(c.deps[0]);
    var c1 := UpdateFactors(c).0;
    assert c1.deps == c.deps && c1.exec == c.exec;
  }

  lemma AskPlain(c: Coord, i: Input)
    requires Plain(c) && c.granted < MAX && i.Ask? && !i.iterate && i.time <= MAX
    ensures var (c', ms) := Step(c, i);
      && Asks(c') && c'.granted == c.granted && c'.deps == [EventReset(c.granted, c.deps[0])] && ms == [RequestOf(c')]
      && c'.info == c.info && c'.requested == Max(i.time, c.granted + 1)
  {
    hide NextPossibleTime, AllowedTime;
    PlainFirst(c);
    assert c.deps == [c.deps[0]];
    Single(c.deps[0]);
    Single(EventReset(c.granted, c.deps[0]));
  }

  lemma DataPlain(c: Coord, t: Time)
    requires Plain(c) && c.granted < MAX
    ensures var (c', ms) := Step(c, Value(t));
      && Plain(c') && c' == c.(value := c'.value, exec := c'.exec)
      && (Asks(c) ==> Asks(c'))
      && (ms == if c'.exec != c.exec then [RequestOf(c')] else [])
      && (ms != [] ==> c'.exec <= Max(t, c.granted + 1))
  {
    hide NextPossibleTime, AllowedTime;
    PlainFirst(c);
  }

  lemma HearPlain(c: Coord, m: Message)
    requires Plain(c) && c.granted < MAX && (m.Request? || m.Grant? || m.Disconnect?)
    ensures var (c', ms) := Step(c, Hear(c.deps[0].fed, m));
      Plain(c') && c' == c.(deps := [Process(c.deps[0], m).0]) && ms == [] && (Asks(c) ==> Asks(c'))
  {
    assert c.deps == [c.deps[0]];
    Single(c.deps[0]);
  }

  // ---------- what is under way

  /** One of the two federates, and what is under way to it. */
  datatype Side = Side(c: Coord, phase: Phase, inbox: seq<Packet>)

  /** Data can still come at the time of the last grant. */
  predicate Acting(d: Dependency) { d.state == TimeGranted && d.next < MAX }

  predicate CarriesGrant(p: Packet) { p.Timing? && p.m.Grant? }

  predicate CarriesRequest(p: Packet) { p.Timing? && p.m.Request? }

  predicate NoGrant(ps: seq<Packet>) { forall k :: 0 <= k < |ps| ==> !CarriesGrant(ps[k]) }

  /** A timing message of a federate that was granted a time. */
  predicate Sendable(m: Message, granted: Time) {
    || (m.Request? && !m.iterative)
    || (m.Grant? && m.time <= granted && m.time < MAX)
    || (m.Disconnect? && granted >= MAX)
  }

  /** Grants come before the data that they allow, up to the time that the sender was granted. */
  ghost predicate Carries(d: Dependency, ps: seq<Packet>, granted: Time)
    decreases |ps|
  {
    ps == [] ||
      match ps[0]
      case Data(t) => Acting(d) && t <= granted && Carries(d, ps[1..], granted)
      case Timing(m) =>
        && Sendable(m, granted)
        && Carries(Process(d, m).0, ps[1..], granted)
  }

  /** What is known of the sender once all is taken. */
  function End(d: Dependency, ps: seq<Packet>): Dependency
    decreases |ps|
  {
    if ps == [] then d else End(if ps[0].Timing? then Process(d, ps[0].m).0 else d, ps[1..])
  }

  /** The events told after the last grant. */
  predicate Low(ps: seq<Packet>, bound: Time) {
    forall k :: 0 <= k < |ps| && CarriesRequest(ps[k]) && NoGrant(ps[k..]) ==> Max(ps[k].m.te, ps[k].m.next) <= bound
  }

  lemma {:induction false} CarriesOn(d: Dependency, ps: seq<Packet>, p: Packet, granted: Time)
    requires Carries(d, ps, granted) && Carries(End(d, ps), [p], granted)
    ensures Carries(d, ps + [p], granted)
    ensures End(d, ps + [p]) == if p.Timing? then Process(End(d, ps), p.m).0 else End(d, ps)
    decreases |ps|
  {
    if ps == [] {
      assert ps + [p] == [p] && [p][1..] == [];
    } else {
      assert (ps + [p])[1..] == ps[1..] + [p];
      CarriesOn(if ps[0].Timing? then Process(d, ps[0].m).0 else d, ps[1..], p, granted);
    }
  }

  lemma {:induction false} CarriesLater(d: Dependency, ps: seq<Packet>, granted: Time, later: Time)
    requires Carries(d, ps, granted) && granted <= later
    ensures Carries(d, ps, later)
    decreases |ps|
  {
    if ps != [] {
      CarriesLater(if ps[0].Timing? then Process(d, ps[0].m).0 else d, ps[1..], granted, later);
    }
  }

  /** Resetting the events of a dependency does not matter once it is heard of again. */
  lemma {:induction false} CarriesReset(d: Dependency, ps: seq<Packet>, granted: Time, t: Time)
    requires Carries(d, ps, granted) && d.forward == MAX
    ensures Carries(EventReset(t, d), ps, granted)
    ensures End(EventReset(t, d), ps).state == End(d, ps).state && End(EventReset(t, d), ps).next == End(d, ps).next
    decreases |ps|
  {
    if ps != [] {
      if ps[0].Data? {
        CarriesReset(d, ps[1..], granted, t);
      } else {
        assert Process(EventReset(t, d), ps[0].m).0 == Process(d, ps[0].m).0;
      }
    }
  }

  lemma LowOn(ps: seq<Packet>, p: Packet, bound: Time)
    requires Low(ps, bound) || CarriesGrant(p)
    requires CarriesRequest(p) ==> Max(p.m.te, p.m.next) <= bound
    ensures Low(ps + [p], bound)
  {
    forall k | 0 <= k < |ps + [p]| && CarriesRequest((ps + [p])[k]) && NoGrant((ps + [p])[k..])
      ensures Max((ps + [p])[k].m.te, (ps + [p])[k].m.next) <= bound
    {
      if k < |ps| {
        assert (ps + [p])[k..] == ps[k..] + [p];
        assert forall j :: 0 <= j < |ps[k..]| ==> ps[k..][j] == (ps[k..] + [p])[j];
        assert (ps[k..] + [p])[|ps[k..]|] == p;
      }
    }
  }

  lemma LowRest(ps: seq<Packet>, bound: Time)
    requires ps != [] && Low(ps, bound)
    ensures Low(ps[1..], bound)
  {
    forall k | 0 <= k < |ps[1..]| && CarriesRequest(ps[1..][k]) && NoGrant(ps[1..][k..])
      ensures Max(ps[1..][k].m.te, ps[1..][k].m.next) <= bound
    {
      assert ps[1..][k..] == ps[k + 1..];
    }
  }

  lemma NoGrantRest(ps: seq<Packet>)
    requires ps != []
    ensures NoGrant(ps) <==> !CarriesGrant(ps[0]) && NoGrant(ps[1..])
  {
    assert forall k :: 0 < k < |ps| ==> ps[k] == ps[1..][k - 1];
  }

  lemma NoGrantOn(ps: seq<Packet>, p: Packet)
    ensures NoGrant(ps + [p]) <==> NoGrant(ps) && !CarriesGrant(p)
  {
    assert (ps + [p])[|ps|] == p && forall k :: 0 <= k < |ps| ==> ps[k] == (ps + [p])[k];
  }

  // ---------- what the two know of each other

  /** A request as it stands: its scheduled events are not told at the end of time. */
  predicate Says(m: Message, c: Coord) {
    && m.Request? && !m.iterative && (Set(c) || c.exec < MAX ==> m.next == c.next)
    && (c.exec < MAX ==> m == RequestOf(c))
  }

  /** What is known of a federate that waits, when all that it told was heard. */
  function Told(fed: nat, c: Coord): Dependency { Process(At(fed, 0), RequestOf(c)).0 }

  /** What a federate has told, to one that knows d of it and was granted a time. */
  ghost predicate Speaks(b: Side, d: Dependency, ps: seq<Packet>, granted: Time) {
    && Carries(d, ps, b.c.granted)
    && (b.phase.Waits? ==>
      if ps != [] then ps[|ps| - 1].Timing? && Says(ps[|ps| - 1].m, b.c)
      else d.state == TimeRequested && (Set(b.c) || b.c.exec < MAX ==> d.next == b.c.next))
    && (b.phase.Acts? && b.c.granted < MAX ==> Acting(End(d, ps)))
    && (b.c.granted == MAX ==> End(d, ps).next == MAX)
    && (!b.phase.Waits? && b.c.granted < MAX ==>
      var bound := Max(granted, b.c.granted + 1); Low(ps, bound) && (NoGrant(ps) ==> Max(d.te, d.next) <= bound))
  }

  /** What is in the table of a is not, or no longer, what b says. */
  ghost predicate Unaware(a: Side, b: Side) {
    a.c.deps != [] && a.inbox == [] && b.c.exec < MAX && a.c.deps[0] != Told(a.c.deps[0].fed, b.c)
  }

  /** What federate a takes from b, and has made of it, since it last looked. */
  ghost predicate Follows(a: Side, b: Side, looked: bool) {
    && Plain(a.c) && (a.c.granted == MAX ==> !a.phase.Waits?)
    && (a.phase.Waits? ==> Asks(a.c)) && (!a.phase.Waits? ==> a.c.next <= a.c.granted)
    && (a.c.granted < MAX ==> Speaks(b, a.c.deps[0], a.inbox, a.c.granted))
    && (a.phase.Waits? ==> Awaits(a, b, looked))
  }

  ghost predicate Awaits(a: Side, b: Side, looked: bool)
    requires Plain(a.c)
  {
    var d := a.c.deps[0];
    var bound := Max(a.c.granted, b.c.granted + 1);
    && (looked ==> Rests(a.c) || Acting(d))
    && (b.phase.Waits? && Unaware(a, b) ==> d == EventReset(a.c.granted, Told(d.fed, b.c)))
    && (NoGrant(a.inbox) && b.c.granted < MAX && (!b.phase.Waits? || Unaware(b, a)) ==>
      a.c.minDe <= bound || (!looked && d.te <= bound))
  }

  ghost predicate OneKnows(a: Side, b: Side) {
    a.phase.Waits? && b.phase.Waits? ==> !Unaware(a, b) || !Unaware(b, a)
  }

  function Sending(s: Side, ms: seq<Message>): Side { s.(inbox := s.inbox + Packets(ms)) }

  lemma OnePacket(m: Message)
    ensures Packets([m]) == [Timing(m)] && Packets([]) == []
  {
  }

  // ---------- a request

  lemma AskFollows(a: Side, b: Side, i: Input)
    requires Follows(a, b, true) && Plain(b.c) && !a.phase.Waits? && a.c.granted < MAX
    requires i.Ask? && !i.iterate && i.time <= MAX
    ensures var (c, ms) := Step(a.c, i); Follows(Side(c, Waits, a.inbox), Sending(b, ms), false)
  {
    AskPlain(a.c, i);
    hide Step, RequestOf, Carries, End, Low, Told;
    var d, g := a.c.deps[0], a.c.granted;
    CarriesReset(d, a.inbox, b.c.granted, g);
    OnePacket(Step(a.c, i).1[0]);
    if a.inbox == [] && b.phase.Waits? {
      ToldKnown(d, b.c);
    }
    EndOfNothing(d, a.inbox);
    EndOfNothing(EventReset(g, d), a.inbox);
  }

  lemma EndOfNothing(d: Dependency, ps: seq<Packet>)
    ensures ps == [] ==> End(d, ps) == d
  {
  }

  lemma ToldKnown(d: Dependency, c: Coord)
    ensures d.state == TimeRequested && d.next == c.next && d.forward == MAX && !c.iterating ==>
      forall t :: EventReset(t, d) == EventReset(t, Told(d.fed, c))
  {
  }

  lemma AskSpeaks(a: Side, b: Side, i: Input)
    requires Follows(b, a, true) && Plain(a.c) && !a.phase.Waits? && a.c.granted < MAX
    requires i.Ask? && !i.iterate && i.time <= MAX
    ensures var (c, ms) := Step(a.c, i); Follows(Sending(b, ms), Side(c, Waits, a.inbox), true)
  {
    AskPlain(a.c, i);
    hide Step, RequestOf, Carries, End, Low, Told;
    var (c, ms) := Step(a.c, i);
    var p := Timing(ms[0]);
    OnePacket(ms[0]);
    NoGrantOn(b.inbox, p);
    RequestPlain(c);
    if b.c.granted < MAX {
      SpeaksOn(b.c.deps[0], b.inbox, p, a.c.granted);
    }
  }

  lemma RequestPlain(c: Coord)
    requires Plain(c)
    ensures RequestOf(c).Request? && !RequestOf(c).iterative && RequestOf(c).next == c.next && RequestOf(c).te == c.exec
  {
  }

  lemma SpeaksOn(d: Dependency, ps: seq<Packet>, p: Packet, granted: Time)
    requires Carries(d, ps, granted) && p.Timing? && Sendable(p.m, granted)
    ensures Carries(d, ps + [p], granted) && End(d, ps + [p]) == Process(End(d, ps), p.m).0
  {
    assert [p][1..] == [];
    CarriesOn(d, ps, p, granted);
  }

  // ---------- a look

  lemma LookFollows(a: Side, b: Side)
    requires Follows(a, b, false) && a.phase.Waits?
    ensures var (c, ms, v) := CheckGrant(a.c);
      Follows(Side(c, if v.Continue? then Waits else Acts, a.inbox), Sending(b, ms), true)
  {
    LookPlain(a.c);
    hide CheckGrant, RequestOf, Carries, End, Told;
    var (c, ms, v) := CheckGrant(a.c);
    if ms != [] {
      OnePacket(ms[0]);
    }
    if v.NextStep? {
      LowMore(a.inbox, Max(a.c.granted, b.c.granted + 1), Max(c.granted, b.c.granted + 1));
    }
    SameTold(a.c, c);
  }

  lemma LowMore(ps: seq<Packet>, bound: Time, more: Time)
    requires bound <= more
    ensures Low(ps, bound) ==> Low(ps, more)
  {
  }

  predicate SameWord(c: Coord, c': Coord) {
    && c.next == c'.next && c.minDe == c'.minDe && c.exec == c'.exec
    && c.iterating == c'.iterating && c.info == c'.info
  }

  lemma SameTold(c: Coord, c': Coord)
    ensures SameWord(c, c') ==> RequestOf(c) == RequestOf(c') && forall fed :: Told(fed, c) == Told(fed, c')
  {
  }

  /** What a federate has told, after one more message. */
  lemma Tells(a: Side, a': Side, m: Message, d: Dependency, ps: seq<Packet>, granted: Time)
    requires Speaks(a, d, ps, granted) && a.c.granted <= a'.c.granted && Sendable(m, a'.c.granted)
    requires a'.phase.Waits? ==> Says(m, a'.c)
    requires a'.phase.Acts? ==> if a'.c.granted < MAX then m.Grant? else m.Disconnect?
    requires !a'.phase.Waits? && a'.c.granted < MAX && !m.Grant? ==>
      !a.phase.Waits? && m.Request? && Max(m.te, m.next) <= Max(granted, a'.c.granted + 1)
    requires a'.c.granted == MAX ==> m.Disconnect?
    ensures Speaks(a', d, ps + [Timing(m)], granted)
  {
    var p, more := Timing(m), Max(granted, a'.c.granted + 1);
    NoGrantOn(ps, p);
    CarriesLater(d, ps, a.c.granted, a'.c.granted);
    SpeaksOn(d, ps, p, a'.c.granted);
    if !a'.phase.Waits? && a'.c.granted < MAX {
      LowMore(ps, Max(granted, a.c.granted + 1), more);
      LowOn(ps, p, more);
    }
    hide Carries, End, Low;
  }

  lemma LookSpeaks(a: Side, b: Side)
    requires Follows(b, a, true) && a.phase.Waits? && Asks(a.c) && a.c.granted < MAX
    ensures var (c, ms, v) := CheckGrant(a.c);
      Follows(Sending(b, ms), Side(c, if v.Continue? then Waits else Acts, a.inbox), true)
  {
    LookPlain(a.c);
    hide CheckGrant, RequestOf, Told, Speaks;
    var (c, ms, v) := CheckGrant(a.c);
    SameTold(a.c, c);
    RequestPlain(c);
    var a' := Side(c, if v.Continue? then Waits else Acts, a.inbox);
    if ms != [] {
      OnePacket(ms[0]);
      NoGrantOn(b.inbox, Timing(ms[0]));
      if b.c.granted < MAX {
        Tells(a, a', ms[0], b.c.deps[0], b.inbox, b.c.granted);
      }
    } else {
      OnePacket(Disconnect);
      assert b.inbox + [] == b.inbox;
      if b.c.granted < MAX {
        SameSpeaks(a, a', b.c.deps[0], b.inbox, b.c.granted);
      }
    }
  }

  lemma SameSpeaks(a: Side, a': Side, d: Dependency, ps: seq<Packet>, granted: Time)
    requires Speaks(a, d, ps, granted) && a.phase == a'.phase && a.c.granted == a'.c.granted && a.c.info == a'.c.info
    requires a.phase.Waits? ==>
      && a.c.exec == a'.c.exec && (a.c.exec < MAX ==> RequestOf(a.c) == RequestOf(a'.c))
      && (Set(a.c) || a.c.exec < MAX ==> a.c.next == a'.c.next)
    ensures Speaks(a', d, ps, granted)
  {
    hide Carries, End, Low;
  }

  lemma LookKnows(a: Side, b: Side)
    requires OneKnows(a, b) && a.phase.Waits? && Asks(a.c)
    ensures var (c, ms, v) := CheckGrant(a.c);
      OneKnows(Side(c, if v.Continue? then Waits else Acts, a.inbox), Sending(b, ms))
  {
    LookPlain(a.c);
    hide CheckGrant, RequestOf, Told;
    var (c, ms, v) := CheckGrant(a.c);
    SameTold(a.c, c);
    if ms != [] {
      OnePacket(ms[0]);
    } else {
      OnePacket(Disconnect);
      assert b.inbox + [] == b.inbox;
    }
  }

  // ---------- a timing message

  predicate Heard(p: Phase, q: Phase) { if p.Waits? then q.Waits? else q.Calls? }

  lemma HearFollows(a: Side, b: Side, phase: Phase)
    requires Follows(a, b, true) && Plain(b.c) && a.c.granted < MAX && Heard(a.phase, phase)
    requires a.inbox != [] && a.inbox[0].Timing?
    ensures var (c, ms) := Step(a.c, Hear(a.c.deps[0].fed, a.inbox[0].m));
      ms == [] && Follows(Side(c, phase, a.inbox[1..]), b, false)
  {
    var d, m, rest := a.c.deps[0], a.inbox[0].m, a.inbox[1..];
    assert Carries(Process(d, m).0, rest, b.c.granted);
    HearPlain(a.c, m);
    NoGrantRest(a.inbox);
    if !b.phase.Waits? && b.c.granted < MAX {
      LowRest(a.inbox, Max(a.c.granted, b.c.granted + 1));
      assert a.inbox[0..] == a.inbox;
    }
    EndOfNothing(Process(d, m).0, rest);
    if rest == [] && b.phase.Waits? && Says(m, b.c) {
      RequestPlain(b.c);
      ToldNow(d, m, b.c);
    }
    hide Step, Carries, RequestOf, Told;
  }

  lemma ToldNow(d: Dependency, m: Message, c: Coord)
    requires d.forward == MAX && Says(m, c) && Plain(c)
    ensures Process(d, m).0.state == TimeRequested && Process(d, m).0.next == m.next
    ensures c.exec < MAX ==> Process(d, m).0 == Told(d.fed, c)
  {
  }

  /** A federate that takes a packet and says nothing. */
  lemma TakenSpeaks(a: Side, a': Side, d: Dependency, ps: seq<Packet>, granted: Time)
    requires Speaks(a, d, ps, granted) && Heard(a.phase, a'.phase) && a.c.granted == a'.c.granted
    requires a.c.info == a'.c.info && a.c.exec == a'.c.exec && a.c.next == a'.c.next
    requires RequestOf(a.c) == RequestOf(a'.c)
    ensures Speaks(a', d, ps, granted)
  {
    hide Carries, End, Low, RequestOf;
  }

  lemma HearSpeaks(a: Side, b: Side, phase: Phase)
    requires Follows(a, b, true) && Follows(b, a, true) && a.c.granted < MAX && Heard(a.phase, phase)
    requires a.inbox != [] && a.inbox[0].Timing?
    ensures var a' := Side(Step(a.c, Hear(a.c.deps[0].fed, a.inbox[0].m)).0, phase, a.inbox[1..]);
      Follows(b, a', true) && (OneKnows(a, b) ==> OneKnows(a', b))
  {
    var d, m, rest := a.c.deps[0], a.inbox[0].m, a.inbox[1..];
    assert Sendable(m, b.c.granted);
    HearPlain(a.c, m);
    var c := Step(a.c, Hear(d.fed, m)).0;
    SameTold(a.c, c);
    hide Carries, RequestOf, Told, End, Low, Step;
    if b.c.granted < MAX {
      TakenSpeaks(a, Side(c, phase, rest), b.c.deps[0], b.inbox, b.c.granted);
    }
    if rest == [] && b.phase.Waits? {
      ToldNow(d, m, b.c);
    }
  }

  // ---------- data

  lemma DataFollows(a: Side, b: Side, phase: Phase)
    requires Follows(a, b, true) && a.c.granted < MAX && Heard(a.phase, phase)
    requires a.inbox != [] && a.inbox[0].Data?
    ensures var (c, ms) := Step(a.c, Value(a.inbox[0].time));
      var a', b' := Side(c, phase, a.inbox[1..]), Sending(b, ms);
      Follows(a', b', true) && (OneKnows(a, b) ==> OneKnows(a', b'))
  {
    var d, t, rest := a.c.deps[0], a.inbox[0].time, a.inbox[1..];
    assert Acting(d) && Carries(d, rest, b.c.granted) && End(d, a.inbox) == End(d, rest);
    DataPlain(a.c, t);
    var (c, ms) := Step(a.c, Value(t));
    SameTold(a.c, c);
    NoGrantRest(a.inbox);
    if !b.phase.Waits? && b.c.granted < MAX {
      LowRest(a.inbox, Max(a.c.granted, b.c.granted + 1));
    }
    hide Carries, RequestOf, Told, End, Low, Step;
    if ms != [] {
      OnePacket(ms[0]);
    } else {
      OnePacket(Disconnect);
      assert b.inbox + [] == b.inbox;
    }
    assert b.phase.Waits? ==> rest != [];
  }

  lemma DataSpeaks(a: Side, b: Side, phase: Phase)
    requires Follows(a, b, true) && Follows(b, a, true) && a.c.granted < MAX && Heard(a.phase, phase)
    requires a.inbox != [] && a.inbox[0].Data?
    ensures var (c, ms) := Step(a.c, Value(a.inbox[0].time));
      Follows(Sending(b, ms), Side(c, phase, a.inbox[1..]), true)
  {
    var t, rest := a.inbox[0].time, a.inbox[1..];
    assert t <= b.c.granted;
    DataPlain(a.c, t);
    var (c, ms) := Step(a.c, Value(t));
    SameTold(a.c, c);
    RequestPlain(c);
    assert b.phase.Waits? ==> rest != [];
    hide RequestOf, Told, Speaks, Step;
    var a' := Side(c, phase, rest);
    if ms != [] {
      OnePacket(ms[0]);
      NoGrantOn(b.inbox, Timing(ms[0]));
      if b.c.granted < MAX {
        Tells(a, a', ms[0], b.c.deps[0], b.inbox, b.c.granted);
      }
    } else {
      OnePacket(Disconnect);
      assert b.inbox + [] == b.inbox;
      if b.c.granted < MAX {
        TakenSpeaks(a, a', b.c.deps[0], b.inbox, b.c.granted);
      }
    }
  }

  lemma PublishKeeps(a: Side, b: Side)
    requires Follows(a, b, true) && Follows(b, a, true) && a.phase.Acts? && a.c.granted < MAX
    ensures var b' := b.(inbox := b.inbox + [Data(a.c.granted)]); Follows(a, b', true) && Follows(b', a, true)
  {
    var p := Data(a.c.granted);
    hide RequestOf, Told, Rests, End;
    NoGrantOn(b.inbox, p);
    if b.c.granted < MAX {
      assert [p][1..] == [];
      CarriesOn(b.c.deps[0], b.inbox, p, a.c.granted);
      LowOn(b.inbox, p, Max(b.c.granted, a.c.granted + 1));
    }
  }

  // ---------- nobody can go on

  /** Nothing under way to a federate can be taken. */
  predicate Blocked(a: Side) {
    a.inbox != [] ==> a.inbox[0].Timing? && |a.c.deps| == 1 && Delays(a.c, a.c.deps[0], a.inbox[0].m)
  }

  /** A federate that can be interrupted waits for data only. */
  predicate AtTheEnd(a: Side) { a.phase.Waits? && !Set(a.c) && a.c.exec == MAX }

  /** A grant is put off only while the time to execute at could be granted. */
  lemma NothingPutOff(a: Side, b: Side)
    requires Follows(a, b, true) && a.phase.Waits? && Blocked(a)
    ensures a.inbox == []
  {
    hide Speaks;
  }

  lemma OtherWaits(a: Side, b: Side)
    requires Follows(a, b, true) && a.phase.Waits? && a.inbox == [] && (b.phase.Waits? || b.c.granted == MAX)
    ensures b.phase.Waits? && Rests(a.c) && a.c.deps[0].state == TimeRequested
  {
    EndOfNothing(a.c.deps[0], a.inbox);
    hide Carries, Low, Told;
  }

  /** What is known of a federate that waits for a time. */
  lemma KnownTimes(a: Side, b: Side)
    requires Follows(a, b, true) && Asks(b.c) && a.phase.Waits? && b.phase.Waits? && a.inbox == [] && b.c.exec < MAX
    requires b.c.next <= b.c.exec
    ensures var d := a.c.deps[0];
      && d.next == b.c.next
      && (if Unaware(a, b) then d.te == d.deMin == Max(d.next, a.c.granted)
          else d.te == b.c.exec && d.deMin == Min(Max(b.c.minDe, b.c.next), b.c.exec))
  {
    hide Carries, Low, Rests;
  }

  lemma FirmMoves(a: Side, b: Side)
    requires Follows(a, b, true) && Follows(b, a, true) && a.phase.Waits? && b.phase.Waits?
    requires a.inbox == [] && b.inbox == [] && !AtTheEnd(a) && !AtTheEnd(b)
    ensures !Set(a.c)
  {
    OtherWaits(a, b);
    OtherWaits(b, a);
    if Set(a.c) {
      assert a.c.exec < b.c.exec by { hide Carries, Low, Told, NextEvent; }
      KnownTimes(b, a);
      hide Follows, Unaware;
    }
  }

  /** The table of one federate shows the other, as it told or as it was at the request. */
  ghost predicate Shown(a: Coord, b: Coord, told: bool)
    requires |a.deps| == 1
  {
    var d := a.deps[0];
    && d.state == TimeRequested && d.next == b.next
    && (if told then d.te == b.exec && d.deMin == Min(Max(b.minDe, b.next), b.exec)
        else d.te == d.deMin == Max(d.next, a.granted))
  }

  ghost predicate Together(a: Coord, b: Coord, aTold: bool, bTold: bool) {
    && Rests(a) && Rests(b) && !a.info.uninterruptible && !b.info.uninterruptible && a.exec < MAX && b.exec < MAX
    && Shown(a, b, aTold) && Shown(b, a, bTold)
  }

  /** Both wait for the same event of each other, before either of them executes. */
  lemma SameEvent(a: Coord, b: Coord, aTold: bool, bTold: bool)
    requires Together(a, b, aTold, bTold) && a.exec <= b.exec
    ensures a.next == b.next < a.exec
  {
  }

  /** If one knows of the other, then the other does not, and was not told. */
  lemma OtherIsLost(a: Coord, b: Coord, bTold: bool)
    requires Together(a, b, true, bTold) && a.next == b.next < Min(a.exec, b.exec)
    ensures !bTold && a.minDe > Max(a.granted, b.granted + 1)
  {
  }

  /** A federate that was not heard of since has told nothing new. */
  lemma NothingNew(a: Side, b: Side)
    requires Follows(a, b, true) && a.phase.Waits? && b.phase.Waits? && a.inbox == [] && b.c.granted < MAX
    ensures Unaware(b, a) ==> a.c.minDe <= Max(a.c.granted, b.c.granted + 1)
  {
    hide Speaks, Rests;
  }

  lemma NotTogether(a: Side, b: Side)
    requires OneKnows(a, b) && a.phase.Waits? && b.phase.Waits?
    requires Unaware(b, a) ==> a.c.minDe <= Max(a.c.granted, b.c.granted + 1)
    requires Unaware(a, b) ==> b.c.minDe <= Max(b.c.granted, a.c.granted + 1)
    ensures !Together(a.c, b.c, !Unaware(a, b), !Unaware(b, a))
  {
    hide Unaware, Rests, Shown;
    if Together(a.c, b.c, !Unaware(a, b), !Unaware(b, a)) {
      if a.c.exec <= b.c.exec {
        SameEvent(a.c, b.c, !Unaware(a, b), !Unaware(b, a));
      } else {
        SameEvent(b.c, a.c, !Unaware(b, a), !Unaware(a, b));
      }
      if Unaware(a, b) {
        OtherIsLost(b.c, a.c, false);
      } else {
        OtherIsLost(a.c, b.c, !Unaware(b, a));
      }
    }
  }

  /** Somebody can go on, unless a federate that can be interrupted waits for data only. */
  lemma SomebodyMoves(a: Side, b: Side)
    requires Follows(a, b, true) && Follows(b, a, true) && OneKnows(a, b) && a.phase.Waits? && Blocked(a)
    requires if b.phase.Waits? then Blocked(b) else b.c.granted == MAX
    ensures AtTheEnd(a) || AtTheEnd(b)
  {
    NothingPutOff(a, b);
    OtherWaits(a, b);
    NothingPutOff(b, a);
    OtherWaits(b, a);
    if !AtTheEnd(a) && !AtTheEnd(b) {
      FirmMoves(a, b);
      FirmMoves(b, a);
      KnownTimes(a, b);
      KnownTimes(b, a);
      NothingNew(a, b);
      NothingNew(b, a);
      hide Follows, Unaware;
      NotTogether(a, b);
    }
  }

  // ---------- every run

  ghost predicate IsPair(n: Network) {
    && n.feds.Keys == {0, 1} && n.phase.Keys == {0, 1} && n.channels.Keys == {(0, 1), (1, 0)}
    && |n.feds[0].deps| == 1 && n.feds[0].deps[0].fed == 1 && |n.feds[1].deps| == 1 && n.feds[1].deps[0].fed == 0
  }

  function Other(f: nat): nat { if f == 0 then 1 else 0 }

  function SideOf(n: Network, f: nat): Side
    requires f in n.feds && f in n.phase && (Other(f), f) in n.channels
  {
    Side(n.feds[f], n.phase[f], n.channels[(Other(f), f)])
  }

  /** A request that is pending is not for more than a limit, if there is a choice. */
  predicate InLimit(a: Side, limit: Time) { a.phase.Waits? ==> a.c.requested <= Max(limit, a.c.granted + 1) }

  ghost predicate Alive(n: Network, limit: Time) {
    && IsPair(n) && Follows(SideOf(n, 0), SideOf(n, 1), true) && Follows(SideOf(n, 1), SideOf(n, 0), true)
    && OneKnows(SideOf(n, 0), SideOf(n, 1)) && InLimit(SideOf(n, 0), limit) && InLimit(SideOf(n, 1), limit)
  }

  lemma AliveAt(n: Network, f: nat, limit: Time)
    requires IsPair(n) && f <= 1
    ensures var a, b := SideOf(n, f), SideOf(n, Other(f));
      Alive(n, limit) <==>
        Follows(a, b, true) && Follows(b, a, true) && OneKnows(a, b) && InLimit(a, limit) && InLimit(b, limit)
  {
    hide Follows, Unaware, InLimit;
  }

  lemma SidesAfter(n: Network, f: nat, c: Coord, p: Phase, ms: seq<Message>, m: Network)
    requires IsPair(n) && f <= 1 && Moves(n, f, c, p, ms, m) && |c.deps| == 1 && c.deps[0].fed == n.feds[f].deps[0].fed
    ensures IsPair(m) && SideOf(m, f) == Side(c, p, SideOf(n, f).inbox)
    ensures SideOf(m, Other(f)) == Sending(SideOf(n, Other(f)), ms)
  {
    hide Packets;
  }

  lemma SidesOff(n: Network, f: nat)
    requires IsPair(n) && f <= 1 && SideOf(n, f).inbox != []
    ensures var m := Off(n, Other(f), f);
      && IsPair(m) && SideOf(m, f) == SideOf(n, f).(inbox := SideOf(n, f).inbox[1..])
      && SideOf(m, Other(f)) == SideOf(n, Other(f))
  {
  }

  /** A federate that waits takes an input and looks. */
  lemma LookedTwice(b: Side, m1: seq<Message>, m2: seq<Message>)
    ensures Sending(Sending(b, m1), m2) == Sending(b, m1 + m2)
  {
    PacketsOn(b.inbox, m1, m2);
  }

  lemma AskAlive(n: Network, f: nat, i: Input, m: Network, limit: Time)
    requires Alive(n, limit) && f <= 1 && !n.phase[f].Waits? && n.feds[f].granted < MAX
    requires i.Ask? && !i.iterate && i.time <= limit <= MAX
    requires var (c, ms, answered) := Turn(n.feds[f], i); Moves(n, f, c, if answered then Acts else Waits, ms, m)
    ensures Alive(m, limit)
  {
    var a, b := SideOf(n, f), SideOf(n, Other(f));
    AliveAt(n, f, limit);
    var (c1, m1) := Step(a.c, i);
    AskPlain(a.c, i);
    AskFollows(a, b, i);
    AskSpeaks(a, b, i);
    AskKnows(a, b, m1, c1);
    var a1, b1 := Side(c1, Waits, a.inbox), Sending(b, m1);
    hide Follows, Moves, Unaware, RequestOf;
    LookAlive(n, f, a1, b1, m1, m, limit);
  }

  lemma AskKnows(a: Side, b: Side, ms: seq<Message>, c: Coord)
    requires ms != []
    ensures OneKnows(Side(c, Waits, a.inbox), Sending(b, ms))
  {
    assert |Packets(ms)| > 0;
    hide Told;
  }

  /** The look after an input, of which a1 and b1 are what it left and m1 what was sent. */
  lemma LookAlive(n: Network, f: nat, a1: Side, b1: Side, m1: seq<Message>, m: Network, limit: Time)
    requires IsPair(n) && f <= 1 && a1.phase.Waits? && Asks(a1.c) && a1.c.granted < MAX
    requires Follows(a1, b1, false) && Follows(b1, a1, true) && OneKnows(a1, b1)
    requires InLimit(a1, limit) && InLimit(b1, limit)
    requires a1.inbox == SideOf(n, f).inbox && b1 == Sending(SideOf(n, Other(f)), m1)
    requires a1.c.deps[0].fed == n.feds[f].deps[0].fed
    requires var (c, m2) := Step(a1.c, Look); Moves(n, f, c, if Answered(a1.c) then Acts else Waits, m1 + m2, m)
    ensures Alive(m, limit)
  {
    var (c, m2, v) := CheckGrant(a1.c);
    LookFollows(a1, b1);
    LookSpeaks(a1, b1);
    LookKnows(a1, b1);
    LookPlain(a1.c);
    hide Follows, Moves, Unaware, RequestOf, CheckGrant;
    LookedTwice(SideOf(n, Other(f)), m1, m2);
    SidesAfter(n, f, c, if Answered(a1.c) then Acts else Waits, m1 + m2, m);
    AliveAt(m, f, limit);
  }

  lemma HearAlive(n: Network, f: nat, m: Network, limit: Time)
    requires Alive(n, limit) && f <= 1 && n.phase[f].Waits? && SideOf(n, f).inbox != [] && SideOf(n, f).inbox[0].Timing?
    requires var (c, ms, answered) := Turn(n.feds[f], Hear(Other(f), SideOf(n, f).inbox[0].m));
      Moves(Off(n, Other(f), f), f, c, if answered then Acts else Waits, ms, m)
    ensures Alive(m, limit)
  {
    var a, b := SideOf(n, f), SideOf(n, Other(f));
    AliveAt(n, f, limit);
    assert a.c.granted < MAX && a.c.deps[0].fed == Other(f) && Sendable(a.inbox[0].m, b.c.granted);
    HearPlain(a.c, a.inbox[0].m);
    HearFollows(a, b, Waits);
    HearSpeaks(a, b, Waits);
    SidesOff(n, f);
    hide Follows, Moves, Unaware, Turn, Off, Answered;
    var c1 := Step(a.c, Hear(Other(f), a.inbox[0].m)).0;
    OnePacket(Disconnect);
    assert b.inbox + [] == b.inbox;
    var m2 := Step(c1, Look).1;
    assert [] + m2 == m2;
    TurnIs(a.c, Hear(Other(f), a.inbox[0].m));
    LookAlive(Off(n, Other(f), f), f, Side(c1, Waits, a.inbox[1..]), b, [], m, limit);
  }

  lemma TurnIs(c: Coord, i: Input)
    ensures var c1 := Step(c, i).0;
      Turn(c, i) == (Step(c1, Look).0, Step(c, i).1 + Step(c1, Look).1, Answered(c1))
  {
  }

  /** A federate that was halted takes no notice. */
  lemma HaltedTakes(a: Side, b: Side)
    requires Follows(a, b, true) && Follows(b, a, true) && a.c.granted == MAX && a.inbox != []
    ensures var a' := Side(a.c, Calls, a.inbox[1..]); Follows(a', b, true) && Follows(b, a', true) && OneKnows(a', b)
  {
    hide Carries, Low, End, Rests, Told;
  }

  lemma TakeAlive(n: Network, f: nat, m: Network, limit: Time)
    requires Alive(n, limit) && f <= 1 && SideOf(n, f).inbox != []
    requires SideOf(n, f).inbox[0].Timing? ==> !n.phase[f].Waits?
    requires var p := SideOf(n, f).inbox[0];
      var (c, ms) := Step(n.feds[f], if p.Data? then Value(p.time) else Hear(Other(f), p.m));
      Moves(Off(n, Other(f), f), f, c, Taking(n.phase[f]), ms, m)
    ensures Alive(m, limit)
  {
    hide Speaks, Awaits, Unaware, Moves, Off;
    var a, b := SideOf(n, f), SideOf(n, Other(f));
    var p := a.inbox[0];
    AliveAt(n, f, limit);
    SidesOff(n, f);
    assert a.c.deps[0].fed == Other(f);
    var (c, ms) := Step(a.c, if p.Data? then Value(p.time) else Hear(Other(f), p.m));
    OnePacket(Disconnect);
    assert b.inbox + [] == b.inbox;
    if a.c.granted == MAX {
      HaltedTakes(a, b);
    } else if p.Data? {
      DataPlain(a.c, p.time);
      DataFollows(a, b, Taking(a.phase));
      DataSpeaks(a, b, Taking(a.phase));
    } else {
      FirstIsSent(a, b);
      HearPlain(a.c, p.m);
      HearFollows(a, b, Calls);
      HearSpeaks(a, b, Calls);
      NotWaiting(Side(c, Calls, a.inbox[1..]), b);
    }
    hide Follows, Moves, Unaware, Off;
    SidesAfter(Off(n, Other(f), f), f, c, Taking(a.phase), ms, m);
    AliveAt(m, f, limit);
  }

  lemma FirstIsSent(a: Side, b: Side)
    requires Follows(a, b, true) && a.c.granted < MAX && a.inbox != []
    ensures a.inbox[0].Timing? ==> Sendable(a.inbox[0].m, b.c.granted)
  {
  }

  lemma NotWaiting(a: Side, b: Side)
    requires Follows(a, b, false) && !a.phase.Waits?
    ensures Follows(a, b, true) && OneKnows(a, b)
  {
    hide Speaks;
  }

  lemma PublishAlive(n: Network, f: nat, limit: Time)
    requires Alive(n, limit) && f <= 1 && Enabled(n, Publish(f))
    ensures Alive(Apply(n, Publish(f)), limit)
  {
    var a, b := SideOf(n, f), SideOf(n, Other(f));
    AliveAt(n, f, limit);
    PublishKeeps(a, b);
    var m := Apply(n, Publish(f));
    assert a.c.info.outputDelay == 0;
    assert SideOf(m, f) == a && SideOf(m, Other(f)) == b.(inbox := b.inbox + [Data(a.c.granted)]) by {
      hide Follows, Unaware;
    }
    hide Follows, Unaware, Apply;
    AliveAt(m, f, limit);
  }

  /** A request without iteration for at most a time. */
  predicate Modest(action: Action, limit: Time) { action.AskFor? ==> !action.iterate && action.time <= limit }

  lemma ApplyAlive(n: Network, action: Action, limit: Time)
    requires Alive(n, limit) && Enabled(n, action) && Modest(action, limit) && limit <= MAX
    ensures Alive(Apply(n, action), limit)
  {
    match action
    case AskFor(f, time, iterate, newValue, newMessage) =>
      TurnMoves(n, f, Ask(time, iterate, newValue, newMessage));
      hide Turn, Moves, TryGrant, Fed, Follows, Unaware;
      AskAlive(n, f, Ask(time, iterate, newValue, newMessage), Apply(n, action), limit);
    case Publish(f) => PublishAlive(n, f, limit);
    case Deliver(b, a) =>
      assert b == Other(a);
      if n.phase[a].Waits? && n.channels[(b, a)][0].Timing? {
        HearMoves(n, b, a);
        hide Turn, Moves, Apply, Off, Follows, Unaware;
        HearAlive(n, a, Apply(n, action), limit);
      } else {
        TakeMoves(n, b, a);
        hide Moves, Apply, Off, Follows, Unaware;
        TakeAlive(n, a, Apply(n, action), limit);
      }
  }

  lemma {:induction false} ExecuteAlive(n: Network, run: seq<Action>, limit: Time)
    requires limit <= MAX && Alive(n, limit) && forall k :: 0 <= k < |run| ==> Modest(run[k], limit)
    ensures Alive(Execute(n, run), limit)
    decreases |run|
  {
    hide Alive, Apply;
    if run != [] && Enabled(n, run[0]) {
      ApplyAlive(n, run[0], limit);
      ExecuteAlive(Apply(n, run[0]), run[1..], limit);
    }
  }

  /** Somebody waits, and nobody can do anything. */
  ghost predicate Stuck(n: Network) {
    (exists f :: f in n.phase && n.phase[f].Waits?) && forall action: Action :: !Enabled(n, action)
  }

  lemma StuckSides(n: Network, f: nat)
    requires IsPair(n) && f <= 1 && Stuck(n)
    ensures if n.phase[f].Waits? then Blocked(SideOf(n, f)) else n.feds[f].granted >= MAX
  {
    assert !Enabled(n, AskFor(f, 0, false, MAX, MAX));
    assert !Enabled(n, Deliver(Other(f), f));
  }

  /** A standstill is only possible if a federate that can be interrupted has asked for no time in
      particular. */
  lemma StuckAtTheEnd(n: Network, limit: Time)
    requires Alive(n, limit) && Stuck(n)
    ensures limit >= MAX && exists f :: 0 <= f <= 1 && AtTheEnd(SideOf(n, f))
  {
    var f :| f in n.phase && n.phase[f].Waits?;
    var g := Other(f);
    AliveAt(n, f, limit);
    StuckSides(n, f);
    StuckSides(n, g);
    SomebodyMoves(SideOf(n, f), SideOf(n, g));
  }

  // ---------- two uninterruptible federates, which may iterate

  ghost predicate Steady(c: Coord) {
    && c.info == PLAIN.(uninterruptible := true) && c.hasDependents && |c.deps| == 1 && c.deps[0].forward == MAX
    && c.block == MAX && c.base == c.granted && 0 <= c.granted <= MAX && c.exec == c.requested
  }

  ghost predicate Requests(c: Coord) {
    Steady(c) && c.granted <= c.requested <= MAX && c.granted < MAX && c.next == c.requested
  }

  /** Its time cannot be granted yet. */
  ghost predicate Stays(c: Coord) {
    && Requests(c)
    && var d := c.deps[0];
    if c.exec == MAX then d.next < MAX
    else d.next < c.exec || (d.next == c.exec && c.iterating && c.exec <= c.granted && d.state == TimeGranted)
  }

  lemma SteadyFactors(c: Coord)
    requires Requests(c)
    ensures var c' := UpdateFactors(c).0;
      c' == c.(minminDe := c'.minminDe, minDe := c'.minDe, allow := Min(MAX, c.deps[0].next))
  {
    hide NextPossibleTime, AllowedTime;
    assert c.deps == [c.deps[0]];
    Single(c.deps[0]);
  }

  lemma LookSteady(c: Coord)
    requires Requests(c)
    ensures var (c', ms, v) := CheckGrant(c);
      match v
      case Continue =>
        && Stays(c') && c'.deps == c.deps && c'.iterating == c.iterating && c'.requested == c.requested
        && c'.granted == c.granted && (ms == [] || ms == [RequestOf(c')])
      case Halted => Steady(c') && c'.granted == MAX && ms == [Disconnect] && c'.deps == c.deps
      case _ =>
        && Steady(c') && c'.granted == c.exec < MAX && ms == [Grant(c.exec)]
        && c'.deps[0] == if c.iterating then IterationReset(c.exec, c.deps[0]) else c.deps[0]
  {
    hide UpdateFactors;
    SteadyFactors(c);
    assert c.deps == [c.deps[0]];
    Single(c.deps[0]);
    var c1 := UpdateFactors(c).0;
    assert c1.deps == c.deps && c1.exec == c.exec;
  }

  lemma AskSteady(c: Coord, i: Input)
    requires Steady(c) && c.granted < MAX && i.Ask? && i.time <= MAX
    ensures var (c', ms) := Step(c, i);
      Requests(c') && c'.deps == [EventReset(c.granted, c.deps[0])] && c'.granted == c.granted && ms == [RequestOf(c')]
  {
    assert NextPossibleTime(c.info, c.granted, c.base) == c.granted + 1;
    hide NextPossibleTime, AllowedTime;
    assert c.deps == [c.deps[0]];
    Single(c.deps[0]);
    Single(EventReset(c.granted, c.deps[0]));
  }

  lemma TakeSteady(c: Coord, p: Packet)
    requires Steady(c) && c.granted < MAX && (p.Timing? ==> p.m.Request? || p.m.Grant? || p.m.Disconnect?)
    ensures var (c', ms) := Step(c, if p.Data? then Value(p.time) else Hear(c.deps[0].fed, p.m));
      && ms == [] && Steady(c') && (Requests(c) ==> Requests(c'))
      && c' == c.(value := c'.value, deps := [if p.Timing? then Process(c.deps[0], p.m).0 else c.deps[0]])
      && (Stays(c) && p.Data? ==> Stays(c'))
  {
    hide NextPossibleTime, AllowedTime;
    assert c.deps == [c.deps[0]];
    Single(c.deps[0]);
  }

  /** The last word of a federate that waits, or was halted. */
  predicate LastWord(b: Side, d: Dependency, ps: seq<Packet>) {
    && (forall k :: 0 <= k < |ps| && ps[k].Timing? ==> ps[k].m.Request? || ps[k].m.Grant? || ps[k].m.Disconnect?)
    && (b.phase.Waits? ==>
      if ps == [] then d.next == b.c.requested
      else CarriesRequest(ps[|ps| - 1]) && ps[|ps| - 1].m.next == b.c.requested)
    && (b.c.granted == MAX ==> if ps == [] then d.next == MAX else ps[|ps| - 1] == Timing(Disconnect))
  }

  ghost predicate Heeds(a: Side, b: Side, looked: bool) {
    && Steady(a.c) && (a.phase.Waits? ==> if looked then Stays(a.c) else Requests(a.c))
    && (a.c.granted < MAX ==> LastWord(b, a.c.deps[0], a.inbox))
  }

  /** At most one of two that wait was taken for one that acts. */
  ghost predicate OneActs(a: Side, b: Side) {
    a.phase.Waits? && b.phase.Waits? && a.inbox == [] && b.inbox == [] && a.c.deps != [] && b.c.deps != [] ==>
      a.c.deps[0].state != TimeGranted || b.c.deps[0].state != TimeGranted
  }

  ghost predicate Firmly(a: Side, b: Side, looked: bool) { Heeds(a, b, looked) && Heeds(b, a, true) && OneActs(a, b) }

  lemma AskFirmly(a: Side, b: Side, i: Input)
    requires Firmly(a, b, true) && !a.phase.Waits? && a.c.granted < MAX && i.Ask? && i.time <= MAX
    ensures var (c, ms) := Step(a.c, i); Firmly(Side(c, Waits, a.inbox), Sending(b, ms), false)
  {
    AskSteady(a.c, i);
    hide Step;
    OnePacket(Step(a.c, i).1[0]);
  }

  lemma LookFirmly(a: Side, b: Side)
    requires Firmly(a, b, false) && a.phase.Waits?
    ensures var (c, ms, v) := CheckGrant(a.c);
      Firmly(Side(c, if v.Continue? then Waits else Acts, a.inbox), Sending(b, ms), true)
  {
    LookSteady(a.c);
    hide CheckGrant;
    var ms := CheckGrant(a.c).1;
    if ms != [] {
      OnePacket(ms[0]);
    } else {
      OnePacket(Disconnect);
      assert b.inbox + [] == b.inbox;
    }
  }

  lemma TakeFirmly(a: Side, b: Side, phase: Phase)
    requires Firmly(a, b, true) && Heard(a.phase, phase) && a.inbox != []
    ensures var p := a.inbox[0];
      var (c, ms) := Step(a.c, if p.Data? then Value(p.time) else Hear(a.c.deps[0].fed, p.m));
      ms == [] && Firmly(Side(c, phase, a.inbox[1..]), b, p.Data? || !phase.Waits?)
  {
    var p := a.inbox[0];
    if a.c.granted < MAX {
      TakeSteady(a.c, p);
      hide Step;
    }
  }

  lemma PublishFirmly(a: Side, b: Side)
    requires Firmly(a, b, true) && a.phase.Acts? && a.c.granted < MAX
    ensures Firmly(a, b.(inbox := b.inbox + [Data(a.c.granted)]), true)
  {
  }

  lemma FirmlyMoves(a: Side, b: Side)
    requires Firmly(a, b, true) && a.phase.Waits? && Blocked(a) && (b.phase.Waits? ==> Blocked(b))
    ensures !b.phase.Waits? && b.c.granted < MAX
  {
  }

  // ---------- every run of two uninterruptible federates

  ghost predicate FirmPair(n: Network) { IsPair(n) && Firmly(SideOf(n, 0), SideOf(n, 1), true) }

  lemma FirmAt(n: Network, f: nat)
    requires IsPair(n) && f <= 1
    ensures FirmPair(n) <==> Firmly(SideOf(n, f), SideOf(n, Other(f)), true)
  {
    hide Heeds;
  }

  /** The look after an input, of which a1 and b1 are what it left and m1 what was sent. */
  lemma LookFirm(n: Network, f: nat, a1: Side, b1: Side, m1: seq<Message>, m: Network)
    requires IsPair(n) && f <= 1 && a1.phase.Waits? && Firmly(a1, b1, false)
    requires a1.inbox == SideOf(n, f).inbox && b1 == Sending(SideOf(n, Other(f)), m1)
    requires a1.c.deps[0].fed == n.feds[f].deps[0].fed
    requires var (c, m2) := Step(a1.c, Look); Moves(n, f, c, if Answered(a1.c) then Acts else Waits, m1 + m2, m)
    ensures FirmPair(m)
  {
    var (c, m2, v) := CheckGrant(a1.c);
    LookFirmly(a1, b1);
    LookSteady(a1.c);
    assert c.deps[0].fed == a1.c.deps[0].fed;
    hide Firmly, Moves, CheckGrant;
    LookedTwice(SideOf(n, Other(f)), m1, m2);
    SidesAfter(n, f, c, if Answered(a1.c) then Acts else Waits, m1 + m2, m);
    FirmAt(m, f);
  }

  lemma AskFirm(n: Network, f: nat, i: Input, m: Network)
    requires FirmPair(n) && f <= 1 && i.Ask? && i.time <= MAX && !n.phase[f].Waits? && n.feds[f].granted < MAX
    requires var (c, ms, answered) := Turn(n.feds[f], i); Moves(n, f, c, if answered then Acts else Waits, ms, m)
    ensures FirmPair(m)
  {
    var a, b := SideOf(n, f), SideOf(n, Other(f));
    FirmAt(n, f);
    AskSteady(a.c, i);
    AskFirmly(a, b, i);
    var (c1, m1) := Step(a.c, i);
    hide Firmly, Moves, Turn;
    TurnIs(a.c, i);
    LookFirm(n, f, Side(c1, Waits, a.inbox), Sending(b, m1), m1, m);
  }

  lemma HearFirm(n: Network, f: nat, m: Network)
    requires FirmPair(n) && f <= 1 && n.phase[f].Waits? && SideOf(n, f).inbox != [] && SideOf(n, f).inbox[0].Timing?
    requires var (c, ms, answered) := Turn(n.feds[f], Hear(Other(f), SideOf(n, f).inbox[0].m));
      Moves(Off(n, Other(f), f), f, c, if answered then Acts else Waits, ms, m)
    ensures FirmPair(m)
  {
    var a, b := SideOf(n, f), SideOf(n, Other(f));
    FirmAt(n, f);
    assert a.c.deps[0].fed == Other(f) && a.c.granted < MAX;
    TakeSteady(a.c, a.inbox[0]);
    TakeFirmly(a, b, Waits);
    SidesOff(n, f);
    hide Firmly, Moves, Turn, Off, Answered;
    var c1 := Step(a.c, Hear(Other(f), a.inbox[0].m)).0;
    OnePacket(Disconnect);
    assert b.inbox + [] == b.inbox;
    var m2 := Step(c1, Look).1;
    assert [] + m2 == m2;
    TurnIs(a.c, Hear(Other(f), a.inbox[0].m));
    LookFirm(Off(n, Other(f), f), f, Side(c1, Waits, a.inbox[1..]), b, [], m);
  }

  lemma TakeFirm(n: Network, f: nat, m: Network)
    requires FirmPair(n) && f <= 1 && SideOf(n, f).inbox != [] && (SideOf(n, f).inbox[0].Timing? ==> !n.phase[f].Waits?)
    requires var p := SideOf(n, f).inbox[0];
      var (c, ms) := Step(n.feds[f], if p.Data? then Value(p.time) else Hear(Other(f), p.m));
      Moves(Off(n, Other(f), f), f, c, Taking(n.phase[f]), ms, m)
    ensures FirmPair(m)
  {
    var a, b := SideOf(n, f), SideOf(n, Other(f));
    FirmAt(n, f);
    SidesOff(n, f);
    assert a.c.deps[0].fed == Other(f);
    var p := a.inbox[0];
    var (c, ms) := Step(a.c, if p.Data? then Value(p.time) else Hear(Other(f), p.m));
    TakeFirmly(a, b, Taking(a.phase));
    if a.c.granted < MAX {
      TakeSteady(a.c, p);
    }
    OnePacket(Disconnect);
    assert b.inbox + [] == b.inbox;
    hide Firmly, Moves, Off;
    SidesAfter(Off(n, Other(f), f), f, c, Taking(a.phase), ms, m);
    FirmAt(m, f);
  }

  lemma PublishFirm(n: Network, f: nat)
    requires FirmPair(n) && f <= 1 && Enabled(n, Publish(f))
    ensures FirmPair(Apply(n, Publish(f)))
  {
    var a, b := SideOf(n, f), SideOf(n, Other(f));
    FirmAt(n, f);
    PublishFirmly(a, b);
    var m := Apply(n, Publish(f));
    assert a.c.info.outputDelay == 0;
    assert SideOf(m, f) == a && SideOf(m, Other(f)) == b.(inbox := b.inbox + [Data(a.c.granted)]) by {
      hide Firmly;
    }
    hide Firmly, Apply;
    FirmAt(m, f);
  }

  lemma ApplyFirm(n: Network, action: Action)
    requires FirmPair(n) && Enabled(n, action) && (action.AskFor? ==> action.time <= MAX)
    ensures FirmPair(Apply(n, action))
  {
    match action
    case AskFor(f, time, iterate, newValue, newMessage) =>
      TurnMoves(n, f, Ask(time, iterate, newValue, newMessage));
      hide Turn, Moves, TryGrant, Fed, Firmly;
      AskFirm(n, f, Ask(time, iterate, newValue, newMessage), Apply(n, action));
    case Publish(f) => PublishFirm(n, f);
    case Deliver(b, a) =>
      assert b == Other(a);
      if n.phase[a].Waits? && n.channels[(b, a)][0].Timing? {
        HearMoves(n, b, a);
        hide Turn, Moves, Apply, Off, Firmly;
        HearFirm(n, a, Apply(n, action));
      } else {
        TakeMoves(n, b, a);
        hide Moves, Apply, Off, Firmly;
        TakeFirm(n, a, Apply(n, action));
      }
  }

  lemma {:induction false} ExecuteFirm(n: Network, run: seq<Action>)
    requires FirmPair(n) && forall k :: 0 <= k < |run| && run[k].AskFor? ==> run[k].time <= MAX
    ensures FirmPair(Execute(n, run))
    decreases |run|
  {
    hide FirmPair, Apply;
    if run != [] && Enabled(n, run[0]) {
      ApplyFirm(n, run[0]);
      ExecuteFirm(Apply(n, run[0]), run[1..]);
    }
  }

  lemma FirmIsNotStuck(n: Network)
    requires FirmPair(n)
    ensures !Stuck(n)
  {
    if Stuck(n) {
      var f :| f in n.phase && n.phase[f].Waits?;
      FirmAt(n, f);
      StuckSides(n, f);
      StuckSides(n, Other(f));
      FirmlyMoves(SideOf(n, f), SideOf(n, Other(f)));
    }
  }
}
