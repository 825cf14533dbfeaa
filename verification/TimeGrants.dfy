/** What holds of the times that one federate is granted, in every run. */
module TimeGrants {
  import opened TimeDependencies
  import opened TimeCoordinator

  // ---------- what a grant respects

  lemma {:induction false} FactorsBelow(f: Factors, ds: seq<Dependency>, i: nat)
    requires i < |ds|
    ensures FactorsOf(f, ds).next <= ds[i].next
    decreases |ds|
  {
    if i < |ds| - 1 {
      FactorsBelow(f, ds[..|ds| - 1], i);
    }
  }

  lemma AllowBelow(c: Coord, i: nat)
    requires i < |c.deps|
    ensures UpdateFactors(c).0.allow <= c.deps[i].next + c.info.inputDelay || c.deps[i].next >= MAX
  {
    var start := Min(c.value, c.message);
    FactorsBelow(Factors(MAX, start, start), c.deps, i);
  }

  predicate IsGrant(v: Verdict) { v.NextStep? || v.Iterating? }

  /** A grant is for the time to execute at, and no dependency can act before it. */
  lemma GrantIsAllowed(c: Coord, i: nat)
    requires IsGrant(CheckGrant(c).2) && i < |c.deps|
    ensures var c' := CheckGrant(c).0;
      && c'.granted == c'.exec == c'.base
      && |c'.deps| == |c.deps| && c'.deps[i].fed == c.deps[i].fed && c'.deps[i].next == c.deps[i].next
      && (c'.granted <= c.deps[i].next + c.info.inputDelay || c.deps[i].next >= MAX)
  {
    AllowBelow(c, i);
  }

  /** The least next time is that of some dependency. */
  lemma {:induction false} FactorsNext(f: Factors, ds: seq<Dependency>)
    ensures var least := FactorsOf(f, ds).next;
      least <= f.next && (least == f.next || exists i :: 0 <= i < |ds| && ds[i].next == least)
    decreases |ds|
  {
    if ds != [] {
      var most := ds[..|ds| - 1];
      FactorsNext(f, most);
      if FactorsOf(f, ds).next != f.next && FactorsOf(f, most).next == FactorsOf(f, ds).next {
        var i :| 0 <= i < |most| && most[i].next == FactorsOf(f, most).next;
        assert ds[i] == most[i];
      }
    }
  }

  /** A time is before all that the dependencies can still send, or not after it. Dependencies
      that will not act again do not count, and nothing comes at MAX. */
  ghost predicate Before(c: Coord, t: Time, strictly: bool) {
    && (forall i :: 0 <= i < |c.deps| && c.deps[i].next < MAX ==>
          var from := c.deps[i].next + c.info.inputDelay; t < from || (!strictly && t == from))
    && ((forall i :: 0 <= i < |c.deps| ==> c.deps[i].next >= MAX) ==> t < MAX || (!strictly && t == MAX))
  }

  lemma AllowIs(c: Coord, t: Time)
    ensures Before(c, t, true) <==> UpdateFactors(c).0.allow > t
    ensures Before(c, t, false) <==> UpdateFactors(c).0.allow >= t
  {
    hide AllowedTime, EventTime, ExecTime;
    var start := Min(c.value, c.message);
    var f := Factors(MAX, start, start);
    FactorsNext(f, c.deps);
    forall i | 0 <= i < |c.deps|
      ensures FactorsOf(f, c.deps).next <= c.deps[i].next
    {
      FactorsBelow(f, c.deps, i);
    }
  }

  /** A time is granted exactly if it is not blocked and before all that the dependencies can
      still send, or just when that starts, for a federate that asked for no later time or whose
      dependencies are done with that time. A federate halts exactly if nothing is left to come. */
  lemma GrantedIfAllowed(c: Coord)
    ensures var t := UpdateFactors(c).0.exec;
      IsGrant(CheckGrant(c).2) <==>
        && c.block > t
        && (Before(c, t, true)
            || (t != MAX && Before(c, t, false)
                && ((!(c.iterating && t <= c.granted) && c.requested <= t) || ReadyForGrant(c.deps, t))))
    ensures var t := UpdateFactors(c).0.exec;
      CheckGrant(c).2.Halted? <==> t == MAX && Before(c, MAX, false) && !Before(c, MAX, true)
  {
    var t := UpdateFactors(c).0.exec;
    AllowIs(c, t);
    hide AllowedTime, EventTime, ExecTime, ReadyForGrant, ToDependents, FactorsOf;
  }

  // ---------- rounding up to periods

  /** A whole number of periods. */
  ghost predicate Multiple(t: Time, period: Time) { exists n: int :: t == n * period }

  lemma RoundedUp(a: Time, b: Time)
    requires b > 0
    ensures CeilDiv(a, b) * b >= a
  {
    var q := (a + b - 1) / b;
    assert a + b - 1 == q * b + (a + b - 1) % b;
  }

  lemma AllowedIsLater(info: Options, base: Time, t: Time)
    ensures AllowedTime(info, base, t) >= t
  {
    if info.period > EPSILON && t - base > info.period {
      RoundedUp(t - base, info.period);
    }
  }

  lemma {:induction false} AddedIsLater(t: Time, period: Time, limit: Time)
    requires period > 0
    ensures AddPeriods(t, period, limit) >= Max(t, limit)
    decreases limit - t
  {
    if t < limit {
      AddedIsLater(t + period, period, limit);
    }
  }

  /** Two grants are at least the smallest time step apart. */
  lemma NextIsLater(info: Options, granted: Time)
    requires info.Ok() && granted >= 0
    ensures NextPossibleTime(info, granted, granted) >= granted + info.timeDelta
  {
    AllowedIsLater(info, granted, Max(info.timeDelta, info.period));
    AllowedIsLater(info, granted, granted + Max(info.timeDelta, info.period));
    if info.period > EPSILON {
      AddedIsLater(info.offset + info.period, info.period, info.timeDelta);
    }
  }

  lemma SumOfMultiples(base: Time, k: int, period: Time)
    requires Multiple(base, period)
    ensures Multiple(base + k * period, period)
  {
    var n :| base == n * period;
    assert base + k * period == (n + k) * period;
  }

  lemma AllowedIsMultiple(info: Options, base: Time, t: Time)
    requires info.period > EPSILON && t != MAX && Multiple(base, info.period)
    ensures Multiple(AllowedTime(info, base, t), info.period)
  {
    SumOfMultiples(base, CeilDiv(t - base, info.period), info.period);
    SumOfMultiples(base, 1, info.period);
  }

  /** A whole number of periods after a time, and at least one. */
  ghost predicate Later(base: Time, period: Time, t: Time) { exists n: int :: n >= 1 && t == base + n * period }

  /** The least time not before t that is a whole number of periods after the last grant. */
  ghost predicate Least(base: Time, period: Time, t: Time, r: Time) {
    Later(base, period, r) && r >= t && forall x :: Later(base, period, x) && x >= t ==> r <= x
  }

  /** What a federate is granted for a time that it asks for: without a period the time itself. */
  ghost predicate Rounds(info: Options, base: Time, t: Time, r: Time) {
    if info.period <= EPSILON || t == MAX then r == t else Least(base, info.period, t, r)
  }

  lemma LaterIsAbove(base: Time, period: Time, n: int, x: Time)
    requires period > 0 && n >= 1 && Later(base, period, x) && x > base + (n - 1) * period
    ensures base + n * period <= x
  {
    var k :| k >= 1 && x == base + k * period;
    InOrder(k, n - 1, period);
    InOrder(n, k, period);
  }

  lemma InOrder(m: int, n: int, period: Time)
    requires period > 0
    ensures m <= n <==> m * period <= n * period
  {
    var p: int := period;
    assert (n - m) * p == n * p - m * p;
  }

  lemma OnePeriod(base: Time, period: Time)
    ensures Later(base, period, base + period)
  {
    assert base + period == base + 1 * period;
  }

  /** Times are rounded up to the least whole number of periods, and to no other. */
  lemma AllowedIsLeast(info: Options, base: Time, t: Time)
    ensures Rounds(info, base, t, AllowedTime(info, base, t))
  {
    var p := info.period;
    if p > EPSILON && t != MAX {
      if t - base > p {
        var n := CeilDiv(t - base, p);
        CeilDivIs(t - base, p);
        assert base + n * p == AllowedTime(info, base, t);
        forall x | Later(base, p, x) && x >= t
          ensures AllowedTime(info, base, t) <= x
        {
          LaterIsAbove(base, p, n, x);
        }
      } else {
        OnePeriod(base, p);
        forall x | Later(base, p, x)
          ensures base + p <= x
        {
          var k :| k >= 1 && x == base + k * p;
          InOrder(1, k, p);
        }
      }
    }
  }

  lemma CeilDivIs(a: Time, b: Time)
    requires 0 < b <= a
    ensures var n := CeilDiv(a, b); n >= 1 && n * b >= a > (n - 1) * b
  {
    var n := CeilDiv(a, b);
    RoundedUp(a, b);
    assert a + b - 1 == n * b + (a + b - 1) % b;
    assert (n - 1) * b == n * b - b;
    InOrder(1, n, b);
  }

  /** The first time after an offset, whole periods later, that is not before a limit. */
  lemma {:induction false} AddedIsLeast(t: Time, period: Time, limit: Time)
    requires period > 0
    ensures var r := AddPeriods(t, period, limit);
      r >= limit && Later(t - period, period, r) && (r == t || r - period < limit)
    decreases limit - t
  {
    if t < limit {
      AddedIsLeast(t + period, period, limit);
      var r := AddPeriods(t, period, limit);
      var n :| n >= 1 && r == t + n * period;
      assert r == t - period + (n + 1) * period;
    } else {
      OnePeriod(t - period, period);
    }
  }

  /** The next possible time is the first one that the options allow: after a grant the least
      whole number of periods not below the smallest time step, and at the start the offset. */
  lemma NextIsLeast(info: Options, granted: Time)
    requires info.Ok() && 0 <= granted && granted + Max(info.timeDelta, info.period) < MAX
    ensures var r := NextPossibleTime(info, granted, granted);
      if granted == 0 && info.offset > info.timeDelta then r == info.offset
      else if granted == 0 && info.offset > 0 && info.period <= EPSILON then r == info.timeDelta
      else if granted == 0 && info.offset > 0 then
        && r >= info.timeDelta && Later(info.offset, info.period, r)
        && (r == info.offset + info.period || r - info.period < info.timeDelta)
      else if info.period <= EPSILON then r == granted + Max(info.timeDelta, info.period)
      else Least(granted, info.period, granted + info.timeDelta, r)
  {
    var most := Max(info.timeDelta, info.period);
    AllowedIsLeast(info, granted, granted + most);
    if info.period > EPSILON {
      AddedIsLeast(info.offset + info.period, info.period, info.timeDelta);
      forall x | Later(granted, info.period, x)
        ensures x >= granted + info.period
      {
        var k :| k >= 1 && x == granted + k * info.period;
        InOrder(1, k, info.period);
      }
    }
  }

  // ---------- every run of one federate

  /** What can happen to a coordinator: a request, a timing message of a dependency, an
      event that arrives, a look at whether the time can be granted, a new block. */
  datatype Input =
    | Ask(time: Time, iterate: bool, newValue: Time, newMessage: Time)
    | Hear(fed: nat, m: Message)
    | Value(time: Time)
    | Event(time: Time)
    | Look
    | Block(time: Time)

  /** One input, with what is sent. A coordinator that was halted does nothing more. */
  function Step(c: Coord, i: Input): (Coord, seq<Message>) {
    if c.granted == MAX then (c, []) else
      match i
      case Ask(time, iterate, newValue, newMessage) => RequestTime(c, time, iterate, newValue, newMessage)
      case Hear(fed, m) => (Hears(c, fed, m), [])
      case Value(time) => ValueArrives(c, time)
      case Event(time) => MessageArrives(c, time)
      case Look => (CheckGrant(c).0, CheckGrant(c).1)
      case Block(time) => (c.(block := time), [])
  }

  function Run(c: Coord, inputs: seq<Input>): (Coord, seq<Message>)
    decreases |inputs|
  {
    if inputs == [] then (c, []) else
      var (c1, sent) := Run(c, inputs[..|inputs| - 1]);
      var (c2, more) := Step(c1, inputs[|inputs| - 1]);
      (c2, sent + more)
  }

  /** A coordinator that enters execution mode with the given dependencies. */
  function Entered(info: Options, deps: seq<Dependency>, hasDependents: bool): Coord {
    Coord(info, deps, hasDependents, false, 0, 0, MAX, 0, 0, 0, -MAX, MAX, MAX, MAX, MAX)
  }

  /** What every input keeps. */
  ghost predicate Sound(c: Coord) {
    && c.info.Ok() && c.base == c.granted && c.granted >= 0
    && (c.info.uninterruptible ==> c.exec == c.requested && c.requested >= c.granted)
  }

  lemma ExecIsLater(c: Coord)
    requires Sound(c)
    ensures ExecTime(c) >= c.granted
  {
    NextIsLater(c.info, c.granted);
    var event := Min(c.message, c.value);
    var delayed := if event < MAX then event + c.info.inputDelay else event;
    var wanted := Min(c.requested, delayed);
    AllowedIsLater(c.info, c.base, wanted);
    AllowedIsLater(c.info, c.base, NextPossibleTime(c.info, c.granted, c.base));
  }

  /** Granted times never go back. */
  /** A grant is called an iteration exactly if time does not move on. */
  lemma VerdictTells(c: Coord)
    requires Sound(c) && c.granted < MAX && IsGrant(CheckGrant(c).2)
    requires c.info.uninterruptible ==> c.iterating || c.requested > c.granted
    ensures CheckGrant(c).2.Iterating? <==> CheckGrant(c).0.granted == c.granted
  {
    ExecIsLater(c);
    NextIsLater(c.info, c.granted);
    var later := NextPossibleTime(c.info, c.granted, c.base);
    AllowedIsLater(c.info, c.base, later);
    var event := Min(c.message, c.value);
    AllowedIsLater(c.info, c.base, Min(c.requested, if event < MAX then event + c.info.inputDelay else event));
    hide NextPossibleTime, AllowedTime, FactorsOf, ReadyForGrant;
  }

  lemma StepKeeps(c: Coord, i: Input)
    requires Sound(c)
    ensures Sound(Step(c, i).0) && Step(c, i).0.granted >= c.granted && Step(c, i).0.info == c.info
  {
    hide NextPossibleTime, AllowedTime, FactorsOf, EventsReset, IterationsReset, Updated, RequestOf, ReadyForGrant;
    NextIsLater(c.info, c.granted);
    match i
    case Ask(time, iterate, newValue, newMessage) =>
    case Hear(fed, m) =>
    case Value(time) =>
    case Event(time) =>
    case Look => ExecIsLater(UpdateFactors(c).0.(exec := c.exec));
    case Block(time) =>
  }

  lemma {:induction false} RunKeeps(c: Coord, inputs: seq<Input>)
    requires Sound(c)
    ensures Sound(Run(c, inputs).0) && Run(c, inputs).0.granted >= c.granted && Run(c, inputs).0.info == c.info
    decreases |inputs|
  {
    if inputs != [] {
      RunKeeps(c, inputs[..|inputs| - 1]);
      StepKeeps(Run(c, inputs[..|inputs| - 1]).0, inputs[|inputs| - 1]);
    }
  }

  // ---------- the smallest time step

  /** A request without iteration is pending: nothing is due before the next possible time. */
  ghost predicate Waiting(c: Coord) {
    var possible := NextPossibleTime(c.info, c.granted, c.base);
    !c.iterating && c.requested >= possible && c.value >= possible && c.message >= possible
  }

  lemma WaitingExec(c: Coord)
    requires Sound(c) && Waiting(c)
    ensures ExecTime(c) >= c.granted + c.info.timeDelta || ExecTime(c) >= MAX
  {
    NextIsLater(c.info, c.granted);
    var event := Min(c.message, c.value);
    var delayed := if event < MAX then event + c.info.inputDelay else event;
    AllowedIsLater(c.info, c.base, Min(c.requested, delayed));
  }

  lemma WaitingStep(c: Coord, i: Input)
    requires Sound(c) && Waiting(c) && !i.Ask?
    ensures var d := Step(c, i).0;
      (d.granted == c.granted && Waiting(d)) || d.granted >= c.granted + c.info.timeDelta || d.granted >= MAX
  {
    hide NextPossibleTime, AllowedTime, FactorsOf, EventsReset, IterationsReset, Updated, RequestOf, ReadyForGrant;
    if i.Look? && c.granted != MAX {
      WaitingExec(UpdateFactors(c).0.(exec := c.exec));
    }
  }

  lemma {:induction false} WaitingRun(c: Coord, inputs: seq<Input>)
    requires Sound(c) && Waiting(c) && forall k :: 0 <= k < |inputs| ==> !inputs[k].Ask?
    ensures var d := Run(c, inputs).0;
      (d.granted == c.granted && Waiting(d)) || d.granted >= c.granted + c.info.timeDelta || d.granted >= MAX
    decreases |inputs|
  {
    hide Waiting, Step, Sound;
    if inputs != [] {
      var before := inputs[..|inputs| - 1];
      RunKeeps(c, before);
      WaitingRun(c, before);
      var d := Run(c, before).0;
      StepKeeps(d, inputs[|inputs| - 1]);
      if d.granted == c.granted && Waiting(d) {
        WaitingStep(d, inputs[|inputs| - 1]);
      }
    }
  }

  /** After a request without iteration, whatever happens until the next request, the time
      granted stays or moves on by at least the smallest time step. */
  lemma {:induction false} TimeDeltaIsKept(c: Coord, time: Time, newValue: Time, newMessage: Time, inputs: seq<Input>)
    requires Sound(c) && c.granted < MAX && forall k :: 0 <= k < |inputs| ==> !inputs[k].Ask?
    ensures var d := Run(Step(c, Ask(time, false, newValue, newMessage)).0, inputs).0;
      d.granted == c.granted || d.granted >= c.granted + c.info.timeDelta || d.granted >= MAX
  {
    var i := Ask(time, false, newValue, newMessage);
    StepKeeps(c, i);
    assert Waiting(Step(c, i).0) by {
      hide NextPossibleTime, AllowedTime, FactorsOf, EventsReset, RequestOf;
    }
    WaitingRun(Step(c, i).0, inputs);
  }

  // ---------- times before the one that was asked for

  predicate IsNews(i: Input) { i.Ask? || i.Value? || i.Event? }

  /** The earliest data that arrives, other than what was there when the time was asked for. */
  function EarliestNews(known: Time, inputs: seq<Input>): Time
    decreases |inputs|
  {
    if inputs == [] then known else
      var before, i := EarliestNews(known, inputs[..|inputs| - 1]), inputs[|inputs| - 1];
      if i.Value? || i.Event? then Min(before, i.time) else before
  }

  lemma {:induction false} NothingEarlier(known: Time, inputs: seq<Input>)
    requires forall k :: 0 <= k < |inputs| ==> !IsNews(inputs[k])
    ensures EarliestNews(known, inputs) == known
    decreases |inputs|
  {
    if inputs != [] {
      NothingEarlier(known, inputs[..|inputs| - 1]);
    }
  }

  /** A request without iteration is pending, and data is due from the earliest on, but not before
      the next possible time. */
  ghost predicate Informed(c: Coord, requested: Time, earliest: Time) {
    var first := NextPossibleTime(c.info, c.granted, c.base);
    && !c.iterating && !c.info.uninterruptible && c.requested == requested
    && c.value >= first && c.message >= first && Min(c.value, c.message) == Max(earliest, first)
  }

  lemma InformedStep(c: Coord, requested: Time, earliest: Time, i: Input)
    requires Sound(c) && Informed(c, requested, earliest) && !i.Ask? && Step(c, i).0.granted == c.granted < MAX
    ensures Informed(Step(c, i).0, requested, if i.Value? || i.Event? then Min(earliest, i.time) else earliest)
  {
    hide NextPossibleTime, AllowedTime, FactorsOf, EventsReset, IterationsReset, Updated, RequestOf, ReadyForGrant;
    StepKeeps(c, i);
  }

  lemma {:induction false} InformedRun(c: Coord, requested: Time, known: Time, inputs: seq<Input>)
    requires Sound(c) && Informed(c, requested, known) && forall k :: 0 <= k < |inputs| ==> !inputs[k].Ask?
    requires Run(c, inputs).0.granted == c.granted < MAX
    ensures Informed(Run(c, inputs).0, requested, EarliestNews(known, inputs))
    decreases |inputs|
  {
    hide Step, Informed;
    if inputs != [] {
      var most, i := inputs[..|inputs| - 1], inputs[|inputs| - 1];
      RunKeeps(c, most);
      StepKeeps(Run(c, most).0, i);
      InformedRun(c, requested, known, most);
      InformedStep(Run(c, most).0, requested, EarliestNews(known, most), i);
    }
  }

  lemma AskInforms(c: Coord, time: Time, newValue: Time, newMessage: Time)
    requires Sound(c) && c.granted < MAX && !c.info.uninterruptible
    ensures Informed(Step(c, Ask(time, false, newValue, newMessage)).0,
                     Max(time, NextPossibleTime(c.info, c.granted, c.base)), Min(newValue, newMessage))
  {
    hide NextPossibleTime, AllowedTime, FactorsOf, EventsReset, RequestOf;
  }

  lemma LookInformed(c: Coord, requested: Time, earliest: Time)
    requires Sound(c) && Informed(c, requested, earliest) && requested >= NextPossibleTime(c.info, c.granted, c.base)
    ensures var d := Step(c, Look).0;
      var due := Max(earliest, NextPossibleTime(c.info, c.granted, c.base));
      var wanted := Min(requested, if due < MAX then due + c.info.inputDelay else due);
      d.granted == c.granted || d.granted == AllowedTime(c.info, c.granted, wanted)
  {
    NextIsLater(c.info, c.granted);
    hide NextPossibleTime, AllowedTime, FactorsOf, IterationsReset, RequestOf, ReadyForGrant;
  }

  /** An interruptible federate that asks for a time is granted that time, or the time at which it
      notices the earliest data that was there or arrived, whichever is first, rounded up to
      its period. */
  lemma {:induction false} GrantedForNews(c: Coord, time: Time, newValue: Time, newMessage: Time, inputs: seq<Input>)
    requires Sound(c) && c.granted < MAX && !c.info.uninterruptible
    requires forall k :: 0 <= k < |inputs| ==> !inputs[k].Ask?
    ensures var waiting := Run(Step(c, Ask(time, false, newValue, newMessage)).0, inputs).0;
      var first := NextPossibleTime(c.info, c.granted, c.base);
      var due := Max(EarliestNews(Min(newValue, newMessage), inputs), first);
      var wanted := Min(Max(time, first), if due < MAX then due + c.info.inputDelay else due);
      var t := Step(waiting, Look).0.granted;
      waiting.granted == c.granted && t != c.granted ==> Rounds(c.info, c.granted, wanted, t)
  {
    hide Run, Step, NextPossibleTime, AllowedTime, Informed, Rounds;
    var i := Ask(time, false, newValue, newMessage);
    var asked, first := Step(c, i).0, NextPossibleTime(c.info, c.granted, c.base);
    var requested, known := Max(time, first), Min(newValue, newMessage);
    AskInforms(c, time, newValue, newMessage);
    StepKeeps(c, i);
    RunKeeps(asked, inputs);
    if Run(asked, inputs).0.granted == c.granted {
      InformedRun(asked, requested, known, inputs);
      LookInformed(Run(asked, inputs).0, requested, EarliestNews(known, inputs));
      var due := Max(EarliestNews(known, inputs), first);
      AllowedIsLeast(c.info, c.granted, Min(requested, if due < MAX then due + c.info.inputDelay else due));
    }
  }

  /** A federate that asks for a time is granted that time, rounded up to its period, or an
      earlier one only if data has arrived for it. */
  lemma {:induction false} EarlierMeansNews(c: Coord, time: Time, inputs: seq<Input>)
    requires Sound(c) && c.granted < MAX && time <= MAX && NextPossibleTime(c.info, c.granted, c.base) <= MAX
    requires forall k :: 0 <= k < |inputs| ==> !IsNews(inputs[k])
    ensures var waiting := Run(Step(c, Ask(time, false, MAX, MAX)).0, inputs).0;
      var t := Step(waiting, Look).0.granted;
      var requested := Max(time, NextPossibleTime(c.info, c.granted, c.base));
      waiting.granted == c.granted && t != c.granted ==>
        if c.info.uninterruptible then t == requested else Rounds(c.info, c.granted, requested, t)
  {
    hide Run, Step, NextPossibleTime, Rounds;
    if c.info.uninterruptible {
      UninterruptibleGrant(c, Ask(time, false, MAX, MAX), inputs);
    } else {
      NothingEarlier(MAX, inputs);
      GrantedForNews(c, time, MAX, MAX, inputs);
    }
  }

  /** A federate that asks for whole periods after its last grant, and not for less than the next
      possible time, is granted exactly that time if there are no news. */
  lemma {:induction false} WholePeriodsAreGranted(c: Coord, time: Time, inputs: seq<Input>)
    requires Sound(c) && c.granted < MAX && c.info.period > EPSILON && Later(c.granted, c.info.period, time)
    requires NextPossibleTime(c.info, c.granted, c.base) <= time < MAX
    requires forall k :: 0 <= k < |inputs| ==> !IsNews(inputs[k])
    ensures var waiting := Run(Step(c, Ask(time, false, MAX, MAX)).0, inputs).0;
      var t := Step(waiting, Look).0.granted;
      waiting.granted == c.granted && t != c.granted ==> t == time
  {
    hide Run, Step, NextPossibleTime, Later;
    EarlierMeansNews(c, time, inputs);
  }

  // ---------- period and offset

  /** Interruptible federates with a period are granted whole numbers of periods. */
  ghost predicate OnGrid(c: Coord) {
    && !c.info.uninterruptible && c.info.period > EPSILON
    && (c.granted == MAX || Multiple(c.granted, c.info.period))
  }

  lemma GridStep(c: Coord, i: Input)
    requires Sound(c) && OnGrid(c)
    ensures OnGrid(Step(c, i).0)
  {
    hide NextPossibleTime, AllowedTime, FactorsOf, EventsReset, IterationsReset, Updated, RequestOf, ReadyForGrant;
    hide Multiple;
    if i.Look? && c.granted != MAX {
      var c1 := UpdateFactors(c).0;
      GridExec(c1.(exec := c.exec));
    }
  }

  lemma GridExec(c: Coord)
    requires Sound(c) && OnGrid(c) && c.granted != MAX
    ensures ExecTime(c) == MAX || Multiple(ExecTime(c), c.info.period)
  {
    hide NextPossibleTime, AllowedTime, Multiple;
    var event := Min(c.message, c.value);
    var delayed := if event < MAX then event + c.info.inputDelay else event;
    var wanted := Min(c.requested, delayed);
    var later := if wanted > c.granted then wanted
                 else if c.iterating then c.granted
                 else NextPossibleTime(c.info, c.granted, c.base);
    NextIsLater(c.info, c.granted);
    if later == MAX {
      assert AllowedTime(c.info, c.base, MAX) == MAX by { AllowedMax(c.info, c.base); }
    } else {
      AllowedIsMultiple(c.info, c.base, later);
    }
  }

  lemma AllowedMax(info: Options, base: Time)
    ensures AllowedTime(info, base, MAX) == MAX
  {
  }

  lemma {:induction false} GridRun(c: Coord, inputs: seq<Input>)
    requires Sound(c) && OnGrid(c)
    ensures OnGrid(Run(c, inputs).0)
    decreases |inputs|
  {
    hide OnGrid, Sound, Step;
    if inputs != [] {
      RunKeeps(c, inputs[..|inputs| - 1]);
      GridRun(c, inputs[..|inputs| - 1]);
      GridStep(Run(c, inputs[..|inputs| - 1]).0, inputs[|inputs| - 1]);
    }
  }

  /** The documentation promises that granted times are a whole number of periods plus the
      offset. For an interruptible federate with a period this is so, in any run, if and only
      if the offset is itself a whole number of periods. */
  lemma {:induction false} PeriodAndOffset(info: Options, deps: seq<Dependency>, hasDependents: bool,
                                           inputs: seq<Input>)
    requires info.Ok() && !info.uninterruptible && info.period > EPSILON
    requires Run(Entered(info, deps, hasDependents), inputs).0.granted < MAX
    ensures var t := Run(Entered(info, deps, hasDependents), inputs).0.granted;
      Multiple(t, info.period) && (Multiple(t - info.offset, info.period) <==> Multiple(info.offset, info.period))
  {
    var c := Entered(info, deps, hasDependents);
    assert Multiple(0, info.period) by { assert 0 == 0 * info.period; }
    GridRun(c, inputs);
    RunKeeps(c, inputs);
    Differences(Run(c, inputs).0.granted, info.offset, info.period);
  }

  lemma Differences(t: Time, offset: Time, period: Time)
    requires Multiple(t, period)
    ensures Multiple(t - offset, period) <==> Multiple(offset, period)
  {
    var n :| t == n * period;
    if Multiple(offset, period) {
      var k :| offset == k * period;
      assert t - offset == (n - k) * period;
    }
    if Multiple(t - offset, period) {
      var k :| t - offset == k * period;
      assert offset == (n - k) * period;
    }
  }

  /** A federate with period 10 and offset 3 that asks for time 3 is granted time 10. */
  lemma OffsetIsLost()
    ensures var c := Entered(Options(EPSILON, 0, 0, 3, 10, false), [], false);
      Run(c, [Ask(3, false, MAX, MAX), Look]).0.granted == 10
  {
    var c := Entered(Options(EPSILON, 0, 0, 3, 10, false), [], false);
    var inputs := [Ask(3, false, MAX, MAX), Look];
    assert inputs[..1] == [Ask(3, false, MAX, MAX)] && inputs[..1][..0] == [];
    assert Run(c, []) == (c, []);
  }

  lemma {:induction false} RequestStays(c: Coord, inputs: seq<Input>)
    requires forall k :: 0 <= k < |inputs| ==> !inputs[k].Ask?
    ensures Run(c, inputs).0.requested == c.requested && Run(c, inputs).0.info == c.info
    decreases |inputs|
  {
    hide NextPossibleTime, AllowedTime, FactorsOf, IterationsReset, Updated, RequestOf, ReadyForGrant, ExecTime;
    hide EventTime;
    if inputs != [] {
      RequestStays(c, inputs[..|inputs| - 1]);
    }
  }

  /** Whatever happens until the next request, an uninterruptible federate is granted the time
      it asked for or, if that is later, the next possible one. It is a whole number of periods
      exactly when the later of these two is. */
  lemma {:induction false} UninterruptibleGrant(c: Coord, i: Input, inputs: seq<Input>)
    requires Sound(c) && c.granted < MAX && c.info.uninterruptible
    requires i.Ask? && forall k :: 0 <= k < |inputs| ==> !inputs[k].Ask?
    ensures var waiting := Run(Step(c, i).0, inputs).0;
      var d := Step(waiting, Look).0;
      var first := if i.iterate then c.granted else NextPossibleTime(c.info, c.granted, c.base);
      d.granted != waiting.granted ==>
        && d.granted == Max(i.time, first)
        && (Multiple(d.granted, c.info.period) <==> Multiple(Max(i.time, first), c.info.period))
  {
    var asked := Step(c, i).0;
    RequestStays(asked, inputs);
    hide NextPossibleTime, AllowedTime, FactorsOf, EventsReset, IterationsReset, RequestOf, ReadyForGrant;
    assert asked.requested == Max(i.time, if i.iterate then c.granted else NextPossibleTime(c.info, c.granted, c.base));
    LookUninterruptible(Run(asked, inputs).0);
  }

  /** An uninterruptible federate with period 10 that asks for time 13 is granted time 13. */
  lemma PeriodIsLost()
    ensures var c := Entered(Options(EPSILON, 0, 0, 0, 10, true), [], false);
      Run(c, [Ask(13, false, MAX, MAX), Look]).0.granted == 13 && !Multiple(13, 10)
  {
    var c := Entered(Options(EPSILON, 0, 0, 0, 10, true), [], false);
    var inputs := [Ask(13, false, MAX, MAX), Look];
    assert inputs[..1] == [Ask(13, false, MAX, MAX)] && inputs[..1][..0] == [];
    assert Run(c, []) == (c, []);
  }

  lemma LookUninterruptible(c: Coord)
    requires c.info.uninterruptible
    ensures Step(c, Look).0.granted == c.granted || Step(c, Look).0.granted == c.requested
  {
    hide NextPossibleTime, AllowedTime, FactorsOf, IterationsReset, RequestOf, ReadyForGrant;
  }

  // ---------- whole periods without interruption

  predicate AskedFor(i: Input, t: Time) { i.Ask? && i.time == t }

  /** All requests are for whole numbers of periods, or for no time in particular. */
  ghost predicate WholeRequests(inputs: seq<Input>, period: Time) {
    forall k, t :: 0 <= k < |inputs| && AskedFor(inputs[k], t) ==> t == MAX || Multiple(t, period)
  }

  ghost predicate WholeTimes(c: Coord) {
    && c.info.uninterruptible && c.info.period > EPSILON && Multiple(c.info.offset, c.info.period)
    && (c.granted == MAX || Multiple(c.granted, c.info.period))
    && (c.requested == MAX || Multiple(c.requested, c.info.period))
  }

  lemma OnePeriodMore(t: Time, period: Time)
    ensures Multiple(t + period, period) <==> Multiple(t, period)
  {
    if Multiple(t, period) {
      SumOfMultiples(t, 1, period);
    }
    if Multiple(t + period, period) {
      SumOfMultiples(t + period, -1, period);
      assert t + period + -1 * period == t;
    }
  }

  lemma {:induction false} AddedIsMultiple(t: Time, period: Time, limit: Time)
    requires period > 0
    ensures Multiple(AddPeriods(t, period, limit), period) <==> Multiple(t, period)
    decreases limit - t
  {
    if t < limit {
      AddedIsMultiple(t + period, period, limit);
      OnePeriodMore(t, period);
    }
  }

  /** With a period, the first time that is possible is a whole number of periods if and only if
      the offset is. */
  lemma FirstIsMultiple(info: Options)
    requires info.Ok() && info.period > EPSILON && NextPossibleTime(info, 0, 0) != MAX
    ensures Multiple(NextPossibleTime(info, 0, 0), info.period) <==> Multiple(info.offset, info.period)
  {
    assert Multiple(0, info.period) by { assert 0 == 0 * info.period; }
    if info.offset == 0 {
      var t := Max(info.timeDelta, info.period);
      assert t != MAX;
      AllowedIsMultiple(info, 0, t);
    } else if info.offset <= info.timeDelta {
      AddedIsMultiple(info.offset + info.period, info.period, info.timeDelta);
      OnePeriodMore(info.offset, info.period);
    }
  }

  lemma NextIsMultiple(c: Coord)
    requires Sound(c) && WholeTimes(c) && c.granted != MAX
    ensures var t := NextPossibleTime(c.info, c.granted, c.base); t == MAX || Multiple(t, c.info.period)
  {
    if c.granted == 0 {
      if NextPossibleTime(c.info, 0, 0) != MAX {
        FirstIsMultiple(c.info);
      }
    } else {
      var t := c.base + Max(c.info.timeDelta, c.info.period);
      if t != MAX {
        AllowedIsMultiple(c.info, c.base, t);
      }
    }
  }

  lemma WholeStep(c: Coord, i: Input)
    requires Sound(c) && WholeTimes(c) && forall t :: AskedFor(i, t) ==> t == MAX || Multiple(t, c.info.period)
    ensures WholeTimes(Step(c, i).0)
  {
    hide NextPossibleTime, AllowedTime, FactorsOf, EventsReset, IterationsReset, Updated, RequestOf, ReadyForGrant;
    hide Multiple;
    if c.granted != MAX {
      NextIsMultiple(c);
      assert i.Ask? ==> AskedFor(i, i.time);
    }
  }

  lemma {:induction false} WholeRun(c: Coord, inputs: seq<Input>)
    requires Sound(c) && WholeTimes(c) && WholeRequests(inputs, c.info.period)
    ensures WholeTimes(Run(c, inputs).0)
    decreases |inputs|
  {
    hide WholeTimes, Sound, Step;
    if inputs != [] {
      var before := inputs[..|inputs| - 1];
      assert WholeRequests(before, c.info.period);
      RunKeeps(c, before);
      WholeRun(c, before);
      WholeStep(Run(c, before).0, inputs[|inputs| - 1]);
    }
  }

  /** A grant that is no whole number of periods: the first time that is possible. */
  lemma FirstIsGranted(info: Options)
    requires info.Ok() && info.uninterruptible && NextPossibleTime(info, 0, 0) < MAX
    ensures var c := Entered(info, [], false);
      Run(c, [Ask(0, false, MAX, MAX), Look]).0.granted == NextPossibleTime(info, 0, 0)
  {
    hide NextPossibleTime, AllowedTime;
    NextIsLater(info, 0);
    var c := Entered(info, [], false);
    var inputs := [Ask(0, false, MAX, MAX), Look];
    assert inputs[..1] == [Ask(0, false, MAX, MAX)] && inputs[..1][..0] == [];
    assert Run(c, []) == (c, []);
  }

  ghost predicate OnPeriods(info: Options, deps: seq<Dependency>, hasDependents: bool, inputs: seq<Input>) {
    var t := Run(Entered(info, deps, hasDependents), inputs).0.granted;
    t == MAX || Multiple(t, info.period)
  }

  /** An uninterruptible federate with a period that asks for whole numbers of periods only is
      granted such in every run if and only if its offset is one. */
  lemma {:induction false} UninterruptibleOnPeriods(info: Options)
    requires info.Ok() && info.uninterruptible && info.period > EPSILON && NextPossibleTime(info, 0, 0) < MAX
    ensures (forall deps, hasDependents, inputs ::
        WholeRequests(inputs, info.period) ==> OnPeriods(info, deps, hasDependents, inputs))
      <==> Multiple(info.offset, info.period)
  {
    hide NextPossibleTime, Run, Multiple;
    assert Multiple(0, info.period) by { NoPeriods(info.period); }
    if Multiple(info.offset, info.period) {
      forall deps, hasDependents, inputs | WholeRequests(inputs, info.period)
        ensures OnPeriods(info, deps, hasDependents, inputs)
      {
        RunKeeps(Entered(info, deps, hasDependents), inputs);
        WholeRun(Entered(info, deps, hasDependents), inputs);
      }
    } else {
      var inputs := [Ask(0, false, MAX, MAX), Look];
      FirstIsGranted(info);
      FirstIsMultiple(info);
      assert WholeRequests(inputs, info.period) && !OnPeriods(info, [], false, inputs);
    }
  }

  lemma NoPeriods(period: Time)
    ensures Multiple(0, period)
  {
    assert 0 == 0 * period;
  }
}
