/** What a federate may tell others about the times at which it can still act. */
module TimePromises {
  import opened TimeDependencies
  import opened TimeCoordinator
  import opened TimeGrants

  /** At most another time, where all times from MAX on are the same. */
  predicate Upto(a: Time, b: Time) { a <= b || b >= MAX }

  /** Whether a waiting federate is done with waiting. */
  predicate Answered(c: Coord) { c.granted == MAX || CheckGrant(c).2 != Continue }

  /** A federate that was granted a time acts, then calls for a new one, and waits for it. */
  datatype Phase = Acts | Calls | Waits

  // ---------- when a federate reacts

  /** The first time at which a federate can be granted again. */
  function First(c: Coord): Time {
    if c.iterating then c.granted else NextPossibleTime(c.info, c.granted, c.base)
  }

  function Delayed(c: Coord, t: Time): Time { if t < MAX then t + c.info.inputDelay else t }

  /** The time to execute at, once a time is wanted. */
  function Due(c: Coord, wanted: Time): Time {
    var later := if wanted > c.granted then wanted else First(c);
    if later > c.granted then AllowedTime(c.info, c.base, later) else later
  }

  /** The time at which data of time t makes an interruptible federate execute. */
  function Reaction(c: Coord, t: Time): Time { Due(c, Delayed(c, NoticedTime(c, t))) }

  lemma CeilDivMonotone(a: Time, b: Time, p: Time)
    requires p > 0 && a <= b
    ensures CeilDiv(a, p) * p <= CeilDiv(b, p) * p
  {
    var x, y := CeilDiv(a, p), CeilDiv(b, p);
    assert a + p - 1 == x * p + (a + p - 1) % p && b + p - 1 == y * p + (b + p - 1) % p;
    assert y * p - x * p == (y - x) * p;
    SignOfProduct(y - x, p);
  }

  lemma SignOfProduct(k: int, p: Time)
    requires p > 0
    ensures if k < 0 then k * p <= -p else k * p >= 0
  {
  }

  lemma AllowedUpto(info: Options, base: Time, s: Time, t: Time)
    requires Upto(s, t) && info.Ok()
    ensures Upto(AllowedTime(info, base, s), AllowedTime(info, base, t))
  {
    AllowedIsLater(info, base, t);
    if t < MAX && info.period > EPSILON {
      if s - base > info.period {
        CeilDivMonotone(s - base, t - base, info.period);
      } else if t - base > info.period {
        RoundedUp(t - base, info.period);
      }
    }
  }

  lemma DueUpto(c: Coord, s: Time, t: Time)
    requires Sound(c) && c.granted < MAX && Upto(s, t) && (c.iterating || Upto(First(c), s))
    ensures Upto(Due(c, s), Due(c, t)) && Due(c, t) >= c.granted && Upto(t, Due(c, t))
  {
    NextIsLater(c.info, c.granted);
    AllowedIsLater(c.info, c.base, t);
    AllowedIsLater(c.info, c.base, First(c));
    AllowedUpto(c.info, c.base, s, t);
  }

  lemma ReactionUpto(c: Coord, s: Time, t: Time)
    requires Sound(c) && c.granted < MAX && Upto(s, t)
    ensures Upto(Reaction(c, s), Reaction(c, t))
  {
    hide NextPossibleTime, AllowedTime, Due;
    DueUpto(c, Delayed(c, NoticedTime(c, s)), Delayed(c, NoticedTime(c, t)));
  }

  lemma ReactionIsLater(c: Coord, t: Time)
    requires Sound(c) && c.granted < MAX
    ensures Reaction(c, t) >= c.granted
  {
    hide NextPossibleTime, AllowedTime, Due;
    NextIsLater(c.info, c.granted);
    DueUpto(c, Delayed(c, NoticedTime(c, t)), Delayed(c, NoticedTime(c, t)));
  }

  /** The first time that a federate can be granted after its next request without iteration. */
  function Again(c: Coord): Time {
    AllowedTime(c.info, c.base, NextPossibleTime(c.info, c.granted, c.base))
  }

  lemma AgainIsLater(c: Coord)
    requires Sound(c)
    ensures Again(c) >= c.granted
  {
    NextIsLater(c.info, c.granted);
    AllowedIsLater(c.info, c.base, NextPossibleTime(c.info, c.granted, c.base));
  }

  // ---------- promises

  /** A federate whose next time does not depend on what others do. */
  predicate Firm(c: Coord) { c.info.uninterruptible || c.deps == [] }

  /** What a timing message says about the times at which its sender can still act: how much of
      it holds depends on how many federates in a row can make each other act, up to three. */
  function Claim(rank: nat, m: Message): Time {
    match m
    case Request(next, te, deMin, _) =>
      if rank == 0 then Max(te, next) else if rank == 1 then Max(Min(te, deMin), next) else next
    case Grant(t) => t
    case Disconnect => MAX
    case _ => 0
  }

  /** A federate has heard no less of a dependency than it knows now, and was not granted more. */
  ghost predicate Knows(c: Coord, heard: map<nat, Time>) {
    forall i :: 0 <= i < |c.deps| ==>
      var d := c.deps[i];
      && d.fed in heard && Upto(d.next, heard[d.fed])
      && (c.granted <= heard[d.fed] + c.info.inputDelay || heard[d.fed] >= MAX)
  }

  /** What a waiting federate relies on: the next scheduled event of a dependency, and from the
      second rank on also the events of what that depends on. */
  function Relied(rank: nat, d: Dependency): Time { if rank == 1 then d.te else Min(d.te, d.deMin) }

  ghost predicate Trusts(c: Coord, rank: nat, heard: map<nat, Time>) {
    forall i :: 0 <= i < |c.deps| ==>
      var d := c.deps[i];
      d.fed in heard && Upto(Relied(rank, d), Max(heard[d.fed], c.granted))
  }

  /** Nothing that a dependency can still send makes the federate act before time t. */
  ghost predicate ReactsFrom(c: Coord, heard: map<nat, Time>, t: Time) {
    forall i :: 0 <= i < |c.deps| ==> c.deps[i].fed in heard && Upto(t, Reaction(c, heard[c.deps[i].fed]))
  }

  /** Nothing that is still to come makes the federate act before time t, if no dependency
      sends data older than was heard of it. Federates of rank 1 do not iterate. */
  ghost predicate Honest(c: Coord, phase: Phase, rank: nat, heard: map<nat, Time>, t: Time) {
    var acts := t - c.info.outputDelay;
    match phase
    case Acts => Upto(acts, c.granted)
    case Calls => Upto(acts, if rank == 1 && !c.info.uninterruptible then Again(c) else c.granted)
    case Waits => Upto(acts, c.exec) && (c.info.uninterruptible || ReactsFrom(c, heard, acts))
  }

  ghost predicate Pending(c: Coord) {
    c.granted < MAX && Upto(c.exec, ExecTime(c)) && (c.info.uninterruptible || c.iterating || Waiting(c))
  }

  /** The events of the dependencies that a federate of rank 1 tells of are no false promise,
      together with its own next event. */
  ghost predicate MinDeOk(c: Coord, phase: Phase, heard: map<nat, Time>) {
    var acts := c.minDe - c.info.outputDelay;
    if phase.Waits? then ReactsFrom(c, heard, acts) else c.requested <= c.granted || Upto(acts, c.granted)
  }

  /** What every input keeps of a federate whose dependencies have lower ranks. */
  ghost predicate Source(c: Coord, phase: Phase, rank: nat, heard: map<nat, Time>) {
    && Sound(c) && (rank == 0 ==> Firm(c)) && Honest(c, phase, rank, heard, c.next)
    && (phase.Waits? ==> Pending(c) && (c.info.uninterruptible || Trusts(c, rank, heard)))
    && (rank == 1 ==> !c.iterating && (c.info.uninterruptible || MinDeOk(c, phase, heard)))
  }

  // ---------- the factors of a decision

  lemma {:induction false} FactorsLow(f: Factors, ds: seq<Dependency>, i: nat)
    requires i < |ds|
    ensures FactorsOf(f, ds).minDe <= ds[i].te
    ensures FactorsOf(f, ds).minminDe <= ds[i].deMin || FactorsOf(f, ds).minminDe <= UNTRUSTED
    decreases |ds|
  {
    if i < |ds| - 1 {
      FactorsLow(f, ds[..|ds| - 1], i);
    }
  }

  lemma {:induction false} FactorsStart(f: Factors, ds: seq<Dependency>)
    ensures FactorsOf(f, ds).minDe <= f.minDe
    decreases |ds|
  {
    if ds != [] {
      FactorsStart(f, ds[..|ds| - 1]);
    }
  }

  /** The event that a federate expects of its dependencies is not after its reaction to what
      a dependency can still send. */
  lemma EventBelow(c: Coord, t: Time)
    requires Sound(c) && c.granted < MAX && !c.info.uninterruptible
    requires Upto(c.minminDe, Max(t, c.granted)) || c.minminDe <= 0
    ensures Upto(EventTime(c) - c.info.outputDelay, Reaction(c, t))
  {
    hide NextPossibleTime, AllowedTime, Due;
    NextIsLater(c.info, c.granted);
    var first, noticed := First(c), NoticedTime(c, t);
    DueUpto(c, Delayed(c, noticed), Delayed(c, noticed));
    if c.minminDe < MAX && c.minminDe + c.info.inputDelay > first {
      EventDue(c, c.minminDe + c.info.inputDelay, Delayed(c, noticed));
    }
  }

  /** Nothing is due before time t, at the federate itself or at its dependencies, as far as
      those can be relied on. */
  ghost predicate NothingBefore(c: Coord, t: Time) {
    && t <= Min(c.value, c.message)
    && forall i :: 0 <= i < |c.deps| ==> var d := c.deps[i]; t <= d.te && t <= d.deMin && d.next <= d.deMin
  }

  lemma {:induction false} FactorsHigh(f: Factors, ds: seq<Dependency>, t: Time)
    requires f.minDe >= t && f.minminDe >= t
    requires forall i :: 0 <= i < |ds| ==> t <= ds[i].te && t <= ds[i].deMin && ds[i].next <= ds[i].deMin
    ensures FactorsOf(f, ds).minDe >= t && FactorsOf(f, ds).minminDe >= t
    decreases |ds|
  {
    if ds != [] {
      FactorsHigh(f, ds[..|ds| - 1], t);
    }
  }

  /** The next possible event is also no lower than it must be: it is not before the earliest event
      that is known of can be noticed, unless the federate executes earlier. If none is known of it
      falls back to the next possible time. */
  lemma EventFrom(c: Coord, t: Time)
    requires Sound(c) && c.granted < MAX && !c.info.uninterruptible
    ensures var next := UpdateFactors(c).0.next - c.info.outputDelay;
      && next <= c.exec && next >= Min(First(c), c.exec)
      && (NothingBefore(c, t) && !NothingBefore(c, MAX) ==> next >= Min(t + c.info.inputDelay, c.exec))
      && (NothingBefore(c, MAX) ==> next == Min(First(c), c.exec))
      && (NothingBefore(c, t) ==> Upto(t + c.info.outputDelay, UpdateFactors(c).0.minDe))
  {
    hide NextPossibleTime, AllowedTime, ExecTime, FactorsOf;
    var start := Min(c.value, c.message);
    var f := Factors(MAX, start, start);
    NextIsLater(c.info, c.granted);
    var c1 := UpdateFactors(c).0;
    AllowedIsLater(c.info, c.base, c1.minminDe + c.info.inputDelay);
    AllowedIsLater(c.info, c.base, FactorsOf(f, c.deps).minDe);
    if NothingBefore(c, t) {
      FactorsHigh(f, c.deps, t);
    }
    if NothingBefore(c, MAX) {
      FactorsHigh(f, c.deps, MAX);
    } else if NothingBefore(c, t) {
      FactorsStart(f, c.deps);
      if i :| 0 <= i < |c.deps| && (c.deps[i].te < MAX || c.deps[i].deMin < MAX) {
        FactorsLow(f, c.deps, i);
      }
    }
  }

  /** The scheduled event that a waiting federate tells its dependents is exactly the time of the
      data that it sends once it is granted that event. */
  lemma EventIsTold(c: Coord)
    requires c.exec == ExecTime(c) && c.exec != MAX
    ensures var c1 := UpdateFactors(c).0;
      && RequestOf(c1).te == RequestOf(c).te
      && (IsGrant(CheckGrant(c).2) ==> RequestOf(c).te == CheckGrant(c).0.granted + c.info.outputDelay)
  {
    hide NextPossibleTime, AllowedTime, FactorsOf;
  }

  lemma EventDue(c: Coord, s: Time, t: Time)
    requires Sound(c) && c.granted < MAX && s > First(c) && Upto(s, t)
    ensures Upto(AllowedTime(c.info, c.base, s), Due(c, t))
  {
    NextIsLater(c.info, c.granted);
    AllowedUpto(c.info, c.base, s, t);
  }

  /** Nor is the least event that it tells of. */
  lemma MinDeBelow(c: Coord, least: Time, t: Time)
    requires Sound(c) && c.granted < MAX && !c.iterating && Upto(least, Max(t, c.granted))
    ensures Upto(if least < MAX then AllowedTime(c.info, c.base, least) else least, Reaction(c, t))
  {
    hide NextPossibleTime, AllowedTime, Due;
    NextIsLater(c.info, c.granted);
    var noticed := NoticedTime(c, t);
    DueUpto(c, Delayed(c, noticed), Delayed(c, noticed));
    LeastDue(c, least, Delayed(c, noticed));
  }

  lemma LeastDue(c: Coord, s: Time, t: Time)
    requires Sound(c) && c.granted < MAX && Upto(s, t) && t > c.granted
    ensures Upto(if s < MAX then AllowedTime(c.info, c.base, s) else s, Due(c, t))
  {
    AllowedUpto(c.info, c.base, s, t);
    AllowedIsLater(c.info, c.base, t);
  }

  /** Once the factors are up to date, the next possible event is a promise that holds. */
  lemma FactorsHonest(c: Coord, rank: nat, heard: map<nat, Time>)
    requires Sound(c) && c.granted < MAX && Upto(c.exec, ExecTime(c))
    requires (c.info.uninterruptible || Trusts(c, rank, heard)) && (rank == 1 ==> !c.iterating)
    ensures var c1 := UpdateFactors(c).0;
      && Honest(c1, Waits, rank, heard, c1.next) && c1.exec == ExecTime(c1) == ExecTime(c)
      && (rank == 1 ==> c.info.uninterruptible || MinDeOk(c1, Waits, heard))
  {
    hide NextPossibleTime, AllowedTime, FactorsOf, Due, NoticedTime;
    var c1 := UpdateFactors(c).0;
    if !c.info.uninterruptible {
      forall i | 0 <= i < |c.deps|
        ensures Upto(c1.next - c.info.outputDelay, Reaction(c1, heard[c.deps[i].fed]))
        ensures rank == 1 ==> Upto(c1.minDe - c.info.outputDelay, Reaction(c1, heard[c.deps[i].fed]))
      {
        var t := heard[c.deps[i].fed];
        var start := Min(c.value, c.message);
        FactorsLow(Factors(MAX, start, start), c.deps, i);
        EventBelow(c.(minminDe := c1.minminDe), t);
        SameReaction(c.(minminDe := c1.minminDe), c1, t);
        if rank == 1 {
          MinDeBelow(c1, FactorsOf(Factors(MAX, start, start), c.deps).minDe, t);
        }
      }
    }
  }

  lemma SameReaction(c: Coord, c1: Coord, t: Time)
    requires c.info == c1.info && c.iterating == c1.iterating && c.granted == c1.granted && c.base == c1.base
    ensures Reaction(c, t) == Reaction(c1, t)
  {
  }

  // ---------- requests

  lemma RequestHonest(c: Coord, rank: nat, heard: map<nat, Time>)
    requires Sound(c) && Honest(c, Waits, rank, heard, c.next) && (rank == 0 ==> Firm(c))
    requires rank == 1 ==> c.info.uninterruptible || MinDeOk(c, Waits, heard)
    ensures Honest(c, Waits, rank, heard, Claim(rank, RequestOf(c)))
  {
    hide Reaction;
  }

  lemma AskedExec(c: Coord)
    requires Sound(c) && c.exec <= Min(Min(c.value, c.message), c.requested) && !c.info.uninterruptible
    ensures c.exec <= ExecTime(c)
  {
    NextIsLater(c.info, c.granted);
    var event := Min(c.message, c.value);
    var wanted := Min(c.requested, Delayed(c, event));
    AllowedIsLater(c.info, c.base, wanted);
    AllowedIsLater(c.info, c.base, First(c));
  }

  lemma AskHonest(c: Coord, phase: Phase, rank: nat, i: Input, heard: map<nat, Time>, t: Time)
    requires i.Ask? && c.granted < MAX && !phase.Waits? && (rank == 1 ==> !i.iterate)
    requires Source(c, phase, rank, heard) && Knows(c, heard) && Honest(c, phase, rank, heard, t)
    ensures var (c', ms) := Step(c, i);
      && Source(c', Waits, rank, heard) && Honest(c', Waits, rank, heard, t)
      && forall m :: m in ms ==> Honest(c', Waits, rank, heard, Claim(rank, m))
  {
    hide NextPossibleTime, AllowedTime, FactorsOf, Reaction, ExecTime, EventTime, RequestOf;
    StepKeeps(c, i);
    var asked := Asked(c, i.time, i.iterate, i.newValue, i.newMessage).(deps := EventsReset(c.granted, c.deps));
    AskedSound(c, i);
    FactorsHonest(asked, rank, heard);
    var c' := Step(c, i).0;
    RequestHonest(c', rank, heard);
    AgainIsLater(c);
    NotBefore(c', rank, heard, t);
  }

  lemma AskedSound(c: Coord, i: Input)
    requires i.Ask? && Sound(c)
    ensures var asked := Asked(c, i.time, i.iterate, i.newValue, i.newMessage).(deps := EventsReset(c.granted, c.deps));
      Sound(asked) && asked.exec <= ExecTime(asked) && (asked.info.uninterruptible || asked.iterating || Waiting(asked))
  {
    hide NextPossibleTime, AllowedTime;
    NextIsLater(c.info, c.granted);
    var asked := Asked(c, i.time, i.iterate, i.newValue, i.newMessage).(deps := EventsReset(c.granted, c.deps));
    if !c.info.uninterruptible {
      AskedExec(asked);
    }
  }

  /** A waiting federate does not act before the time it was granted last, and before the next
      possible one if it does not iterate. */
  lemma NotBefore(c: Coord, rank: nat, heard: map<nat, Time>, t: Time)
    requires Sound(c) && Pending(c) && c.exec == ExecTime(c) && (c.info.uninterruptible || Trusts(c, rank, heard))
    requires rank == 1 ==> !c.iterating
    requires Upto(t - c.info.outputDelay, if rank == 1 && !c.info.uninterruptible then Again(c) else c.granted)
    ensures Honest(c, Waits, rank, heard, t)
  {
    hide NextPossibleTime, AllowedTime, ExecTime, Reaction, Again;
    ExecIsLater(c);
    if !c.info.uninterruptible {
      if rank == 1 {
        ExecFromAgain(c);
      }
      forall i | 0 <= i < |c.deps|
        ensures Upto(t - c.info.outputDelay, Reaction(c, heard[c.deps[i].fed]))
      {
        ReactionIsLater(c, heard[c.deps[i].fed]);
      }
    }
  }

  lemma ExecFromAgain(c: Coord)
    requires Sound(c) && Pending(c) && !c.iterating && !c.info.uninterruptible
    ensures Upto(Again(c), ExecTime(c)) && forall t :: Upto(Again(c), Reaction(c, t))
  {
    hide NextPossibleTime, AllowedTime;
    NextIsLater(c.info, c.granted);
    var first := First(c);
    assert Due(c, first) == Again(c);
    ExecIsDue(c);
    DueUpto(c, first, Min(c.requested, Delayed(c, Min(c.message, c.value))));
    forall t
      ensures Upto(Again(c), Reaction(c, t))
    {
      DueUpto(c, first, Delayed(c, NoticedTime(c, t)));
    }
  }

  // ---------- looks at whether the time can be granted

  lemma LookHonest(c: Coord, rank: nat, heard: map<nat, Time>, t: Time)
    requires Source(c, Waits, rank, heard) && Honest(c, Waits, rank, heard, t)
    ensures var (c', ms) := Step(c, Look);
      var phase := if Answered(c) then Acts else Waits;
      && Source(c', phase, rank, heard) && Honest(c', phase, rank, heard, t)
      && forall m :: m in ms ==> Honest(c', phase, rank, heard, Claim(rank, m))
  {
    hide NextPossibleTime, AllowedTime, FactorsOf, Reaction, ExecTime, EventTime, RequestOf, ReadyForGrant;
    StepKeeps(c, Look);
    var c1 := UpdateFactors(c).0;
    FactorsHonest(c, rank, heard);
    if Sound(c1) {
      RequestHonest(c1, rank, heard);
    }
    SameReactions(c, c1, rank, heard, t);
    if rank == 1 && !c.info.uninterruptible {
      MinDeGranted(c);
    }
  }

  /** When a federate is granted a time before the one it asked for, the event that it tells of
      is not after the grant. */
  lemma MinDeGranted(c: Coord)
    requires Sound(c) && Pending(c) && !c.iterating && !c.info.uninterruptible
    ensures var c1 := UpdateFactors(c).0;
      c.requested <= c1.exec || Upto(c1.minDe - c.info.outputDelay, c1.exec)
  {
    hide NextPossibleTime, AllowedTime, FactorsOf, Due, EventTime;
    var start := Min(c.value, c.message);
    FactorsStart(Factors(MAX, start, start), c.deps);
    ExecIsDue(c);
    var wanted := Min(c.requested, Delayed(c, Min(c.message, c.value)));
    NextIsLater(c.info, c.granted);
    DueUpto(c, wanted, wanted);
    if c.requested > Due(c, wanted) {
      LeastDue(c, FactorsOf(Factors(MAX, start, start), c.deps).minDe, wanted);
    }
  }

  lemma SameReactions(c: Coord, c1: Coord, rank: nat, heard: map<nat, Time>, t: Time)
    requires c.info == c1.info && c.iterating == c1.iterating && c.granted == c1.granted && c.base == c1.base
    requires Upto(t - c.info.outputDelay, c1.exec) && c.deps == c1.deps && Honest(c, Waits, rank, heard, t)
    ensures Honest(c1, Waits, rank, heard, t)
  {
    hide Reaction;
    if !c.info.uninterruptible {
      SameReactsFrom(c, c1, heard, t - c.info.outputDelay);
    }
  }

  lemma SameReactsFrom(c: Coord, c1: Coord, heard: map<nat, Time>, t: Time)
    requires c.info == c1.info && c.iterating == c1.iterating && c.granted == c1.granted && c.base == c1.base
    requires c.deps == c1.deps && ReactsFrom(c, heard, t)
    ensures ReactsFrom(c1, heard, t)
  {
    hide Reaction;
    forall i | 0 <= i < |c.deps|
      ensures Reaction(c1, heard[c.deps[i].fed]) == Reaction(c, heard[c.deps[i].fed])
    {
      SameReaction(c, c1, heard[c.deps[i].fed]);
    }
  }

  // ---------- data and timing messages

  /** Data moves the time to execute at no further back than to the reaction to it. */
  lemma DataExec(c: Coord, time: Time, t: Time)
    requires Sound(c) && Pending(c) && !c.info.uninterruptible && Upto(t, c.exec) && Upto(t, Reaction(c, time))
    ensures Upto(t, ExecTime(c.(value := NoticedTime(c, time))))
  {
    hide NextPossibleTime, AllowedTime, Due;
    var c1 := c.(value := NoticedTime(c, time));
    var before := Min(c.requested, Delayed(c, Min(c.message, c.value)));
    var after := Min(c.requested, Delayed(c, Min(c.message, c1.value)));
    ExecIsDue(c);
    ExecIsDue(c1);
    SameDue(c, c1, after);
    if after != Delayed(c, c1.value) {
      DueUpto(c, before, after);
    }
  }

  lemma ExecIsDue(c: Coord)
    requires !c.info.uninterruptible
    ensures ExecTime(c) == Due(c, Min(c.requested, Delayed(c, Min(c.message, c.value))))
  {
  }

  lemma SameDue(c: Coord, c1: Coord, t: Time)
    requires c.info == c1.info && c.iterating == c1.iterating && c.granted == c1.granted && c.base == c1.base
    ensures Due(c, t) == Due(c1, t)
  {
  }

  /** Due times are in order, so that the first of two wishes is due first. */
  lemma FirstDue(c: Coord, s: Time, t: Time)
    requires Sound(c) && c.granted < MAX && First(c) <= s && First(c) <= t && Due(c, t) < MAX
    ensures Due(c, Min(s, t)) == Min(Due(c, s), Due(c, t))
  {
    hide NextPossibleTime, AllowedTime, Due;
    if s <= t {
      DueUpto(c, s, t);
    } else {
      DueUpto(c, t, s);
    }
  }

  /** A value or a message that arrives makes a waiting interruptible federate execute at its
      reaction to it, unless it would execute earlier, and the dependents hear of every change. */
  lemma ArrivalIsReactedTo(c: Coord, i: Input)
    requires i.Value? || i.Event?
    requires Sound(c) && c.granted < MAX && !c.info.uninterruptible && c.exec == ExecTime(c)
    requires First(c) <= c.requested && First(c) <= c.value && First(c) <= c.message && Reaction(c, i.time) < MAX
    ensures var (c', ms) := Step(c, i);
      && c'.exec == Min(c.exec, Reaction(c, i.time))
      && (c'.exec != c.exec ==> ms == ToDependents(c', RequestOf(c')))
      && (c'.exec == c.exec ==> ms == [])
  {
    hide NextPossibleTime, AllowedTime, Due, RequestOf, ExecTime;
    var (c', t) := (Step(c, i).0, NoticedTime(c, i.time));
    var before := Min(c.requested, Delayed(c, Min(c.message, c.value)));
    ExecIsDue(c);
    DueUpto(c, Delayed(c, t), Delayed(c, t));
    FirstDue(c, before, Delayed(c, t));
    ExecIsDue(c.(value := t));
    ExecIsDue(c.(message := t));
    SameDue(c, c.(value := t), Min(before, Delayed(c, t)));
    SameDue(c, c.(message := t), Min(before, Delayed(c, t)));
  }

  lemma DataHonest(c: Coord, phase: Phase, rank: nat, i: nat, time: Time, heard: map<nat, Time>, t: Time)
    requires Source(c, phase, rank, heard) && Honest(c, phase, rank, heard, t) && !phase.Acts?
    requires i < |c.deps| && c.deps[i].fed in heard && Upto(heard[c.deps[i].fed], time)
    ensures var (c', ms) := Step(c, Value(time));
      && Source(c', phase, rank, heard) && Honest(c', phase, rank, heard, t)
      && forall m :: m in ms ==> Honest(c', phase, rank, heard, Claim(rank, m))
  {
    hide NextPossibleTime, AllowedTime, Reaction, ExecTime;
    StepKeeps(c, Value(time));
    var c' := Step(c, Value(time)).0;
    if phase.Waits? {
      DataSource(c, rank, i, time, heard, t);
      DataSource(c, rank, i, time, heard, c.next);
      RequestHonest(c', rank, heard);
    } else if c.info.uninterruptible {
      NoNews(c, time);
    } else if rank == 1 {
      AgainIsLater(c);
      if c.requested <= c.granted {
        CallingExec(c.(value := NoticedTime(c, time)));
      }
    }
  }

  /** Between two requests, a federate that was granted the time it asked for can execute next
      at the next possible time. */
  lemma CallingExec(c: Coord)
    requires Sound(c) && !c.iterating && !c.info.uninterruptible && c.requested <= c.granted
    ensures ExecTime(c) == Again(c)
  {
    NextIsLater(c.info, c.granted);
  }

  lemma DataSource(c: Coord, rank: nat, i: nat, time: Time, heard: map<nat, Time>, t: Time)
    requires Source(c, Waits, rank, heard) && Honest(c, Waits, rank, heard, t)
    requires i < |c.deps| && c.deps[i].fed in heard && Upto(heard[c.deps[i].fed], time)
    ensures var c' := Step(c, Value(time)).0;
      && Honest(c', Waits, rank, heard, t) && Pending(c') && c'.next == c.next && c'.iterating == c.iterating
      && (c.info.uninterruptible || Trusts(c', rank, heard))
      && (rank == 1 ==> c.info.uninterruptible || MinDeOk(c', Waits, heard))
  {
    hide NextPossibleTime, AllowedTime, Reaction, RequestOf, ExecTime;
    var c' := Step(c, Value(time)).0;
    DataPending(c, time);
    if c.info.uninterruptible {
      NoNews(c, time);
    } else {
      ReactionUpto(c, heard[c.deps[i].fed], time);
      DataExec(c, time, t - c.info.outputDelay);
      SameReactions(c, c', rank, heard, t);
      if rank == 1 {
        SameReactsFrom(c, c', heard, c.minDe - c.info.outputDelay);
      }
    }
  }

  lemma NoNews(c: Coord, time: Time)
    requires Sound(c) && c.info.uninterruptible
    ensures var (c', ms) := Step(c, Value(time)); ms == [] && c'.exec == c.exec
  {
    hide NextPossibleTime;
  }

  lemma DataPending(c: Coord, time: Time)
    requires Sound(c) && Pending(c)
    ensures Pending(Step(c, Value(time)).0)
  {
    hide NextPossibleTime, AllowedTime, Due, RequestOf;
    var c' := Step(c, Value(time)).0;
    if !c.info.uninterruptible {
      ExecWithValue(c, c'.value);
      if c.iterating && c'.value > c.value {
        LaterValue(c, c'.value);
      }
    }
  }

  /** The time to execute at depends on no factor. */
  lemma ExecWithValue(c: Coord, value: Time)
    ensures forall exec :: ExecTime(c.(value := value, exec := exec)) == ExecTime(c.(value := value))
  {
    hide NextPossibleTime, AllowedTime;
  }

  lemma LaterValue(c: Coord, value: Time)
    requires Sound(c) && c.granted < MAX && !c.info.uninterruptible && c.iterating && c.value <= value
    ensures Upto(ExecTime(c), ExecTime(c.(value := value)))
  {
    hide NextPossibleTime, AllowedTime, Due;
    var c' := c.(value := value);
    var before := Min(c.requested, Delayed(c, Min(c.message, c.value)));
    var after := Min(c.requested, Delayed(c, Min(c.message, value)));
    ExecIsDue(c);
    ExecIsDue(c');
    SameDue(c, c', after);
    DueUpto(c, before, after);
  }

  /** What was heard of a federate, after a message from it. */
  function Hearing(heard: map<nat, Time>, fed: nat, claim: Time): map<nat, Time>
    requires fed in heard
  {
    heard[fed := Max(heard[fed], claim)]
  }

  predicate Timely(m: Message) { m.Request? || m.Grant? || m.Disconnect? }

  lemma HearKnows(c: Coord, fed: nat, m: Message, theirs: nat, heard: map<nat, Time>)
    requires Knows(c, heard) && fed in heard && Timely(m)
    ensures Knows(Step(c, Hear(fed, m)).0, Hearing(heard, fed, Claim(theirs, m)))
  {
  }

  /** A message of a federate of lower rank keeps a promise that was made before. */
  lemma HearTrusts(c: Coord, rank: nat, fed: nat, m: Message, theirs: nat, heard: map<nat, Time>)
    requires Trusts(c, rank, heard) && fed in heard && Timely(m) && theirs < rank <= 2
    ensures Trusts(Hears(c, fed, m), rank, Hearing(heard, fed, Claim(theirs, m)))
  {
  }

  lemma HearHonest(c: Coord, phase: Phase, rank: nat, fed: nat, m: Message, theirs: nat, heard: map<nat, Time>, t: Time)
    requires Source(c, phase, rank, heard) && Honest(c, phase, rank, heard, t) && !phase.Acts?
    requires fed in heard && Timely(m) && rank <= 2 && (c.info.uninterruptible || theirs < rank)
    ensures var heard' := Hearing(heard, fed, Claim(theirs, m));
      var c' := Step(c, Hear(fed, m)).0;
      Source(c', phase, rank, heard') && Honest(c', phase, rank, heard', t)
  {
    hide NextPossibleTime, AllowedTime, Reaction, ExecTime, Trusts, Process;
    StepKeeps(c, Hear(fed, m));
    if phase.Waits? {
      if !c.info.uninterruptible {
        HearTrusts(c, rank, fed, m, theirs, heard);
        StillReactsFrom(c, fed, m, Claim(theirs, m), heard, t - c.info.outputDelay);
        StillReactsFrom(c, fed, m, Claim(theirs, m), heard, c.next - c.info.outputDelay);
        if rank == 1 {
          StillReactsFrom(c, fed, m, Claim(theirs, m), heard, c.minDe - c.info.outputDelay);
        }
      }
      assert ExecTime(c) == ExecTime(Step(c, Hear(fed, m)).0) by {
        SameExec(c, Step(c, Hear(fed, m)).0.deps);
      }
    }
  }

  lemma SameExec(c: Coord, deps: seq<Dependency>)
    ensures ExecTime(c.(deps := deps)) == ExecTime(c)
  {
    hide NextPossibleTime, AllowedTime;
  }

  lemma StillReactsFrom(c: Coord, fed: nat, m: Message, claim: Time, heard: map<nat, Time>, t: Time)
    requires Sound(c) && c.granted < MAX && ReactsFrom(c, heard, t) && fed in heard
    ensures ReactsFrom(Step(c, Hear(fed, m)).0, Hearing(heard, fed, claim), t)
  {
    hide NextPossibleTime, AllowedTime, Reaction;
    var c', heard' := Step(c, Hear(fed, m)).0, Hearing(heard, fed, claim);
    forall i | 0 <= i < |c.deps|
      ensures Upto(t, Reaction(c', heard'[c.deps[i].fed]))
    {
      SameReaction(c, c', heard'[c.deps[i].fed]);
      ReactionUpto(c, heard[c.deps[i].fed], heard'[c.deps[i].fed]);
    }
  }

  /** No other input changes what a federate knows of its dependencies, and a grant keeps to it. */
  lemma StepKnows(c: Coord, i: Input, heard: map<nat, Time>)
    requires Sound(c) && Knows(c, heard) && !i.Hear?
    ensures Knows(Step(c, i).0, heard)
  {
    hide NextPossibleTime, AllowedTime, FactorsOf, ReadyForGrant, RequestOf, ExecTime, EventTime;
    var c' := Step(c, i).0;
    forall k | 0 <= k < |c'.deps|
      ensures |c'.deps| == |c.deps| && c'.deps[k].fed == c.deps[k].fed && c'.deps[k].next == c.deps[k].next
      ensures c'.granted <= heard[c.deps[k].fed] + c.info.inputDelay || heard[c.deps[k].fed] >= MAX
    {
      if i.Look? && c.granted != MAX {
        AllowBelow(c, k);
      }
    }
  }

  /** A federate that stops acting to call for a new time has promised nothing new. */
  lemma CallHonest(c: Coord, rank: nat, heard: map<nat, Time>, t: Time)
    requires Sound(c) && Honest(c, Acts, rank, heard, t)
    ensures Honest(c, Calls, rank, heard, t)
  {
    AgainIsLater(c);
  }
}
