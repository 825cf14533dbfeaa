/** How a federate requests times and is granted them. */
module TimeCoordinator {
  import opened TimeDependencies

  datatype Options = Options(timeDelta: Time, inputDelay: Time, outputDelay: Time, offset: Time, period: Time,
                             uninterruptible: bool)
  {
    predicate Ok() { timeDelta >= EPSILON && inputDelay >= 0 && outputDelay >= 0 && offset >= 0 && period >= 0 }
  }

  /** The fields of a coordinator in execution mode. */
  datatype Coord = Coord(info: Options, deps: seq<Dependency>, hasDependents: bool, iterating: bool,
                         granted: Time, base: Time, requested: Time, next: Time, minminDe: Time, minDe: Time,
                         allow: Time, exec: Time, message: Time, value: Time, block: Time)

  // ---------- times a federate may be granted

  function CeilDiv(a: Time, b: Time): Time
    requires b > 0
  {
    (a + b - 1) / b
  }

  /** Rounds a time up to a whole number of periods after the last grant. */
  function AllowedTime(info: Options, base: Time, t: Time): Time {
    if info.period <= EPSILON || t == MAX then t
    else if t - base > info.period then base + CeilDiv(t - base, info.period) * info.period
    else base + info.period
  }

  /** Adds periods until a limit is reached. */
  function AddPeriods(t: Time, period: Time, limit: Time): Time
    requires period > 0
    decreases limit - t
  {
    if t < limit then AddPeriods(t + period, period, limit) else t
  }

  function NextPossibleTime(info: Options, granted: Time, base: Time): Time {
    if granted == 0 then
      if info.offset > info.timeDelta then info.offset
      else if info.offset == 0 then AllowedTime(info, base, Max(info.timeDelta, info.period))
      else if info.period <= EPSILON then info.timeDelta
      else AddPeriods(info.offset + info.period, info.period, info.timeDelta)
    else AllowedTime(info, base, base + Max(info.timeDelta, info.period))
  }

  // ---------- the factors of a decision

  /** What the dependencies allow, as the loop over them finds it. */
  datatype Factors = Factors(next: Time, minminDe: Time, minDe: Time)

  const UNTRUSTED: Time := -1_000_000_000

  function Include(f: Factors, d: Dependency): Factors {
    Factors(Min(f.next, d.next),
            if d.deMin >= d.next then Min(f.minminDe, d.deMin) else UNTRUSTED,
            Min(f.minDe, d.te))
  }

  function FactorsOf(f: Factors, ds: seq<Dependency>): Factors
    decreases |ds|
  {
    if ds == [] then f else Include(FactorsOf(f, ds[..|ds| - 1]), ds[|ds| - 1])
  }

  /** The next time to execute at. */
  function ExecTime(c: Coord): Time {
    if c.info.uninterruptible then c.requested else
      var event := Min(c.message, c.value);
      var delayed := if event < MAX then event + c.info.inputDelay else event;
      var wanted := Min(c.requested, delayed);
      var later := if wanted > c.granted then wanted
                   else if c.iterating then c.granted
                   else NextPossibleTime(c.info, c.granted, c.base);
      if later > c.granted then AllowedTime(c.info, c.base, later) else later
  }

  /** The next possible event, given the earliest event of the dependencies. */
  function EventTime(c: Coord): Time {
    if c.info.uninterruptible then c.requested else
      var first := if c.iterating then c.granted else NextPossibleTime(c.info, c.granted, c.base);
      var event := if c.minminDe < MAX && c.minminDe + c.info.inputDelay > first
                   then AllowedTime(c.info, c.base, c.minminDe + c.info.inputDelay) else first;
      Min(event, c.exec) + c.info.outputDelay
  }

  /** The coordinator with its factors brought up to date, and whether dependents care. */
  function UpdateFactors(c: Coord): (Coord, bool) {
    var start := Min(c.value, c.message);
    var f := FactorsOf(Factors(MAX, start, start), c.deps);
    var c1 := c.(minminDe := Min(f.minDe, f.minminDe));
    var c2 := c1.(next := EventTime(c1));
    var minDe := if f.minDe < MAX then AllowedTime(c.info, c.base, f.minDe) + c.info.outputDelay else f.minDe;
    var c3 := c2.(minDe := minDe, allow := if f.next < MAX then c.info.inputDelay + f.next else MAX);
    (c3.(exec := ExecTime(c3)), c2.next != c.next || minDe != c.minDe)
  }

  /** What a federate tells its dependents while it waits. */
  function RequestOf(c: Coord): Message {
    Request(c.next, if c.exec != MAX then c.exec + c.info.outputDelay else c.exec,
            if c.minDe < c.next then c.next else c.minDe, c.iterating)
  }

  function ToDependents(c: Coord, m: Message): seq<Message> {
    if c.hasDependents then [m] else []
  }

  // ---------- requests, events and grants

  /** The times of a new request. */
  function Asked(c: Coord, nextTime: Time, iterate: bool, newValue: Time, newMessage: Time): Coord {
    var possible := NextPossibleTime(c.info, c.granted, c.base);
    var requested := Max(nextTime, if iterate then c.granted else possible);
    var next := if iterate then c.next else if c.info.uninterruptible then requested else possible;
    var value, message := Max(newValue, next), Max(newMessage, next);
    var exec := if c.info.uninterruptible then requested else Min(Min(value, message), requested);
    c.(iterating := iterate, requested := requested, next := next, value := value, message := message, exec := exec)
  }

  function RequestTime(c: Coord, nextTime: Time, iterate: bool, newValue: Time, newMessage: Time)
    : (Coord, seq<Message>)
  {
    var c1 := Asked(c, nextTime, iterate, newValue, newMessage);
    var c2 := UpdateFactors(c1.(deps := EventsReset(c.granted, c.deps))).0;
    (c2, ToDependents(c2, RequestOf(c2)))
  }

  /** The time at which an event that comes at t can be noticed. */
  function NoticedTime(c: Coord, t: Time): Time {
    if c.iterating then Max(t, c.granted) else Max(t, NextPossibleTime(c.info, c.granted, c.base))
  }

  function ValueArrives(c: Coord, t: Time): (Coord, seq<Message>) {
    if t < c.value then
      var c1 := c.(value := NoticedTime(c, t));
      if c1.value < c.value then Reschedule(c1) else (c1, [])
    else (c, [])
  }

  function MessageArrives(c: Coord, t: Time): (Coord, seq<Message>) {
    if t < c.message then
      var c1 := c.(message := NoticedTime(c, t));
      if c1.message < c.message then Reschedule(c1) else (c1, [])
    else (c, [])
  }

  function Reschedule(c: Coord): (Coord, seq<Message>) {
    var c1 := c.(exec := ExecTime(c));
    (c1, if c1.exec != c.exec then ToDependents(c1, RequestOf(c1)) else [])
  }

  datatype Verdict = Continue | NextStep | Iterating | Halted

  /** Whether the time to execute at may be granted. */
  predicate MayGrant(c: Coord) {
    || c.allow > c.exec
    || (c.allow == c.exec
        && ((!(c.iterating && c.exec <= c.granted) && c.requested <= c.exec) || ReadyForGrant(c.deps, c.exec)))
  }

  function Granted(c: Coord): Coord {
    c.(granted := c.exec, base := c.exec,
       deps := if c.iterating then IterationsReset(c.exec, c.deps) else c.deps)
  }

  function CheckGrant(c: Coord): (Coord, seq<Message>, Verdict) {
    var (c1, update) := UpdateFactors(c);
    if c1.exec == MAX && c1.allow == MAX then
      (c1.(granted := MAX, base := MAX), ToDependents(c1, Disconnect), Halted)
    else if c1.block <= c1.exec then (c1, [], Continue)
    else if MayGrant(c1) then
      var c2 := Granted(c1);
      (c2, ToDependents(c2, Grant(c2.granted)), if c1.iterating && c1.exec <= c1.granted then Iterating else NextStep)
    else (c1, if update then ToDependents(c1, RequestOf(c1)) else [], Continue)
  }

  datatype Outcome = NoEffect | Processed | DelayProcessing

  /** A grant is put off while the dependency is known to wait for a time after the one to
      execute at. */
  predicate Delays(c: Coord, d: Dependency, m: Message) {
    && (m.Grant? || m.ExecGrant?)
    && match d.state
       case TimeRequested => d.next > c.exec
       case TimeRequestedIterative => d.next > c.exec || (c.iterating && c.exec == d.next)
       case _ => false
  }

  function Hears(c: Coord, fed: nat, m: Message): Coord {
    c.(deps := Updated(c.deps, fed, m))
  }

  // ---------- the coordinator

  class Coordinator {
    var info: Options
    const dependencies: Dependencies
    var hasDependents: bool
    var iterating: bool
    var timeGranted: Time
    var timeGrantBase: Time
    var timeRequested: Time
    var timeNext: Time
    var timeMinminDe: Time
    var timeMinDe: Time
    var timeAllow: Time
    var timeExec: Time
    var timeMessage: Time
    var timeValue: Time
    var timeBlock: Time
    /** What was sent to the dependents. */
    var sent: seq<Message>

    /** A coordinator that has just entered execution mode. */
    constructor (info: Options, hasDependents: bool)
      ensures fresh(dependencies) && dependencies.all == [] && sent == []
      ensures State() == Coord(info, [], hasDependents, false, 0, 0, MAX, 0, 0, 0, -MAX, MAX, MAX, MAX, MAX)
    {
      this.info, this.hasDependents, iterating := info, hasDependents, false;
      timeGranted, timeGrantBase, timeRequested, timeNext, timeMinminDe, timeMinDe := 0, 0, MAX, 0, 0, 0;
      timeAllow, timeExec, timeMessage, timeValue, timeBlock := -MAX, MAX, MAX, MAX, MAX;
      sent := [];
      dependencies := new Dependencies();
    }

    ghost function State(): Coord
      reads this, dependencies
    {
      Coord(info, dependencies.all, hasDependents, iterating, timeGranted, timeGrantBase, timeRequested, timeNext,
            timeMinminDe, timeMinDe, timeAllow, timeExec, timeMessage, timeValue, timeBlock)
    }

    method GenerateAllowedTime(testTime: Time) returns (t: Time)
      ensures t == AllowedTime(info, timeGrantBase, testTime)
    {
      t := testTime;
      if info.period > EPSILON {
        if testTime == MAX {
          return testTime;
        }
        if testTime - timeGrantBase > info.period {
          var blocks := CeilDiv(testTime - timeGrantBase, info.period);
          t := timeGrantBase + blocks * info.period;
        } else {
          t := timeGrantBase + info.period;
        }
      }
    }

    method GetNextPossibleTime() returns (t: Time)
      ensures t == NextPossibleTime(info, timeGranted, timeGrantBase)
    {
      if timeGranted == 0 {
        if info.offset > info.timeDelta {
          return info.offset;
        } else if info.offset == 0 {
          t := GenerateAllowedTime(Max(info.timeDelta, info.period));
          return;
        } else if info.period <= EPSILON {
          return info.timeDelta;
        }
        t := info.offset + info.period;
        while t < info.timeDelta
          invariant AddPeriods(t, info.period, info.timeDelta)
                    == AddPeriods(info.offset + info.period, info.period, info.timeDelta)
          decreases info.timeDelta - t
        {
          t := t + info.period;
        }
        return;
      }
      t := GenerateAllowedTime(timeGrantBase + Max(info.timeDelta, info.period));
    }

    method UpdateNextExecutionTime() returns (changed: bool)
      modifies this`timeExec
      ensures State() == old(State()).(exec := ExecTime(old(State()))) && (changed <==> timeExec != old(timeExec))
    {
      var before := timeExec;
      if info.uninterruptible {
        timeExec := timeRequested;
      } else {
        timeExec := Min(timeMessage, timeValue);
        if timeExec < MAX {
          timeExec := timeExec + info.inputDelay;
        }
        timeExec := Min(timeRequested, timeExec);
        if timeExec <= timeGranted {
          var possible := GetNextPossibleTime();
          timeExec := if iterating then timeGranted else possible;
        }
        if timeExec - timeGranted > 0 {
          timeExec := GenerateAllowedTime(timeExec);
        }
      }
      changed := timeExec != before;
    }

    method UpdateNextPossibleEventTime()
      modifies this`timeNext
      ensures State() == old(State()).(next := EventTime(old(State())))
    {
      if !iterating {
        timeNext := GetNextPossibleTime();
      } else {
        timeNext := timeGranted;
      }
      if info.uninterruptible {
        timeNext := timeRequested;
      } else {
        if timeMinminDe < MAX {
          if timeMinminDe + info.inputDelay > timeNext {
            timeNext := timeMinminDe + info.inputDelay;
            timeNext := GenerateAllowedTime(timeNext);
          }
        }
        timeNext := Min(timeNext, timeExec) + info.outputDelay;
      }
    }

    /** The least of the times of all dependencies. */
    method CollectFactors(start: Time) returns (minNext: Time, minminDe: Time, minDe: Time)
      ensures Factors(minNext, minminDe, minDe) == FactorsOf(Factors(MAX, start, start), dependencies.all)
    {
      minNext, minminDe, minDe := MAX, start, start;
      var all := dependencies.all;
      for i := 0 to |all|
        invariant Factors(minNext, minminDe, minDe) == FactorsOf(Factors(MAX, start, start), all[..i])
      {
        assert all[..i + 1][..i] == all[..i];
        var dep := all[i];
        if dep.next < minNext {
          minNext := dep.next;
        }
        if dep.deMin >= dep.next {
          if dep.deMin < minminDe {
            minminDe := dep.deMin;
          }
        } else {
          minminDe := UNTRUSTED;
        }
        if dep.te < minDe {
          minDe := dep.te;
        }
      }
      assert all[..|all|] == all;
    }

    method UpdateTimeFactors() returns (update: bool)
      modifies this`timeMinminDe, this`timeNext, this`timeMinDe, this`timeAllow, this`timeExec
      ensures (State(), update) == UpdateFactors(old(State()))
    {
      hide NextPossibleTime, AllowedTime, FactorsOf, ExecTime, EventTime;
      var minNext, minminDe, minDe := CollectFactors(Min(timeValue, timeMessage));
      update := false;
      timeMinminDe := Min(minDe, minminDe);
      var previous := timeNext;
      UpdateNextPossibleEventTime();
      if previous != timeNext {
        update := true;
      }
      if minDe < MAX {
        minDe := GenerateAllowedTime(minDe);
        minDe := minDe + info.outputDelay;
      }
      if minDe != timeMinDe {
        update := true;
        timeMinDe := minDe;
      }
      timeAllow := if minNext < MAX then info.inputDelay + minNext else MAX;
      var _ := UpdateNextExecutionTime();
    }

    method Transmit(m: Message)
      modifies this`sent
      ensures sent == old(sent) + ToDependents(State(), m)
    {
      if hasDependents {
        sent := sent + [m];
      }
    }

    method TimeRequest(nextTime: Time, iterate: bool, newValueTime: Time, newMessageTime: Time)
      modifies this, dependencies
      ensures var r := RequestTime(old(State()), nextTime, iterate, newValueTime, newMessageTime);
        State() == r.0 && sent == old(sent) + r.1
    {
      hide UpdateFactors, EventsReset, Asked, RequestOf;
      Ask(nextTime, iterate, newValueTime, newMessageTime);
      dependencies.ResetDependentEvents(timeGranted);
      var _ := UpdateTimeFactors();
      SendTimeRequest();
    }

    method Ask(nextTime: Time, iterate: bool, newValueTime: Time, newMessageTime: Time)
      modifies this`iterating, this`timeRequested, this`timeNext, this`timeValue, this`timeMessage, this`timeExec
      ensures State() == Asked(old(State()), nextTime, iterate, newValueTime, newMessageTime)
    {
      hide NextPossibleTime;
      var requested, next := nextTime, timeNext;
      if iterate {
        if nextTime < timeGranted {
          requested := timeGranted;
        }
      } else {
        next := GetNextPossibleTime();
        if nextTime < next {
          requested := next;
        }
        if info.uninterruptible {
          next := requested;
        }
      }
      iterating, timeRequested, timeNext := iterate, requested, next;
      timeValue := if newValueTime > next then newValueTime else next;
      timeMessage := if newMessageTime > next then newMessageTime else next;
      timeExec := if info.uninterruptible then requested else Min(Min(timeValue, timeMessage), requested);
    }

    method SendTimeRequest()
      modifies this`sent
      ensures sent == old(sent) + ToDependents(State(), RequestOf(State()))
    {
      var te := if timeExec != MAX then timeExec + info.outputDelay else timeExec;
      var deMin := if timeMinDe < timeNext then timeNext else timeMinDe;
      Transmit(Request(timeNext, te, deMin, iterating));
    }

    method UpdateValueTime(valueUpdateTime: Time)
      modifies this`timeValue, this`timeExec, this`sent
      ensures var r := ValueArrives(old(State()), valueUpdateTime); State() == r.0 && sent == old(sent) + r.1
    {
      if valueUpdateTime < timeValue {
        var previous := timeValue;
        if iterating {
          timeValue := if valueUpdateTime <= timeGranted then timeGranted else valueUpdateTime;
        } else {
          var possible := GetNextPossibleTime();
          timeValue := if valueUpdateTime <= possible then possible else valueUpdateTime;
        }
        if timeValue < previous {
          var changed := UpdateNextExecutionTime();
          if changed {
            SendTimeRequest();
          }
        }
      }
    }

    method UpdateMessageTime(messageUpdateTime: Time)
      modifies this`timeMessage, this`timeExec, this`sent
      ensures var r := MessageArrives(old(State()), messageUpdateTime); State() == r.0 && sent == old(sent) + r.1
    {
      if messageUpdateTime < timeMessage {
        var previous := timeMessage;
        if iterating {
          timeMessage := if messageUpdateTime <= timeGranted then timeGranted else messageUpdateTime;
        } else {
          var possible := GetNextPossibleTime();
          timeMessage := if messageUpdateTime <= possible then possible else messageUpdateTime;
        }
        if timeMessage < previous {
          var changed := UpdateNextExecutionTime();
          if changed {
            SendTimeRequest();
          }
        }
      }
    }

    method UpdateTimeGrant()
      modifies this`timeGranted, this`timeGrantBase, this`sent, dependencies
      ensures State() == Granted(old(State())) && sent == old(sent) + ToDependents(State(), Grant(timeGranted))
    {
      timeGranted := timeExec;
      timeGrantBase := timeGranted;
      if iterating {
        dependencies.ResetIteratingTimeRequests(timeExec);
      }
      Transmit(Grant(timeGranted));
    }

    method CheckTimeGrant() returns (verdict: Verdict)
      modifies this, dependencies
      ensures var r := CheckGrant(old(State())); State() == r.0 && sent == old(sent) + r.1 && verdict == r.2
    {
      var update := UpdateTimeFactors();
      if timeExec == MAX {
        if timeAllow == MAX {
          timeGranted := MAX;
          timeGrantBase := MAX;
          Transmit(Disconnect);
          return Halted;
        }
      }
      if timeBlock <= timeExec {
        return Continue;
      }
      if !iterating || timeExec > timeGranted {
        if timeAllow > timeExec {
          UpdateTimeGrant();
          return NextStep;
        }
        if timeAllow == timeExec {
          if timeRequested <= timeExec {
            UpdateTimeGrant();
            return NextStep;
          }
          var ready := dependencies.CheckIfReadyForTimeGrant(timeExec);
          if ready {
            UpdateTimeGrant();
            return NextStep;
          }
        }
      } else {
        if timeAllow > timeExec {
          UpdateTimeGrant();
          return Iterating;
        }
        if timeAllow == timeExec {
          var ready := dependencies.CheckIfReadyForTimeGrant(timeExec);
          if ready {
            UpdateTimeGrant();
            return Iterating;
          }
        }
      }
      if hasDependents && update {
        SendTimeRequest();
      }
      return Continue;
    }

    method ProcessTimeMessage(fed: nat, m: Message) returns (outcome: Outcome)
      requires Ordered(dependencies.all)
      modifies dependencies
      ensures Ordered(dependencies.all)
      ensures outcome.DelayProcessing? <==>
        exists d :: d in old(dependencies.all) && d.fed == fed && Delays(old(State()), d, m)
      ensures outcome.NoEffect? <==>
        forall d :: d in old(dependencies.all) && d.fed == fed ==> !Delays(old(State()), d, m) && !Process(d, m).1
      ensures State() == if outcome.DelayProcessing? then old(State()) else Hears(old(State()), fed, m)
    {
      hide Process;
      if m.Grant? || m.ExecGrant? {
        var found := dependencies.GetDependencyInfo(fed);
        if found.None? {
          assert Updated(dependencies.all, fed, m) == dependencies.all;
          return NoEffect;
        }
        var dep := found.value;
        if dep.state == TimeRequested && dep.next > timeExec {
          return DelayProcessing;
        }
        if dep.state == TimeRequestedIterative {
          if dep.next > timeExec || (iterating && timeExec == dep.next) {
            return DelayProcessing;
          }
        }
      }
      var changed := dependencies.UpdateTime(fed, m);
      outcome := if changed then Processed else NoEffect;
    }
  }
}
