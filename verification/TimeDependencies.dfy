/** What a federate knows about the federates it depends on. */
module TimeDependencies {
  import opened Basics

  /** Ticks of the clock. */
  type Time = int

  const MAX: Time := 0x7FFF_FFFF_FFFF_FFFF
  const EPSILON: Time := 1

  function Min(a: Time, b: Time): Time { if b < a then b else a }

  function Max(a: Time, b: Time): Time { if a < b then b else a }

  // ---------- one dependency

  datatype TimeState =
    | Initialized
    | ExecRequestedIterative
    | ExecRequested
    | TimeGranted
    | TimeRequestedIterative
    | TimeRequested

  /** The timing messages of one federate to those that depend on it. */
  datatype Message =
    | ExecRequest(iterative: bool)
    | ExecGrant(iterative: bool)
    | Request(next: Time, te: Time, deMin: Time, iterative: bool)
    | Grant(time: Time)
    | Disconnect
    | SendMessage(time: Time)

  /** The last known state of a federate: its next possible event, its next scheduled event,
      the earliest event of those it depends on, and a message it is known to send. */
  datatype Dependency = Dependency(fed: nat, state: TimeState, next: Time, te: Time, deMin: Time, forward: Time)

  function NewDependency(fed: nat): Dependency {
    Dependency(fed, Initialized, -EPSILON, 0, 0, MAX)
  }

  /** The dependency after a message, and whether it changed. */
  function Process(d: Dependency, m: Message): (r: (Dependency, bool))
    ensures r.0.fed == d.fed
  {
    match m
    case ExecRequest(iterative) =>
      (d.(state := if iterative then ExecRequestedIterative else ExecRequested), true)
    case ExecGrant(iterative) =>
      if !iterative then (d.(state := TimeGranted, next := 0, deMin := 0, te := 0), true)
      else (d.(state := Initialized), true)
    case Request(next, te, deMin, iterative) =>
      var te' := Min(te, d.forward);
      (d.(state := if iterative then TimeRequestedIterative else TimeRequested,
          next := next, te := te', deMin := Min(deMin, te'), forward := MAX), true)
    case Grant(time) => (d.(state := TimeGranted, next := time, te := time, deMin := time), true)
    case Disconnect => (d.(state := TimeGranted, next := MAX, te := MAX, deMin := MAX), true)
    case SendMessage(time) =>
      if d.state == TimeGranted then (d.(forward := Min(d.forward, time)), false)
      else
        var event := Max(d.next, time);
        if event < d.te then (d.(te := event, deMin := Min(d.deMin, event)), true) else (d, false)
  }

  /** A message changes the times of a dependency exactly if that is what is reported, unless it
      is a request or the like, which always counts. */
  lemma ProcessTells(d: Dependency, m: Message)
    ensures var (d', changed) := Process(d, m);
      changed <==> !m.SendMessage? || d'.(forward := d.forward) != d
  {
  }

  /** A message that a federate is known to send shows in its next request if it was granted a
      time, and at once otherwise, but never before its next possible event. */
  lemma SentIsSeen(d: Dependency, t: Time, m: Message)
    requires m.Request? && d.deMin <= d.te
    ensures var d' := Process(d, SendMessage(t)).0;
      if d.state == TimeGranted then
        var r := Process(d', m).0;
        r.te == Min(m.te, Min(d.forward, t)) && r.deMin == Min(m.deMin, r.te) && r.forward == MAX
      else d'.te == Min(d.te, Max(d.next, t)) && d'.deMin == Min(d.deMin, d'.te) && d'.next == d.next
  {
  }

  // ---------- the table

  predicate Ordered(ds: seq<Dependency>) {
    forall i, j :: 0 <= i < j < |ds| ==> ds[i].fed < ds[j].fed
  }

  ghost predicate Has(ds: seq<Dependency>, fed: nat) {
    exists i :: 0 <= i < |ds| && ds[i].fed == fed
  }

  /** The table after a message from a federate. */
  function Updated(ds: seq<Dependency>, fed: nat, m: Message): (r: seq<Dependency>)
    ensures |r| == |ds|
    ensures forall i :: 0 <= i < |ds| ==> r[i] == if ds[i].fed == fed then Process(ds[i], m).0 else ds[i]
  {
    if ds == [] then [] else [if ds[0].fed == fed then Process(ds[0], m).0 else ds[0]] + Updated(ds[1..], fed, m)
  }

  /** Whether no dependency may still act at the time of a grant. */
  predicate ReadyForGrant(ds: seq<Dependency>, time: Time) {
    forall i :: 0 <= i < |ds| ==> ds[i].next > time || (ds[i].next == time && ds[i].state != TimeGranted)
  }

  function IterationReset(time: Time, d: Dependency): Dependency {
    if d.state == TimeRequestedIterative && d.next == time
    then d.(state := TimeGranted, te := time, deMin := time) else d
  }

  function IterationsReset(time: Time, ds: seq<Dependency>): (r: seq<Dependency>)
    ensures |r| == |ds| && forall i :: 0 <= i < |ds| ==> r[i] == IterationReset(time, ds[i])
  {
    if ds == [] then [] else [IterationReset(time, ds[0])] + IterationsReset(time, ds[1..])
  }

  function EventReset(time: Time, d: Dependency): Dependency {
    d.(te := Max(d.next, time), deMin := Max(d.next, time))
  }

  function EventsReset(time: Time, ds: seq<Dependency>): (r: seq<Dependency>)
    ensures |r| == |ds| && forall i :: 0 <= i < |ds| ==> r[i] == EventReset(time, ds[i])
  {
    if ds == [] then [] else [EventReset(time, ds[0])] + EventsReset(time, ds[1..])
  }

  lemma InsertedInOrder(ds: seq<Dependency>, i: nat, fed: nat)
    requires Ordered(ds) && i <= |ds| && (forall k :: 0 <= k < i ==> ds[k].fed < fed)
    requires forall k :: i <= k < |ds| ==> ds[k].fed > fed
    ensures var r := ds[..i] + [NewDependency(fed)] + ds[i..];
      Ordered(r) && multiset(r) == multiset(ds) + multiset{NewDependency(fed)} && !Has(ds, fed)
  {
    assert ds == ds[..i] + ds[i..];
  }

  class Dependencies {
    var all: seq<Dependency>

    constructor ()
      ensures all == []
    {
      all := [];
    }

    /** The first place whose federate is not below the given one. */
    method LowerBound(fed: nat) returns (i: nat)
      requires Ordered(all)
      ensures i <= |all| && (forall k :: 0 <= k < i ==> all[k].fed < fed)
      ensures forall k :: i <= k < |all| ==> all[k].fed >= fed
    {
      i := 0;
      var count := |all|;
      while count > 0
        invariant 0 <= count && i + count <= |all|
        invariant forall k :: 0 <= k < i ==> all[k].fed < fed
        invariant forall k :: i + count <= k < |all| ==> all[k].fed >= fed
      {
        var step := count / 2;
        if all[i + step].fed < fed {
          i := i + step + 1;
          count := count - (step + 1);
        } else {
          count := step;
        }
      }
    }

    method IsDependency(fed: nat) returns (found: bool)
      requires Ordered(all)
      ensures found <==> Has(all, fed)
    {
      var i := LowerBound(fed);
      found := i < |all| && all[i].fed == fed;
    }

    method GetDependencyInfo(fed: nat) returns (d: Option<Dependency>)
      requires Ordered(all)
      ensures d.Some? <==> Has(all, fed)
      ensures d.Some? ==> d.value in all && d.value.fed == fed
    {
      var i := LowerBound(fed);
      d := if i < |all| && all[i].fed == fed then Some(all[i]) else None;
    }

    /** Adds a federate once, keeping the order. */
    method AddDependency(fed: nat) returns (added: bool)
      requires Ordered(all)
      modifies this
      ensures Ordered(all) && (added <==> !Has(old(all), fed))
      ensures !added ==> all == old(all)
      ensures added ==>
        multiset(all) == multiset(old(all)) + multiset{Dependency(fed, Initialized, -EPSILON, 0, 0, MAX)}
    {
      var i := LowerBound(fed);
      if i < |all| && all[i].fed == fed {
        return false;
      }
      InsertedInOrder(all, i, fed);
      all := all[..i] + [NewDependency(fed)] + all[i..];
      added := true;
    }

    /** Removes a federate, if it is there. */
    method RemoveDependency(fed: nat)
      requires Ordered(all)
      modifies this
      ensures Ordered(all) && !Has(all, fed)
      ensures forall d :: d in all <==> d in old(all) && d.fed != fed
    {
      var i := LowerBound(fed);
      if i < |all| && all[i].fed == fed {
        ghost var was := all;
        all := all[..i] + all[i + 1..];
        assert forall k :: 0 <= k < |was| && k != i ==> was[k] == if k < i then all[k] else all[k - 1];
      }
    }

    /** Passes a message to the dependency it is about. */
    method UpdateTime(fed: nat, m: Message) returns (changed: bool)
      requires Ordered(all)
      modifies this
      ensures Ordered(all) && all == Updated(old(all), fed, m)
      ensures changed <==> exists d :: d in old(all) && d.fed == fed && Process(d, m).1
    {
      hide Process;
      var i := LowerBound(fed);
      changed := false;
      if i < |all| && all[i].fed == fed {
        var (d, c) := Process(all[i], m);
        all := all[i := d];
        changed := c;
      }
    }

    method CheckIfReadyForTimeGrant(time: Time) returns (ready: bool)
      ensures ready <==> ReadyForGrant(all, time)
    {
      for i := 0 to |all|
        invariant forall k :: 0 <= k < i ==> all[k].next > time || (all[k].next == time && all[k].state != TimeGranted)
      {
        if all[i].next < time {
          return false;
        }
        if all[i].next == time && all[i].state == TimeGranted {
          return false;
        }
      }
      return true;
    }

    method ResetIteratingTimeRequests(time: Time)
      modifies this
      ensures all == IterationsReset(time, old(all))
    {
      for i := 0 to |all|
        invariant |all| == |old(all)|
        invariant forall k :: 0 <= k < |all| ==>
          all[k] == if k < i then IterationReset(time, old(all)[k]) else old(all)[k]
      {
        all := all[i := IterationReset(time, all[i])];
      }
    }

    method ResetDependentEvents(time: Time)
      modifies this
      ensures all == EventsReset(time, old(all))
    {
      for i := 0 to |all|
        invariant |all| == |old(all)|
        invariant forall k :: 0 <= k < |all| ==> all[k] == if k < i then EventReset(time, old(all)[k]) else old(all)[k]
      {
        all := all[i := EventReset(time, all[i])];
      }
    }
  }
}
