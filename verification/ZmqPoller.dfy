/** A poller that calls a handler for each socket that is ready, and caches the handlers
    and a buffer of events between changes. */
module ZmqPoller {
  import opened Basics

  type Sock = nat

  /** A handler; one made from an empty function is not callable. */
  class Handler {
    const callable: bool

    constructor (callable: bool)
      ensures this.callable == callable
    {
      this.callable := callable;
    }
  }

  datatype Registration = Registration(events: int, userData: Handler?)

  datatype Event = Event(socket: Sock, events: int, userData: Handler?)

  lemma {:induction false} DistinctInSet<T>(s: seq<T>, all: set<T>)
    requires Distinct(s) && forall x :: x in s ==> x in all
    ensures |s| <= |all|
    decreases |s|
  {
    if s != [] {
      var last := s[|s| - 1];
      DistinctInSet(s[..|s| - 1], all - {last});
    }
  }

  // ---------- the underlying poller

  /** The faults that are left after n calls. */
  function FaultsAfter(faults: seq<bool>, n: nat): seq<bool> { if n <= |faults| then faults[n..] else [] }

  /** The poller of the library. Each entry of `faults` says whether one call fails for
      a reason of its own; all calls after those do not. */
  class BasePoller {
    var registered: map<Sock, Registration>
    var faults: seq<bool>

    constructor (faults: seq<bool>)
      ensures registered == map[] && this.faults == faults
    {
      registered := map[];
      this.faults := faults;
    }

    ghost predicate Faulty()
      reads this
    {
      faults != [] && faults[0]
    }

    method Fails() returns (fault: bool)
      modifies this`faults
      ensures fault == old(Faulty()) && faults == FaultsAfter(old(faults), 1)
    {
      fault := false;
      if faults != [] {
        fault := faults[0];
        faults := faults[1..];
      }
    }

    method Add(s: Sock, events: int, userData: Handler?) returns (ok: bool)
      modifies this
      ensures ok == (!old(Faulty()) && s !in old(registered)) && faults == FaultsAfter(old(faults), 1)
      ensures registered == if ok then old(registered)[s := Registration(events, userData)] else old(registered)
    {
      var fault := Fails();
      ok := !fault && s !in registered;
      if ok {
        registered := registered[s := Registration(events, userData)];
      }
    }

    method Remove(s: Sock) returns (ok: bool)
      modifies this
      ensures ok == (!old(Faulty()) && s in old(registered)) && faults == FaultsAfter(old(faults), 1)
      ensures registered == if ok then old(registered) - {s} else old(registered)
    {
      var fault := Fails();
      ok := !fault && s in registered;
      if ok {
        registered := registered - {s};
      }
    }

    method Modify(s: Sock, events: int) returns (ok: bool)
      modifies this
      ensures ok == (!old(Faulty()) && s in old(registered)) && faults == FaultsAfter(old(faults), 1)
      ensures registered ==
        if ok then old(registered)[s := old(registered)[s].(events := events)] else old(registered)
    {
      var fault := Fails();
      ok := !fault && s in registered;
      if ok {
        registered := registered[s := registered[s].(events := events)];
      }
    }

    /** Reports the first of the sockets that are ready, as many as there are slots. */
    method WaitAll(slots: nat, ready: seq<Sock>) returns (reported: seq<Event>, ok: bool)
      requires forall s :: s in ready ==> s in registered
      modifies this`faults
      ensures ok == !old(Faulty()) && faults == FaultsAfter(old(faults), 1)
      ensures |reported| == if !ok then 0 else if |ready| <= slots then |ready| else slots
      ensures forall i :: 0 <= i < |reported| ==>
        reported[i] == Event(ready[i], registered[ready[i]].events, registered[ready[i]].userData)
    {
      reported := [];
      var fault := Fails();
      ok := !fault;
      if ok {
        var n := if |ready| <= slots then |ready| else slots;
        for i := 0 to n
          invariant |reported| == i
          invariant forall k :: 0 <= k < i ==>
            reported[k] == Event(ready[k], registered[ready[k]].events, registered[ready[k]].userData)
        {
          reported := reported + [Event(ready[i], registered[ready[i]].events, registered[ready[i]].userData)];
        }
      }
    }
  }

  // ---------- the poller with handlers

  /** The calls made for the events reported. */
  ghost function CallsOf(reported: seq<Event>): seq<(Handler, int)> {
    if reported == [] then [] else
      var last := reported[|reported| - 1];
      CallsOf(reported[..|reported| - 1]) + if last.userData != null then [(last.userData, last.events)] else []
  }

  /** The cache holds every handler once, with one slot for each. */
  ghost predicate Cached(handlers: map<Sock, Handler>, slots: nat, pollerHandlers: seq<Handler>) {
    && slots == |handlers| && |pollerHandlers| == |handlers| && Distinct(pollerHandlers)
    && (forall h :: h in pollerHandlers ==> h in handlers.Values)
    && (forall s :: s in handlers ==> handlers[s] in pollerHandlers)
  }

  ghost function UserData(h: Handler): Handler? {
    if h.callable then h else null
  }

  /** The library's poller and the handlers agree on every socket. */
  ghost predicate Agrees(registered: map<Sock, Registration>, handlers: map<Sock, Handler>) {
    && registered.Keys == handlers.Keys
    && (forall s :: s in handlers ==> registered[s].userData == UserData(handlers[s]))
    && (forall s, t :: s in handlers && t in handlers && s != t ==> handlers[s] != handlers[t])
  }

  /** What a handler may do to the poller while it runs. */
  datatype Change =
    | AddSocket(socket: Sock, events: int, callable: bool)
    | RemoveSocket(socket: Sock)
    | ModifySocket(socket: Sock, events: int)

  /** A socket of a poller: the events that it waits for, and whether there is something to call. */
  datatype Entry = Entry(events: int, callable: bool)

  type Entries = map<Sock, Entry>

  ghost function EntriesOf(registered: map<Sock, Registration>, handlers: map<Sock, Handler>): Entries
  {
    map s | s in handlers && s in registered :: Entry(registered[s].events, handlers[s].callable)
  }

  /** A change, or nothing if the library fails or has no such socket or has it already. */
  function Changed(es: Entries, fault: bool, change: Change): Entries {
    if fault || (change.socket in es) == change.AddSocket? then es else
      match change
      case AddSocket(s, events, callable) => es[s := Entry(events, callable)]
      case RemoveSocket(s) => es - {s}
      case ModifySocket(s, events) => es[s := es[s].(events := events)]
  }

  lemma AddedAgrees(registered: map<Sock, Registration>, handlers: map<Sock, Handler>, s: Sock, events: int, h: Handler)
    requires Agrees(registered, handlers) && s !in handlers && forall t :: t in handlers ==> handlers[t] != h
    ensures Agrees(registered[s := Registration(events, UserData(h))], handlers[s := h])
    ensures EntriesOf(registered[s := Registration(events, UserData(h))], handlers[s := h])
            == Changed(EntriesOf(registered, handlers), false, AddSocket(s, events, h.callable))
  {
  }

  lemma RemovedAgrees(registered: map<Sock, Registration>, handlers: map<Sock, Handler>, s: Sock)
    requires Agrees(registered, handlers)
    ensures Agrees(registered - {s}, handlers - {s})
    ensures EntriesOf(registered - {s}, handlers - {s})
            == Changed(EntriesOf(registered, handlers), false, RemoveSocket(s))
  {
  }

  lemma ModifiedAgrees(registered: map<Sock, Registration>, handlers: map<Sock, Handler>, s: Sock, events: int)
    requires Agrees(registered, handlers) && s in registered
    ensures Agrees(registered[s := registered[s].(events := events)], handlers)
    ensures EntriesOf(registered[s := registered[s].(events := events)], handlers)
            == Changed(EntriesOf(registered, handlers), false, ModifySocket(s, events))
  {
  }

  /** A change that the library refuses changes nothing. */
  lemma RefusedStays(registered: map<Sock, Registration>, handlers: map<Sock, Handler>, fault: bool, change: Change)
    requires Agrees(registered, handlers) && (fault || (change.socket in handlers) == change.AddSocket?)
    ensures Changed(EntriesOf(registered, handlers), fault, change) == EntriesOf(registered, handlers)
  {
  }

  lemma AddThenRemove(handlers: map<Sock, Handler>, s: Sock, h: Handler)
    requires s !in handlers
    ensures handlers[s := h] - {s} == handlers
  {
  }

  /** The handlers of all sockets but those left are in, each once. */
  ghost predicate Collected(handlers: map<Sock, Handler>, left: set<Sock>, got: seq<Handler>) {
    && left <= handlers.Keys && |got| == |handlers.Keys| - |left| && Distinct(got)
    && (forall h :: h in got ==> exists s :: s in handlers && s !in left && handlers[s] == h)
    && (forall s :: s in handlers && s !in left ==> handlers[s] in got)
  }

  lemma CollectedNext(registered: map<Sock, Registration>, handlers: map<Sock, Handler>, left: set<Sock>,
                      got: seq<Handler>, s: Sock)
    requires Agrees(registered, handlers) && Collected(handlers, left, got) && s in left
    ensures Collected(handlers, left - {s}, got + [handlers[s]])
  {
    var all := got + [handlers[s]];
    assert handlers[s] !in got;
    forall h | h in all
      ensures exists t :: t in handlers && t !in left - {s} && handlers[t] == h
    {
      if h in got {
        var t :| t in handlers && t !in left && handlers[t] == h;
        assert t !in left - {s};
      } else {
        assert s !in left - {s};
      }
    }
  }

  lemma CollectedAll(handlers: map<Sock, Handler>, got: seq<Handler>)
    requires Collected(handlers, {}, got)
    ensures Cached(handlers, |handlers|, got)
  {
    assert |handlers.Keys| == |handlers|;
  }

  /** The calls due to the sockets that are ready, in order: those of callable handlers. */
  ghost function Calls(ready: seq<Sock>, handlers: map<Sock, Handler>,
                       registered: map<Sock, Registration>): seq<(Handler, int)>
    requires forall s :: s in ready ==> s in handlers && s in registered
  {
    if ready == [] then [] else
      var last := ready[|ready| - 1];
      Calls(ready[..|ready| - 1], handlers, registered) +
      if handlers[last].callable then [(handlers[last], registered[last].events)] else []
  }

  lemma {:induction false} ReportedCalls(ready: seq<Sock>, reported: seq<Event>, handlers: map<Sock, Handler>,
                                         registered: map<Sock, Registration>)
    requires forall s :: s in ready ==>
      s in handlers && s in registered && registered[s].userData == UserData(handlers[s])
    requires |reported| == |ready| && forall i :: 0 <= i < |ready| ==>
      reported[i] == Event(ready[i], registered[ready[i]].events, registered[ready[i]].userData)
    ensures CallsOf(reported) == Calls(ready, handlers, registered)
    decreases |ready|
  {
    if ready != [] {
      ReportedCalls(ready[..|ready| - 1], reported[..|ready| - 1], handlers, registered);
      assert ready[|ready| - 1] in ready;
    }
  }

  // ---------- what a user sees of the poller

  /** Changes in order, each with its own fault. */
  function ChangedAll(es: Entries, faults: seq<bool>, changes: seq<Change>): Entries
    decreases |changes|
  {
    if changes == [] then es else
      var n := |changes| - 1;
      Changed(ChangedAll(es, faults, changes[..n]), n < |faults| && faults[n], changes[n])
  }

  /** The changes that the handlers called for the events make. */
  function ChangesOf(called: seq<bool>, changes: seq<seq<Change>>): seq<Change>
    decreases |called|
  {
    if called == [] then [] else
      var n := |called| - 1;
      ChangesOf(called[..n], changes) + if called[n] && n < |changes| then changes[n] else []
  }

  /** Which of the events reported, or of the sockets that are ready, have something to call. */
  ghost function CalledBy(reported: seq<Event>): (called: seq<bool>)
    ensures |called| == |reported|
  {
    seq(|reported|, i requires 0 <= i < |reported| => reported[i].userData != null)
  }

  ghost function CallableAt(ready: seq<Sock>, es: Entries): (called: seq<bool>)
    requires forall s :: s in ready ==> s in es
    ensures |called| == |ready|
  {
    seq(|ready|, i requires 0 <= i < |ready| => es[ready[i]].callable)
  }

  lemma {:induction false} ChangesOn(es: Entries, faults: seq<bool>, changes: seq<Change>, more: seq<Change>)
    ensures ChangedAll(es, faults, changes + more)
            == ChangedAll(ChangedAll(es, faults, changes), FaultsAfter(faults, |changes|), more)
    decreases |more|
  {
    hide Changed;
    if more == [] {
      assert changes + more == changes;
    } else {
      var n := |more| - 1;
      assert (changes + more)[..|changes| + n] == changes + more[..n];
      ChangesOn(es, faults, changes, more[..n]);
    }
  }

  lemma NoChanges(es: Entries, faults: seq<bool>, changes: seq<seq<Change>>)
    ensures ChangedAll(es, faults, ChangesOf(CalledBy([]), changes)) == es && CallsOf([]) == []
  {
  }

  /** The changes for one more event come after those for the events before it. */
  lemma NextChanges(es: Entries, faults: seq<bool>, called: seq<bool>, changes: seq<seq<Change>>, i: nat)
    requires i < |called|
    ensures var before, after := ChangesOf(called[..i], changes), ChangesOf(called[..i + 1], changes);
            var more := if i < |changes| then changes[i] else [];
            var left := FaultsAfter(faults, |before|);
            if called[i] then
              && ChangedAll(es, faults, after) == ChangedAll(ChangedAll(es, faults, before), left, more)
              && FaultsAfter(faults, |after|) == FaultsAfter(left, |more|)
            else after == before
  {
    hide ChangedAll;
    var before := ChangesOf(called[..i], changes);
    assert called[..i + 1][..i] == called[..i] && before + [] == before;
    ChangesOn(es, faults, before, if i < |changes| then changes[i] else []);
  }

  lemma CalledReady(ready: seq<Sock>, reported: seq<Event>, handlers: map<Sock, Handler>,
                    registered: map<Sock, Registration>)
    requires Agrees(registered, handlers) && forall s :: s in ready ==> s in handlers
    requires |reported| == |ready| && forall i :: 0 <= i < |ready| ==>
      reported[i] == Event(ready[i], registered[ready[i]].events, registered[ready[i]].userData)
    ensures CalledBy(reported) == CallableAt(ready, EntriesOf(registered, handlers))
  {
  }

  class ActivePoller {
    var needRebuild: bool
    const base: BasePoller
    var handlers: map<Sock, Handler>
    var slots: nat
    var pollerHandlers: seq<Handler>

    constructor (faults: seq<bool>)
      ensures Valid() && fresh(base) && handlers == map[] && View() == map[] && base.faults == faults
    {
      needRebuild, handlers, slots, pollerHandlers := false, map[], 0, [];
      base := new BasePoller(faults);
    }

    /** The sockets of the poller. */
    ghost function View(): Entries
      reads this, base
    {
      EntriesOf(base.registered, handlers)
    }

    ghost predicate Valid()
      reads this, base
    {
      && Agrees(base.registered, handlers)
      && (needRebuild || Cached(handlers, slots, pollerHandlers))
    }

    /** Adds a socket, or leaves everything as it was when the library refuses. */
    method Add(socket: Sock, events: int, callable: bool) returns (ok: bool)
      requires Valid()
      modifies this`handlers, this`needRebuild, base
      ensures Valid()
      ensures ok <==> socket !in old(handlers) && !old(base.Faulty())
      ensures ok ==> socket in handlers && fresh(handlers[socket])
      ensures ok ==> handlers == old(handlers)[socket := handlers[socket]] && needRebuild
      ensures ok ==> handlers[socket].callable == callable
      ensures ok ==>
        base.registered == old(base.registered)[socket := Registration(events, UserData(handlers[socket]))]
      ensures !ok ==> handlers == old(handlers) && needRebuild == old(needRebuild)
      ensures !ok ==> base.registered == old(base.registered)
      ensures View() == Changed(old(View()), old(base.Faulty()), AddSocket(socket, events, callable))
      ensures base.faults == FaultsAfter(old(base.faults), 1)
    {
      var handler := new Handler(callable);
      var inserted := socket !in handlers;
      if inserted {
        AddedAgrees(base.registered, handlers, socket, events, handler);
        AddThenRemove(handlers, socket, handler);
      }
      assert socket in base.registered <==> socket in handlers;
      if !inserted || base.Faulty() {
        RefusedStays(base.registered, handlers, base.Faulty(), AddSocket(socket, events, callable));
      }
      hide Agrees, Cached, EntriesOf, Changed;
      if inserted {
        handlers := handlers[socket := handler];
      }
      ok := base.Add(socket, events, if inserted && handler.callable then handler else null);
      if ok {
        needRebuild := needRebuild || inserted;
      } else if inserted {
        handlers := handlers - {socket};
      }
    }

    /** Removes a socket, or leaves everything as it was when the library refuses. */
    method Remove(socket: Sock) returns (ok: bool)
      requires Valid()
      modifies this`handlers, this`needRebuild, base
      ensures Valid()
      ensures ok <==> socket in old(handlers) && !old(base.Faulty())
      ensures ok ==> handlers == old(handlers) - {socket} && needRebuild
      ensures !ok ==> handlers == old(handlers) && needRebuild == old(needRebuild)
      ensures base.registered == if ok then old(base.registered) - {socket} else old(base.registered)
      ensures View() == Changed(old(View()), old(base.Faulty()), RemoveSocket(socket))
      ensures base.faults == FaultsAfter(old(base.faults), 1)
    {
      RemovedAgrees(base.registered, handlers, socket);
      assert socket in base.registered <==> socket in handlers;
      if socket !in handlers || base.Faulty() {
        RefusedStays(base.registered, handlers, base.Faulty(), RemoveSocket(socket));
      }
      hide Agrees, Cached, EntriesOf, Changed;
      ok := base.Remove(socket);
      if ok {
        handlers := handlers - {socket};
        needRebuild := true;
      }
    }

    /** Changes the events of one socket, and nothing else. */
    method Modify(socket: Sock, events: int) returns (ok: bool)
      requires Valid()
      modifies base
      ensures Valid() && (ok <==> socket in handlers && !old(base.Faulty()))
      ensures base.registered ==
        if ok then old(base.registered)[socket := old(base.registered)[socket].(events := events)]
        else old(base.registered)
      ensures View() == Changed(old(View()), old(base.Faulty()), ModifySocket(socket, events))
      ensures base.faults == FaultsAfter(old(base.faults), 1)
    {
      if socket in base.registered {
        ModifiedAgrees(base.registered, handlers, socket, events);
      }
      assert socket in base.registered <==> socket in handlers;
      if socket !in handlers || base.Faulty() {
        RefusedStays(base.registered, handlers, base.Faulty(), ModifySocket(socket, events));
      }
      hide Agrees, Cached, EntriesOf, Changed;
      ok := base.Modify(socket, events);
    }

    method Rebuild()
      requires Agrees(base.registered, handlers)
      modifies this`needRebuild, this`slots, this`pollerHandlers
      ensures Valid() && !needRebuild
    {
      slots := |handlers|;
      pollerHandlers := [];
      var left := handlers.Keys;
      while left != {}
        invariant slots == |handlers| && Collected(handlers, left, pollerHandlers)
        decreases |left|
      {
        var s :| s in left;
        CollectedNext(base.registered, handlers, left, pollerHandlers, s);
        pollerHandlers := pollerHandlers + [handlers[s]];
        left := left - {s};
      }
      CollectedAll(handlers, pollerHandlers);
      needRebuild := false;
    }

    method Apply(change: Change)
      requires Valid()
      modifies this`handlers, this`needRebuild, base
      ensures Valid() && View() == Changed(old(View()), old(base.Faulty()), change)
      ensures base.faults == FaultsAfter(old(base.faults), 1)
    {
      match change
      case AddSocket(s, events, callable) => var _ := Add(s, events, callable);
      case RemoveSocket(s) => var _ := Remove(s);
      case ModifySocket(s, events) => var _ := Modify(s, events);
    }

    method ApplyAll(changes: seq<Change>)
      requires Valid()
      modifies this`handlers, this`needRebuild, base
      ensures Valid() && View() == ChangedAll(old(View()), old(base.faults), changes)
      ensures base.faults == FaultsAfter(old(base.faults), |changes|)
    {
      for j := 0 to |changes|
        invariant Valid() && View() == ChangedAll(old(View()), old(base.faults), changes[..j])
        invariant base.faults == FaultsAfter(old(base.faults), j)
      {
        assert changes[..j + 1][..j] == changes[..j];
        Apply(changes[j]);
      }
      assert changes[..|changes|] == changes;
    }

    /** Waits and calls the handlers of the sockets that are ready. Each call may change
        the poller; the handlers called later are still held, and no ready socket is
        left out. */
    method Wait(ready: seq<Sock>, changes: seq<seq<Change>>) returns (calls: seq<(Handler, int)>, count: nat, ok: bool)
      requires Valid() && Distinct(ready) && forall s :: s in ready ==> s in handlers
      modifies this, base
      ensures Valid() && ok == !old(base.Faulty())
      ensures count == if ok then |ready| else 0
      ensures calls == if ok then old(Calls(ready, handlers, base.registered)) else []
      ensures forall i :: 0 <= i < |calls| ==> calls[i].0 in pollerHandlers
      ensures View() == if !ok then old(View()) else
          ChangedAll(old(View()), FaultsAfter(old(base.faults), 1),
                     ChangesOf(old(CallableAt(ready, View())), changes))
    {
      if needRebuild {
        Rebuild();
      }
      hide Distinct, Agrees, Cached, Calls, EntriesOf, ChangedAll, ChangesOf, CalledBy, CallableAt;
      var reported;
      reported, ok := Report(ready);
      count := |reported|;
      NoChanges(View(), base.faults, changes);
      calls := Dispatch(reported, changes);
    }

    /** The events of all sockets that are ready. */
    method Report(ready: seq<Sock>) returns (reported: seq<Event>, ok: bool)
      requires Valid() && !needRebuild && Distinct(ready) && forall s :: s in ready ==> s in handlers
      modifies base`faults
      ensures Valid() && View() == old(View())
      ensures ok == !old(base.Faulty()) && base.faults == FaultsAfter(old(base.faults), 1)
      ensures if !ok then reported == [] else
          && |reported| == |ready| && CallsOf(reported) == Calls(ready, handlers, base.registered)
          && CalledBy(reported) == CallableAt(ready, View())
      ensures forall i :: 0 <= i < |reported| && reported[i].userData != null ==>
        reported[i].userData in pollerHandlers
    {
      DistinctInSet(ready, handlers.Keys);
      reported, ok := base.WaitAll(slots, ready);
      if ok {
        ReportedCalls(ready, reported, handlers, base.registered);
        CalledReady(ready, reported, handlers, base.registered);
      }
    }

    /** Calls the handlers of the events reported. */
    method Dispatch(reported: seq<Event>, changes: seq<seq<Change>>) returns (calls: seq<(Handler, int)>)
      requires Valid()
      requires forall i :: 0 <= i < |reported| && reported[i].userData != null ==>
        reported[i].userData in pollerHandlers
      modifies this`handlers, this`needRebuild, base
      ensures Valid() && calls == CallsOf(reported)
      ensures forall i :: 0 <= i < |calls| ==> calls[i].0 in pollerHandlers
      ensures View() == ChangedAll(old(View()), old(base.faults), ChangesOf(CalledBy(reported), changes))
    {
      calls := [];
      ghost var called := CalledBy(reported);
      assert View() == ChangedAll(View(), base.faults, ChangesOf(called[..0], changes));
      assert base.faults == FaultsAfter(base.faults, |ChangesOf(called[..0], changes)|);
      hide Agrees, Cached, Changed, ChangedAll, EntriesOf, ChangesOf, FaultsAfter;
      for i := 0 to |reported|
        invariant Valid() && calls == CallsOf(reported[..i])
        invariant forall k :: 0 <= k < |calls| ==> calls[k].0 in pollerHandlers
        invariant View() == ChangedAll(old(View()), old(base.faults), ChangesOf(called[..i], changes))
        invariant base.faults == FaultsAfter(old(base.faults), |ChangesOf(called[..i], changes)|)
      {
        NextChanges(old(View()), old(base.faults), called, changes, i);
        assert reported[..i + 1][..i] == reported[..i];
        if reported[i].userData != null {
          calls := calls + [(reported[i].userData, reported[i].events)];
          ApplyAll(if i < |changes| then changes[i] else []);
        }
      }
      assert reported[..|reported|] == reported && called[..|reported|] == called;
    }
  }
}
