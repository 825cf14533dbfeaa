/** Messages of several parts over sockets that carry frames. */
module ZmqMultipart {

  type Bytes = seq<nat>

  /** A frame on a socket; `more` says that the message goes on. */
  datatype Frame = Frame(data: Bytes, more: bool)

  // ---------- framing

  function Frames(parts: seq<Bytes>): (fs: seq<Frame>)
    ensures |fs| == |parts|
  {
    if parts == [] then [] else [Frame(parts[0], |parts| > 1)] + Frames(parts[1..])
  }

  datatype Received = Received(parts: seq<Bytes>, rest: seq<Frame>, complete: bool)

  /** Takes frames up to one without `more`, or all of them. */
  function Receive(queue: seq<Frame>): (r: Received) {
    if queue == [] then Received([], [], false)
    else if !queue[0].more then Received([queue[0].data], queue[1..], true)
    else
      var r := Receive(queue[1..]);
      Received([queue[0].data] + r.parts, r.rest, r.complete)
  }

  /** A received message with parts in front of it. */
  function After(had: seq<Bytes>, r: Received): Received {
    r.(parts := had + r.parts)
  }

  lemma {:induction false} ReceiveStep(queue: seq<Frame>, had: seq<Bytes>)
    ensures queue == [] ==> After(had, Receive(queue)) == Received(had, [], false)
    ensures queue != [] && queue[0].more ==>
      After(had, Receive(queue)) == After(had + [queue[0].data], Receive(queue[1..]))
    ensures queue != [] && !queue[0].more ==>
      After(had, Receive(queue)) == Received(had + [queue[0].data], queue[1..], true)
  {
    if queue == [] {
      assert had + [] == had;
    } else if queue[0].more {
      Regroup(had, [queue[0].data], Receive(queue[1..]).parts);
    }
  }

  lemma Regroup<T>(a: seq<T>, b: seq<T>, c: seq<T>)
    ensures a + (b + c) == (a + b) + c
  {
  }

  /** A message that was sent is received, and nothing else. */
  lemma {:induction false} ReceiveFrames(parts: seq<Bytes>, rest: seq<Frame>)
    requires parts != []
    ensures Receive(Frames(parts) + rest) == Received(parts, rest, true)
  {
    var queue := Frames(parts) + rest;
    assert queue[1..] == Frames(parts[1..]) + rest;
    if |parts| > 1 {
      ReceiveFrames(parts[1..], rest);
    } else {
      assert parts == [parts[0]] && Frames(parts[1..]) + rest == rest;
    }
  }

  /** Only a message that was sent so is received. */
  lemma {:induction false} FramesOfReceived(queue: seq<Frame>)
    ensures var r := Receive(queue);
      if r.complete then r.parts != [] && queue == Frames(r.parts) + r.rest
      else r.rest == [] && |r.parts| == |queue| && forall i :: 0 <= i < |queue| ==> queue[i] == Frame(r.parts[i], true)
  {
    if queue != [] {
      assert queue == [queue[0]] + queue[1..];
      if queue[0].more {
        FramesOfReceived(queue[1..]);
        var r := Receive(queue);
        assert r.parts[1..] == Receive(queue[1..]).parts;
      } else {
        assert Frames([queue[0].data]) == [queue[0]];
      }
    }
  }

  function AllFrames(messages: seq<seq<Bytes>>): (fs: seq<Frame>) {
    if messages == [] then [] else Frames(messages[0]) + AllFrames(messages[1..])
  }

  /** Receives until the queue is empty. */
  function ReceiveAll(queue: seq<Frame>): seq<seq<Bytes>>
    decreases |queue|
  {
    if queue == [] then [] else
      FramesOfReceived(queue);
      [Receive(queue).parts] + ReceiveAll(Receive(queue).rest)
  }

  function NonEmpty(messages: seq<seq<Bytes>>): seq<seq<Bytes>> {
    if messages == [] then []
    else (if messages[0] == [] then [] else [messages[0]]) + NonEmpty(messages[1..])
  }

  /** Any sequence of messages is received as it was sent, except that empty ones leave
      no trace. */
  lemma {:induction false} MessagesArrive(messages: seq<seq<Bytes>>)
    ensures ReceiveAll(AllFrames(messages)) == NonEmpty(messages)
  {
    if messages != [] {
      var first, rest := messages[0], AllFrames(messages[1..]);
      MessagesArrive(messages[1..]);
      if first == [] {
        assert Frames(first) + rest == rest;
      } else {
        ReceiveFrames(first, rest);
        assert AllFrames(messages) != [] by { assert (Frames(first) + rest)[0] == Frames(first)[0]; }
      }
    }
  }

  // ---------- the classes

  /** A socket pair seen as one queue. Each entry of `refusals` settles one attempt to
      send; all attempts after those succeed. */
  class Socket {
    var queue: seq<Frame>
    var refusals: seq<bool>

    method Send(f: Frame) returns (ok: bool)
      modifies this
      ensures ok == (old(refusals) == [] || !old(refusals)[0])
      ensures queue == if ok then old(queue) + [f] else old(queue)
      ensures refusals == if old(refusals) == [] then [] else old(refusals)[1..]
    {
      ok := true;
      if refusals != [] {
        ok := !refusals[0];
        refusals := refusals[1..];
      }
      if ok {
        queue := queue + [f];
      }
    }

    method Recv() returns (f: Frame, ok: bool)
      modifies this`queue
      ensures ok == (old(queue) != [])
      ensures ok ==> old(queue) == [f] + queue
      ensures !ok ==> queue == []
    {
      f, ok := Frame([], false), queue != [];
      if ok {
        f := queue[0];
        queue := queue[1..];
      }
    }
  }

  /** How many attempts succeed before the first refusal among the next n. */
  function Accepted(refusals: seq<bool>, n: nat): (k: nat)
    ensures k <= n
  {
    if n == 0 || (refusals != [] && refusals[0]) then 0
    else 1 + Accepted(if refusals == [] then [] else refusals[1..], n - 1)
  }

  /** A socket that refuses nothing takes all parts. */
  lemma {:induction false} NothingRefused(n: nat)
    ensures Accepted([], n) == n
  {
    if n > 0 {
      NothingRefused(n - 1);
    }
  }

  lemma AcceptedStep(refusals: seq<bool>, n: nat)
    ensures n == 0 || (refusals != [] && refusals[0]) ==> Accepted(refusals, n) == 0
    ensures n > 0 && !(refusals != [] && refusals[0]) ==>
      Accepted(refusals, n) == 1 + Accepted(if refusals == [] then [] else refusals[1..], n - 1)
  {
  }

  /** The frame of the k-th part. */
  lemma {:induction false} FrameAt(parts: seq<Bytes>, k: nat)
    requires k < |parts|
    ensures Frames(parts)[k] == Frame(parts[k], k + 1 < |parts|)
  {
    if k > 0 {
      FrameAt(parts[1..], k - 1);
    }
  }

  lemma OneMore<T>(s: seq<T>, k: nat)
    requires k < |s|
    ensures s[..k + 1] == s[..k] + [s[k]] && s[k..] == [s[k]] + s[k + 1..]
  {
  }

  lemma {:induction false} NextFrame(parts: seq<Bytes>, k: nat)
    requires k < |parts|
    ensures Frames(parts)[k] == Frame(parts[k], k + 1 < |parts|)
    ensures Frames(parts)[..k + 1] == Frames(parts)[..k] + [Frames(parts)[k]]
    ensures parts[k..] == [parts[k]] + parts[k + 1..]
  {
    hide Frames;
    FrameAt(parts, k);
    OneMore(Frames(parts), k);
    OneMore(parts, k);
  }

  class Multipart {
    var parts: seq<Bytes>

    constructor ()
      ensures parts == []
    {
      parts := [];
    }

    method Push(message: Bytes)
      modifies this
      ensures parts == [message] + old(parts)
    {
      parts := [message] + parts;
    }

    method Add(message: Bytes)
      modifies this
      ensures parts == old(parts) + [message]
    {
      parts := parts + [message];
    }

    method Pop() returns (message: Bytes)
      requires parts != []
      modifies this
      ensures old(parts) == [message] + parts
    {
      message := parts[0];
      parts := parts[1..];
    }

    method Remove() returns (message: Bytes)
      requires parts != []
      modifies this
      ensures old(parts) == parts + [message]
    {
      message := parts[|parts| - 1];
      parts := parts[..|parts| - 1];
    }

    method Clear()
      modifies this
      ensures parts == []
    {
      parts := [];
    }

    /** Receives one message; what came of an incomplete one is kept. */
    method Recv(socket: Socket) returns (ok: bool)
      modifies this, socket`queue
      ensures var r := Receive(old(socket.queue));
        parts == r.parts && socket.queue == r.rest && ok == r.complete
    {
      hide Receive;
      Clear();
      ghost var goal := Receive(socket.queue);
      assert [] + goal.parts == goal.parts;
      var more := true;
      while more
        invariant more ==> goal == After(parts, Receive(socket.queue))
        invariant !more ==> goal == Received(parts, socket.queue, true)
        decreases more, |socket.queue|
      {
        ReceiveStep(socket.queue, parts);
        ghost var queue := socket.queue;
        var message, taken := socket.Recv();
        if !taken {
          return false;
        }
        assert queue[0] == message && queue[1..] == socket.queue;
        more := message.more;
        Add(message.data);
      }
      return true;
    }

    /** Sends all parts; the first refusal ends it, and the part refused is gone. */
    method Send(socket: Socket) returns (ok: bool)
      modifies this, socket
      ensures var n := |old(parts)|; var k := Accepted(old(socket.refusals), n);
        && ok == (k == n)
        && socket.queue == old(socket.queue) + Frames(old(parts))[..k]
        && parts == if ok then [] else old(parts)[k + 1..]
    {
      hide Frames, Accepted;
      ghost var all, k := parts, 0;
      ghost var total := Accepted(socket.refusals, |parts|);
      var more := |parts| > 0;
      assert Frames(all)[..0] == [];
      while more
        invariant k <= |all| && parts == all[k..] && more == (|parts| > 0)
        invariant socket.queue == old(socket.queue) + Frames(all)[..k]
        invariant total == k + Accepted(socket.refusals, |parts|)
        decreases |parts|
      {
        NextFrame(all, k);
        AcceptedStep(socket.refusals, |parts|);
        ghost var before := Frames(all)[..k];
        var message := Pop();
        more := |parts| > 0;
        var sent := socket.Send(Frame(message, more));
        if !sent {
          return false;
        }
        Regroup(old(socket.queue), before, [Frames(all)[k]]);
        k := k + 1;
      }
      AcceptedStep(socket.refusals, |parts|);
      assert Frames(all)[..k] == Frames(all);
      Clear();
      return true;
    }

    /** Puts the other message in front of this one and empties it. */
    method Prepend(other: Multipart)
      requires other != this
      modifies this, other
      ensures parts == old(other.parts) + old(parts) && other.parts == []
    {
      while other.parts != []
        invariant other.parts + parts == old(other.parts) + old(parts)
        decreases |other.parts|
      {
        ghost var before := other.parts;
        var message := other.Remove();
        assert before + parts == other.parts + ([message] + parts);
        Push(message);
      }
    }

    /** Puts the other message behind this one and empties it. */
    method Append(other: Multipart)
      requires other != this
      modifies this, other
      ensures parts == old(parts) + old(other.parts) && other.parts == []
    {
      while other.parts != []
        invariant parts + other.parts == old(parts) + old(other.parts)
        decreases |other.parts|
      {
        ghost var before := other.parts;
        var message := other.Pop();
        assert parts + before == (parts + [message]) + other.parts;
        Add(message);
      }
    }

    method Clone() returns (copy: Multipart)
      ensures fresh(copy) && copy.parts == parts
    {
      copy := new Multipart();
      for i := 0 to |parts|
        invariant copy.parts == parts[..i]
      {
        copy.Add(parts[i]);
      }
    }

    method Equal(other: Multipart) returns (same: bool)
      ensures same <==> parts == other.parts
    {
      if |parts| != |other.parts| {
        return false;
      }
      for i := 0 to |parts|
        invariant forall k :: 0 <= k < i ==> parts[k] == other.parts[k]
      {
        if parts[i] != other.parts[i] {
          return false;
        }
      }
      return true;
    }
  }
}
