/** The local fan-out transport (services/broadcastService.ts): a registry
    of listener callbacks and the channel that posted events go out on. The
    channel itself is the outbound log `posted`. */
module Broadcasting {
  import opened Types

  /** A registered callback, known only by its identity: unsubscribing
      compares callbacks by reference. */
  type Listener = nat

  /** `listeners.filter(l => l !== cb)`. */
  function Without(ls: seq<Listener>, cb: Listener): seq<Listener> {
    if ls == [] then [] else (if ls[0] == cb then [] else [ls[0]]) + Without(ls[1..], cb)
  }

  /** The filter works piecewise: it keeps everything but `cb`, in order. */
  lemma {:induction false} WithoutConcat(a: seq<Listener>, b: seq<Listener>, cb: Listener)
    ensures Without(a + b, cb) == Without(a, cb) + Without(b, cb)
    decreases |a|
  {
    if a != [] {
      assert (a + b)[0] == a[0] && (a + b)[1..] == a[1..] + b;
      WithoutConcat(a[1..], b, cb);
    } else {
      assert a + b == b;
    }
  }

  /** Nothing equal to `cb` is left, and every other callback keeps its
      number of registrations. */
  lemma {:induction false} WithoutCounts(ls: seq<Listener>, cb: Listener)
    ensures cb !in Without(ls, cb)
    ensures forall x :: x != cb ==> multiset(Without(ls, cb))[x] == multiset(ls)[x]
    decreases |ls|
  {
    if ls != [] {
      WithoutCounts(ls[1..], cb);
      assert ls == [ls[0]] + ls[1..];
    }
  }

  /** Unsubscribing twice is unsubscribing once. */
  lemma {:induction false} WithoutIdempotent(ls: seq<Listener>, cb: Listener)
    ensures Without(Without(ls, cb), cb) == Without(ls, cb)
    decreases |ls|
  {
    if ls != [] {
      WithoutIdempotent(ls[1..], cb);
      WithoutConcat(if ls[0] == cb then [] else [ls[0]], Without(ls[1..], cb), cb);
    }
  }

  /** A callback that was not registered before is gone again after
      subscribing and unsubscribing it, and the rest are as they were. */
  lemma {:induction false} SubscribeThenUnsubscribe(ls: seq<Listener>, cb: Listener)
    requires cb !in ls
    ensures Without(ls + [cb], cb) == ls
    decreases |ls|
  {
    WithoutConcat(ls, [cb], cb);
    WithoutAbsent(ls, cb);
  }

  /** Filtering out a callback that is not registered changes nothing. */
  lemma {:induction false} WithoutAbsent(ls: seq<Listener>, cb: Listener)
    requires cb !in ls
    ensures Without(ls, cb) == ls
    decreases |ls|
  {
    if ls != [] {
      WithoutAbsent(ls[1..], cb);
      assert ls == [ls[0]] + ls[1..];
    }
  }

  class BroadcastService {
    var listeners: seq<Listener>
    /** Everything `broadcast` has posted on the channel, oldest first. */
    var posted: seq<BroadcastEvent>

    constructor ()
      ensures listeners == [] && posted == []
    {
      listeners, posted := [], [];
    }

    /** `subscribe` (lines 15-16): the callback goes to the end of the list. */
    method Subscribe(cb: Listener)
      modifies this`listeners
      ensures listeners == old(listeners) + [cb]
    {
      listeners := listeners + [cb];
    }

    /** The function `subscribe` returns (lines 17-19): every registration of
        the callback is dropped, the others stay in order. */
    method Unsubscribe(cb: Listener)
      modifies this`listeners
      ensures listeners == Without(old(listeners), cb)
    {
      var ls := listeners;
      var kept: seq<Listener> := [];
      var i := 0;
      while i < |ls|
        invariant 0 <= i <= |ls|
        invariant kept == Without(ls[..i], cb)
      {
        WithoutConcat(ls[..i], [ls[i]], cb);
        assert ls[..i + 1] == ls[..i] + [ls[i]];
        if ls[i] != cb {
          kept := kept + [ls[i]];
        }
        i := i + 1;
      }
      assert ls[..i] == ls;
      listeners := kept;
    }

    /** `channel.onmessage` (lines 10-12): the incoming event is handed to
        every registered listener once, in list order. The result lists the
        calls made. */
    method OnMessage(e: BroadcastEvent) returns (calls: seq<(Listener, BroadcastEvent)>)
      ensures |calls| == |listeners|
      ensures forall i :: 0 <= i < |calls| ==> calls[i] == (listeners[i], e)
    {
      calls := [];
      var i := 0;
      while i < |listeners|
        invariant 0 <= i <= |listeners| && |calls| == i
        invariant forall j :: 0 <= j < i ==> calls[j] == (listeners[j], e)
      {
        calls := calls + [(listeners[i], e)];
        i := i + 1;
      }
    }

    /** `broadcast` (lines 22-24): the event is posted on the channel; no
        local listener is called and the registry is untouched. */
    method Broadcast(e: BroadcastEvent)
      modifies this`posted
      ensures posted == old(posted) + [e]
    {
      posted := posted + [e];
    }
  }
}
