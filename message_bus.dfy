/**
 * The message bus (engine/message_bus.h) in the two shapes the repository uses:
 *
 *  - ListBus: the class as written, one ordered list of subscribers, every
 *    message delivered to each of them in subscription order;
 *  - KeyedBus: the interface its call sites use (component.h, engine.h,
 *    main.cpp), one such list per message id, with payload-taking and
 *    payload-ignoring subscribers.
 *
 * Subscribers are std::function values in the source; here they are opaque
 * identities (type parameter S or H), and a send returns the trace of the
 * calls it makes instead of running arbitrary code.
 */
module MessageBus {
  import opened Wrappers

  /** One call made by ListBus.SendMessage: which subscriber, with which message. */
  datatype Delivery<S, M> = Delivery(subscriber: S, message: M)

  /** The calls a send makes to the list `subs`, in order. */
  function Deliveries<S, M>(subs: seq<S>, m: M): (ds: seq<Delivery<S, M>>)
  {
    if subs == [] then [] else [Delivery(subs[0], m)] + Deliveries(subs[1..], m)
  }

  /** Deliveries reaches each subscriber once, in list order, with the message sent. */
  lemma {:induction false} DeliveriesAt<S, M>(subs: seq<S>, m: M)
    ensures |Deliveries(subs, m)| == |subs|
    ensures forall i :: 0 <= i < |subs| ==> Deliveries(subs, m)[i] == Delivery(subs[i], m)
  {
    if subs != [] {
      DeliveriesAt(subs[1..], m);
    }
  }

  /** The multiset of subscribers called equals the multiset registered: exactly once each. */
  lemma {:induction false} DeliveriesOnce<S, M>(subs: seq<S>, m: M)
    ensures multiset(Recipients(Deliveries(subs, m))) == multiset(subs)
  {
    if subs != [] {
      DeliveriesOnce(subs[1..], m);
      assert subs == [subs[0]] + subs[1..];
    }
  }

  /** The subscribers named by a trace, in order. */
  function Recipients<S, M>(ds: seq<Delivery<S, M>>): seq<S>
  {
    if ds == [] then [] else [ds[0].subscriber] + Recipients(ds[1..])
  }

  /** The single-list bus of engine/message_bus.h. */
  class ListBus<S, M> {
    /** subscribers_: registered subscribers in registration order. */
    var subscribers: seq<S>

    constructor ()
      ensures subscribers == []
    {
      subscribers := [];
    }

    /** AddSubscriber: push_back; earlier subscribers and their order are kept. */
    method AddSubscriber(subscriber: S)
      modifies this
      ensures subscribers == old(subscribers) + [subscriber]
      ensures subscribers[..|old(subscribers)|] == old(subscribers)
    {
      subscribers := subscribers + [subscriber];
    }

    /**
     * SendMessage: the for-loop over subscribers_. Each subscriber is called
     * once, in registration order, with the message as sent; the list is
     * not changed (the method modifies nothing).
     */
    method SendMessage(message: M) returns (calls: seq<Delivery<S, M>>)
      ensures |calls| == |subscribers|
      ensures forall i :: 0 <= i < |calls| ==>
        calls[i].subscriber == subscribers[i] && calls[i].message == message
      ensures subscribers == [] ==> calls == []
      ensures calls == Deliveries(subscribers, message)
    {
      calls := [];
      var i := 0;
      while i < |subscribers|
        invariant 0 <= i <= |subscribers|
        invariant |calls| == i
        invariant forall k :: 0 <= k < i ==> calls[k] == Delivery(subscribers[k], message)
      {
        calls := calls + [Delivery(subscribers[i], message)];
        i := i + 1;
      }
      DeliveriesAt(subscribers, message);
    }
  }

  // ---------------------------------------------------------------------
  // Re-entrant dispatch (the hazard described at engine/message_bus.h:10-17)
  // ---------------------------------------------------------------------

  /**
   * What a subscriber does when called, for the purpose of the hazard:
   * it either only observes the message, or sends it again on the same bus
   * from inside its own call (the `bus.SendMessage(x)` of the class comment).
   */
  datatype Reaction = Observes | Resends

  /**
   * Nested dispatch of one message to `subs` from position `i`, with room
   * for `depth` SendMessage activations on the call stack. The result is the
   * number of subscriber calls made, or None when dispatch needs more
   * activations than `depth` (a stack overflow in the source, which has no
   * bound and no cycle detection).
   */
  function DispatchFrom(subs: seq<Reaction>, i: nat, depth: nat): Option<nat>
    requires i <= |subs|
    decreases depth, |subs| - i
  {
    if depth == 0 then None
    else if i == |subs| then Some(0)
    else
      var nested := if subs[i] == Resends then DispatchFrom(subs, 0, depth - 1) else Some(0);
      match nested
      case None => None
      case Some(n) =>
        match DispatchFrom(subs, i + 1, depth)
        case None => None
        case Some(rest) => Some(1 + n + rest)
  }

  function Dispatch(subs: seq<Reaction>, depth: nat): Option<nat>
  {
    DispatchFrom(subs, 0, depth)
  }

  /** Without a re-sending subscriber, one activation suffices and each subscriber is called once. */
  lemma {:induction false} ObserversComplete(subs: seq<Reaction>, i: nat, depth: nat)
    requires i <= |subs| && depth >= 1
    requires forall k :: 0 <= k < |subs| ==> subs[k] == Observes
    ensures DispatchFrom(subs, i, depth) == Some(|subs| - i)
    decreases |subs| - i
  {
    if i < |subs| {
      ObserversComplete(subs, i + 1, depth);
    }
  }

  /**
   * A subscriber that unconditionally re-sends makes dispatch non-terminating:
   * no stack depth whatsoever is enough.
   */
  lemma {:induction false} ResendNeverCompletes(subs: seq<Reaction>, depth: nat)
    requires Resends in subs
    ensures Dispatch(subs, depth) == None
  {
    var k :| 0 <= k < |subs| && subs[k] == Resends;
    ResendBlocks(subs, k, 0, depth);
  }

  lemma {:induction false} ResendBlocks(subs: seq<Reaction>, k: nat, i: nat, depth: nat)
    requires k < |subs| && subs[k] == Resends && i <= k
    ensures DispatchFrom(subs, i, depth) == None
    decreases depth, k - i
  {
    if depth > 0 {
      if i == k {
        ResendBlocks(subs, k, 0, depth - 1);
      } else {
        ResendBlocks(subs, k, i + 1, depth);
      }
    }
  }

  // ---------------------------------------------------------------------
  // The keyed bus used by the call sites
  // ---------------------------------------------------------------------

  /** A subscriber registered with AddSubscriber (Takes) or AddIgnoringSubscriber (Ignores). */
  datatype Subscriber<H> = Takes(handler: H) | Ignores(handler: H)

  /** One handler invocation: with the payload, or with no argument. */
  datatype Call<H, P> = Call(handler: H, argument: Option<P>)

  function CallOf<H, P>(s: Subscriber<H>, payload: P): Call<H, P>
  {
    Call(s.handler, if s.Takes? then Some(payload) else None)
  }

  /** The calls a keyed send makes to the list `subs`, in order. */
  function Calls<H, P>(subs: seq<Subscriber<H>>, payload: P): (cs: seq<Call<H, P>>)
  {
    if subs == [] then [] else [CallOf(subs[0], payload)] + Calls(subs[1..], payload)
  }

  lemma {:induction false} CallsAt<H, P>(subs: seq<Subscriber<H>>, payload: P)
    ensures |Calls(subs, payload)| == |subs|
    ensures forall i :: 0 <= i < |subs| ==> Calls(subs, payload)[i] == CallOf(subs[i], payload)
  {
    if subs != [] {
      CallsAt(subs[1..], payload);
    }
  }

  /** Calls distributes over concatenation of subscriber lists. */
  lemma {:induction false} CallsAppend<H, P>(a: seq<Subscriber<H>>, b: seq<Subscriber<H>>, payload: P)
    ensures Calls(a + b, payload) == Calls(a, payload) + Calls(b, payload)
  {
    if a != [] {
      CallsAppend(a[1..], b, payload);
      assert (a + b)[0] == a[0];
      assert (a + b)[1..] == a[1..] + b;
    } else {
      assert a + b == b;
    }
  }

  /** The bus as the call sites use it: MessageBus<MessageId, MessagePayload>. */
  class KeyedBus<K(==,!new), P, H> {
    var subscribers: map<K, seq<Subscriber<H>>>

    /** The subscribers of one id in registration order; an id never registered has none. */
    function SubscribersOf(id: K): seq<Subscriber<H>>
      reads this
    {
      if id in subscribers then subscribers[id] else []
    }

    constructor ()
      ensures forall id :: SubscribersOf(id) == []
    {
      subscribers := map[];
    }

    /** AddSubscriber(id, h): appends a payload-taking subscriber under `id` only. */
    method AddSubscriber(id: K, handler: H)
      modifies this
      ensures SubscribersOf(id) == old(SubscribersOf(id)) + [Takes(handler)]
      ensures forall other :: other != id ==> SubscribersOf(other) == old(SubscribersOf(other))
    {
      subscribers := subscribers[id := SubscribersOf(id) + [Takes(handler)]];
    }

    /** AddIgnoringSubscriber(id, h): appends a payload-ignoring subscriber under `id` only. */
    method AddIgnoringSubscriber(id: K, handler: H)
      modifies this
      ensures SubscribersOf(id) == old(SubscribersOf(id)) + [Ignores(handler)]
      ensures forall other :: other != id ==> SubscribersOf(other) == old(SubscribersOf(other))
    {
      subscribers := subscribers[id := SubscribersOf(id) + [Ignores(handler)]];
    }

    /**
     * SendMessage(id, payload): every subscriber of `id` is called once, in
     * registration order; payload-taking ones receive the payload unchanged,
     * payload-ignoring ones receive nothing. Subscribers of other ids are not
     * called, and an id without subscribers makes no call.
     */
    method SendMessage(id: K, payload: P) returns (calls: seq<Call<H, P>>)
      ensures |calls| == |SubscribersOf(id)|
      ensures forall i :: 0 <= i < |calls| ==>
        calls[i].handler == SubscribersOf(id)[i].handler &&
        (calls[i].argument == if SubscribersOf(id)[i].Takes? then Some(payload) else None)
      ensures calls == Calls(SubscribersOf(id), payload)
    {
      var subs := SubscribersOf(id);
      calls := [];
      var i := 0;
      while i < |subs|
        invariant 0 <= i <= |subs|
        invariant |calls| == i
        invariant forall k :: 0 <= k < i ==> calls[k] == CallOf(subs[k], payload)
      {
        calls := calls + [CallOf(subs[i], payload)];
        i := i + 1;
      }
      CallsAt(subs, payload);
    }
  }
}
