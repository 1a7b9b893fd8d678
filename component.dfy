/**
 * The component base class (engine/component.h): a thin layer over a keyed
 * bus. It holds only a reference to the bus; registering a handler adds one
 * subscriber under one id, and sending forwards the id and payload unchanged.
 */
module Components {
  import opened Wrappers
  import opened MessageBus

  class Component<K(==,!new), P, H> {
    /** message_bus_: the bus this component registers on and sends through. */
    const bus: KeyedBus<K, P, H>

    /** Stores the bus reference and registers nothing. */
    constructor (bus: KeyedBus<K, P, H>)
      ensures this.bus == bus
      ensures forall id :: bus.SubscribersOf(id) == old(bus.SubscribersOf(id))
    {
      this.bus := bus;
    }

    /** OnMessage with a payload-taking handler: one subscriber more under `id`, no other list touched. */
    method OnMessage(id: K, handler: H)
      modifies bus
      ensures bus.SubscribersOf(id) == old(bus.SubscribersOf(id)) + [Takes(handler)]
      ensures forall other :: other != id ==> bus.SubscribersOf(other) == old(bus.SubscribersOf(other))
    {
      bus.AddSubscriber(id, handler);
    }

    /** OnMessage with a no-argument handler: one payload-ignoring subscriber more under `id`. */
    method OnMessageIgnoringPayload(id: K, handler: H)
      modifies bus
      ensures bus.SubscribersOf(id) == old(bus.SubscribersOf(id)) + [Ignores(handler)]
      ensures forall other :: other != id ==> bus.SubscribersOf(other) == old(bus.SubscribersOf(other))
    {
      bus.AddIgnoringSubscriber(id, handler);
    }

    /** SendMessage: forwards `id` and `payload` to the bus; the calls made are exactly the bus's. */
    method SendMessage(id: K, payload: P) returns (calls: seq<Call<H, P>>)
      ensures |calls| == |bus.SubscribersOf(id)|
      ensures forall i :: 0 <= i < |calls| ==> calls[i] == CallOf(bus.SubscribersOf(id)[i], payload)
      ensures calls == Calls(bus.SubscribersOf(id), payload)
    {
      calls := bus.SendMessage(id, payload);
    }
  }
}
