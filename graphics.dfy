/**
 * The Graphics component (graphics.h): DRAW_SURFACE messages are buffered,
 * and at FRAME_END a non-empty buffer is drawn in z order and emptied.
 * The window it draws on (sdl/screen.h) is reduced to the sequence of
 * clear / blit / present calls made on it.
 */
module GraphicsComponent {
  import opened Wrappers
  import opened MessageBus
  import opened Components
  import opened Asteroids
  import opened Compositing

  class Graphics {
    const component: Component<MessageType, AsteroidsMessage, Handler>
    /** surfaces_to_draw_: the requests of the current frame, in arrival order. */
    var surfacesToDraw: seq<BlitRequest>
    /** screen_: the calls made on the window so far. */
    var screen: seq<BackendEvent>
    /** The order in which the most recent non-empty flush blitted. */
    ghost var lastFlush: seq<BlitRequest>

    /**
     * Registers exactly two handlers, in this order: DRAW_SURFACE to
     * BufferSurface and FRAME_END to Update. Both go through the
     * payload-taking OnMessage: Update is passed as a std::bind result,
     * whose type does not let the no-argument overload deduce its parameter,
     * and the bound call simply discards the payload it is given.
     * Creating the window is not part of this model.
     */
    constructor (bus: KeyedBus<MessageType, AsteroidsMessage, Handler>)
      modifies bus
      ensures component.bus == bus
      ensures surfacesToDraw == [] && screen == []
      ensures bus.SubscribersOf(DrawSurface) == old(bus.SubscribersOf(DrawSurface)) + [Takes(Handler.BufferSurface)]
      ensures bus.SubscribersOf(FrameEnd) == old(bus.SubscribersOf(FrameEnd)) + [Takes(GraphicsUpdate)]
      ensures forall id :: id != DrawSurface && id != FrameEnd ==> bus.SubscribersOf(id) == old(bus.SubscribersOf(id))
    {
      component := new Component(bus);
      surfacesToDraw := [];
      screen := [];
      lastFlush := [];
      new;
      component.OnMessage(DrawSurface, Handler.BufferSurface);
      component.OnMessage(FrameEnd, GraphicsUpdate);
    }

    /** BufferSurface: appends {surface, x, y, z} of the message; draws nothing. */
    method BufferSurface(message: AsteroidsMessage)
      modifies this
      ensures surfacesToDraw == old(surfacesToDraw) + [RequestOf(message)]
      ensures screen == old(screen) && lastFlush == old(lastFlush)
    {
      surfacesToDraw := surfacesToDraw + [RequestOf(message)];
    }

    /**
     * Update: with nothing buffered, no call is made and nothing changes.
     * Otherwise the window is cleared, every buffered request is blitted
     * once, at its own x and y, in an order that never decreases in z (the
     * order among equal z is not fixed), the window is presented, and the
     * buffer is emptied.
     */
    method Update()
      modifies this
      ensures old(surfacesToDraw) == [] ==>
        surfacesToDraw == [] && screen == old(screen) && lastFlush == old(lastFlush)
      ensures old(surfacesToDraw) != [] ==>
        && IsZOrdering(old(surfacesToDraw), lastFlush)
        && screen == old(screen) + FlushEvents(lastFlush)
        && IsFlushOf(old(surfacesToDraw), screen[|old(screen)|..])
        && surfacesToDraw == []
    {
      if surfacesToDraw != [] {
        screen := screen + [Clear];
        surfacesToDraw := ZSort(surfacesToDraw);
        BlitInOrder();
        screen := screen + [Present];
        var order := surfacesToDraw;
        lastFlush := order;
        BlitsPermutation(old(surfacesToDraw), order);
        assert screen[|old(screen)|..] == FlushEvents(order);
        surfacesToDraw := [];
      }
    }

    /** BlitInOrder: the loop over the sorted buffer: one blit per request, at its x and y, in buffer order. */
    method BlitInOrder()
      modifies this
      ensures screen == old(screen) + Blits(surfacesToDraw)
      ensures surfacesToDraw == old(surfacesToDraw) && lastFlush == old(lastFlush)
    {
      var order := surfacesToDraw;
      var i := 0;
      while i < |order|
        invariant 0 <= i <= |order|
        invariant surfacesToDraw == order && lastFlush == old(lastFlush)
        invariant screen == old(screen) + Blits(order[..i])
      {
        BlitsSnoc(order, i);
        screen := screen + [BlitOf(order[i])];
        i := i + 1;
      }
      assert order[..i] == order;
    }
  }
}
