/**
 * The older compositor, Screen (screen.h): the same buffer-then-flush
 * protocol, but written against the one-parameter bus with a single
 * catch-all OnMessage that switches on the message's id. Unlike Graphics,
 * it also flushes on GAME_START.
 */
module ScreenComponent {
  import opened Asteroids
  import opened Compositing

  class Screen {
    /** surfaces_to_draw_: the requests of the current frame, in arrival order. */
    var surfacesToDraw: seq<BlitRequest>
    /** window_surface_ and window_: the calls made on the window so far. */
    var window: seq<BackendEvent>
    /** The order in which the most recent non-empty flush blitted. */
    ghost var lastFlush: seq<BlitRequest>

    /** Starts with nothing buffered and nothing drawn; the SDL window setup is not part of this model. */
    constructor ()
      ensures surfacesToDraw == [] && window == []
    {
      surfacesToDraw := [];
      window := [];
      lastFlush := [];
    }

    /**
     * OnMessage: GAME_START and FRAME_END flush as Update does; DRAW_SURFACE
     * buffers {surface, x, y, z} and draws nothing; every other id changes
     * nothing.
     */
    method OnMessage(message: TypedMessage)
      modifies this
      ensures (message.kind == GameStart || message.kind == FrameEnd) && old(surfacesToDraw) == [] ==>
        surfacesToDraw == [] && window == old(window) && lastFlush == old(lastFlush)
      ensures (message.kind == GameStart || message.kind == FrameEnd) && old(surfacesToDraw) != [] ==>
        && IsZOrdering(old(surfacesToDraw), lastFlush)
        && window == old(window) + FlushEvents(lastFlush)
        && IsFlushOf(old(surfacesToDraw), window[|old(window)|..])
        && surfacesToDraw == []
      ensures message.kind == DrawSurface ==>
        surfacesToDraw == old(surfacesToDraw) + [RequestOf(message.body)] &&
        window == old(window) && lastFlush == old(lastFlush)
      ensures message.kind !in {GameStart, FrameEnd, DrawSurface} ==>
        surfacesToDraw == old(surfacesToDraw) && window == old(window) && lastFlush == old(lastFlush)
    {
      match message.kind {
        case GameStart =>
          Update();
        case FrameEnd =>
          Update();
        case DrawSurface =>
          surfacesToDraw := surfacesToDraw + [RequestOf(message.body)];
        case _ =>
      }
    }

    /**
     * Update: nothing when the buffer is empty; otherwise clear, one blit
     * per request in an order that never decreases in z, present, and
     * empty the buffer.
     */
    method Update()
      modifies this
      ensures old(surfacesToDraw) == [] ==>
        surfacesToDraw == [] && window == old(window) && lastFlush == old(lastFlush)
      ensures old(surfacesToDraw) != [] ==>
        && IsZOrdering(old(surfacesToDraw), lastFlush)
        && window == old(window) + FlushEvents(lastFlush)
        && IsFlushOf(old(surfacesToDraw), window[|old(window)|..])
        && surfacesToDraw == []
    {
      if surfacesToDraw != [] {
        Clear();
        surfacesToDraw := ZSort(surfacesToDraw);
        BlitInOrder();
        window := window + [Present];
        var order := surfacesToDraw;
        lastFlush := order;
        BlitsPermutation(old(surfacesToDraw), order);
        assert window[|old(window)|..] == FlushEvents(order);
        surfacesToDraw := [];
      }
    }

    /** BlitInOrder: the loop over the sorted buffer: one Blit call per request, at its x and y, in buffer order. */
    method BlitInOrder()
      modifies this
      ensures window == old(window) + Blits(surfacesToDraw)
      ensures surfacesToDraw == old(surfacesToDraw) && lastFlush == old(lastFlush)
    {
      var order := surfacesToDraw;
      var i := 0;
      while i < |order|
        invariant 0 <= i <= |order|
        invariant surfacesToDraw == order && lastFlush == old(lastFlush)
        invariant window == old(window) + Blits(order[..i])
      {
        BlitsSnoc(order, i);
        var request := order[i];
        Blit(request.surface, request.x, request.y);
        i := i + 1;
      }
      assert order[..i] == order;
    }

    /** Blit: one blit of `surface` at (x, y) on the window. */
    method Blit(surface: Surface, x: int, y: int)
      modifies this
      ensures window == old(window) + [BackendEvent.Blit(surface, x, y)]
      ensures surfacesToDraw == old(surfacesToDraw) && lastFlush == old(lastFlush)
    {
      window := window + [BackendEvent.Blit(surface, x, y)];
    }

    /** Clear: fills the whole window with colour 0. */
    method Clear()
      modifies this
      ensures window == old(window) + [BackendEvent.Clear]
      ensures surfacesToDraw == old(surfacesToDraw) && lastFlush == old(lastFlush)
    {
      window := window + [BackendEvent.Clear];
    }
  }
}
