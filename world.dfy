/**
 * A run of the whole program as `main` wires it (main.cpp:129-158): the
 * engine's lifecycle messages dispatched through MainSubscribers to the
 * handlers that really exist, with nested sends (a ship's draw sends
 * DRAW_SURFACE from inside FRAME_END, a polled key sends KEY_PRESS from
 * inside FRAME_START) executed where they happen.
 *
 * The outside world is a Scenario: what each FRAME_START poll returns, the
 * surfaces loaded for the two sprites, and where the bad guy's own motion
 * takes it.
 */
module World {
  import opened Wrappers
  import opened MessageBus
  import opened Asteroids
  import opened Compositing
  import opened Game

  /**
   * polls[k] is what the k-th poll returns (None: no pending event; past
   * the end, no event either). badGuyPath(k) is where the bad guy stands
   * after its k-th UpdatePosition. sort(b) is the order std::sort leaves
   * the buffer b in; the library fixes it only up to requests of equal z
   * (see SortsByZ).
   */
  datatype Scenario = Scenario(
    polls: seq<Option<InputEvent>>,
    shipSurface: Surface,
    badGuySurface: Surface,
    badGuyPath: nat -> Pos,
    sort: seq<BlitRequest> -> seq<BlitRequest>)

  /** What std::sort with BlitRequest::operator< promises: every buffer is put in a z-ordering of itself. */
  ghost predicate SortsByZ(sc: Scenario)
  {
    forall b :: IsZOrdering(b, sc.sort(b))
  }

  /** Everything the handlers change. */
  datatype State = State(
    buffer: seq<BlitRequest>,        // Graphics::surfaces_to_draw_
    screen: seq<BackendEvent>,       // the calls made on the window
    ship: Pos,                       // Ship::x_, y_
    badGuy: Pos,                     // BadGuy::x(), y()
    badGuyMoves: nat,                // UpdatePosition calls so far
    polls: seq<Option<InputEvent>>,  // polls not yet made
    run: bool)                       // main's `run`

  /** The state right after BuildGame. */
  function Initial(sc: Scenario): State
  {
    State([], [], ShipStart, BadGuyStart, 0, sc.polls, true)
  }

  /**
   * `t` can follow `s`: calls on the window are only ever appended, polls
   * are only consumed from the front, the bad guy's moves are only counted
   * up, and a run that has stopped never restarts.
   */
  predicate Later(s: State, t: State)
  {
    && |s.screen| <= |t.screen| && t.screen[..|s.screen|] == s.screen
    && |t.polls| <= |s.polls| && t.polls == s.polls[|s.polls| - |t.polls|..]
    && s.badGuyMoves <= t.badGuyMoves
    && (t.run ==> s.run)
  }

  lemma LaterTransitive(a: State, b: State, c: State)
    requires Later(a, b) && Later(b, c)
    ensures Later(a, c)
  {
    assert c.screen[..|a.screen|] == c.screen[..|b.screen|][..|a.screen|];
    assert c.polls == a.polls[|a.polls| - |b.polls|..][|b.polls| - |c.polls|..];
  }

  /** The calls Graphics::Update makes on the window for a buffer: none if empty, else one flush in the library's order. */
  function Flush(sc: Scenario, buffer: seq<BlitRequest>): seq<BackendEvent>
  {
    if buffer == [] then [] else FlushEvents(sc.sort(buffer))
  }

  /**
   * SendMessage(id, payload) on main's bus, with room for `depth` further
   * nested sends. None means a handler tried to nest deeper than that.
   */
  function Send(sc: Scenario, s: State, id: MessageType, payload: AsteroidsMessage, depth: nat): Option<State>
    decreases depth, 1, 0
  {
    DeliverFrom(sc, s, MainSubscribers(id), 0, payload, depth)
  }

  /** The for-loop of SendMessage from subscriber `i` on: each handler runs to completion before the next. */
  function DeliverFrom(sc: Scenario, s: State, subs: seq<Subscriber<Handler>>, i: nat,
                       payload: AsteroidsMessage, depth: nat): Option<State>
    requires i <= |subs|
    decreases depth, 0, |subs| - i + 1
  {
    if i == |subs| then Some(s)
    else
      match Invoke(sc, s, subs[i].handler, payload, depth)
      case None => None
      case Some(s') => DeliverFrom(sc, s', subs, i + 1, payload, depth)
  }

  /** What one handler does when called. */
  function Invoke(sc: Scenario, s: State, h: Handler, payload: AsteroidsMessage, depth: nat): Option<State>
    decreases depth, 0, 0
  {
    match h
    case BufferSurface =>
      Some(s.(buffer := s.buffer + [RequestOf(payload)]))
    case GraphicsUpdate =>
      Some(s.(screen := s.screen + Flush(sc, s.buffer), buffer := []))
    case PollInput =>
      var polled := if s.polls == [] then None else s.polls[0];
      var s' := s.(polls := if s.polls == [] then [] else s.polls[1..]);
      if polled == Some(Quit) then
        if depth == 0 then None else Send(sc, s', GameEnd, Empty, depth - 1)
      else if polled.Some? && polled.value.KeyDown? then
        if depth == 0 then None else Send(sc, s', KeyPress, KeyMessage(polled.value.keyCode), depth - 1)
      else
        Some(s')
    case ShipDraw =>
      if depth == 0 then None
      else Send(sc, s, DrawSurface, DrawMessage(s.ship.x, s.ship.y, SpriteZ, sc.shipSurface), depth - 1)
    case ShipKeyPressed =>
      Some(s.(ship := KeyMove(s.ship, payload.keyCode, ShipStep)))
    case BadGuyDraw =>
      if depth == 0 then None
      else Send(sc, s, DrawSurface, DrawMessage(s.badGuy.x, s.badGuy.y, SpriteZ, sc.badGuySurface), depth - 1)
    case BadGuyUpdatePosition =>
      Some(s.(badGuy := sc.badGuyPath(s.badGuyMoves + 1), badGuyMoves := s.badGuyMoves + 1))
    case StopRunning =>
      Some(s.(run := false))
  }

  /** main's handlers nest sends one deep at most (FrameCompletes shows this is enough). */
  const NestingDepth: nat := 1

  /** One iteration of BlockingGameLoop: FRAME_START, then FRAME_END. */
  function Frame(sc: Scenario, s: State): Option<State>
  {
    match Send(sc, s, FrameStart, Empty, NestingDepth)
    case None => None
    case Some(s') => Send(sc, s', FrameEnd, Empty, NestingDepth)
  }

  /** The while (*run) loop, for at most `fuel` iterations. */
  function RunLoop(sc: Scenario, s: State, fuel: nat): Option<State>
    decreases fuel
  {
    if !s.run || fuel == 0 then Some(s)
    else
      match Frame(sc, s)
      case None => None
      case Some(s') => RunLoop(sc, s', fuel - 1)
  }

  /** BlockingGameLoop from the initial state: GAME_START, then the loop. */
  function Play(sc: Scenario, fuel: nat): Option<State>
  {
    match Send(sc, Initial(sc), GameStart, Empty, NestingDepth)
    case None => None
    case Some(s) => RunLoop(sc, s, fuel)
  }

  // ---------------------------------------------------------------------
  // What no message can undo (the Later invariant), by the same recursion
  // ---------------------------------------------------------------------

  /** Any send, with any payload, leaves a later state. */
  lemma {:induction false} SendMovesForward(sc: Scenario, s: State, id: MessageType, payload: AsteroidsMessage, depth: nat)
    ensures Send(sc, s, id, payload, depth).Some? ==> Later(s, Send(sc, s, id, payload, depth).value)
    decreases depth, 1, 0
  {
    DeliverFromMovesForward(sc, s, MainSubscribers(id), 0, payload, depth);
  }

  /** Delivering to the rest of the subscribers leaves a later state. */
  lemma {:induction false} DeliverFromMovesForward(sc: Scenario, s: State, subs: seq<Subscriber<Handler>>, i: nat,
                                                   payload: AsteroidsMessage, depth: nat)
    requires i <= |subs|
    ensures DeliverFrom(sc, s, subs, i, payload, depth).Some? ==> Later(s, DeliverFrom(sc, s, subs, i, payload, depth).value)
    decreases depth, 0, |subs| - i + 1
  {
    if i < |subs| {
      InvokeMovesForward(sc, s, subs[i].handler, payload, depth);
      var r := Invoke(sc, s, subs[i].handler, payload, depth);
      if r.Some? {
        DeliverFromMovesForward(sc, r.value, subs, i + 1, payload, depth);
        var t := DeliverFrom(sc, r.value, subs, i + 1, payload, depth);
        if t.Some? {
          LaterTransitive(s, r.value, t.value);
        }
      }
    }
  }

  /** Every handler of main's wiring leaves a later state. */
  lemma {:induction false} InvokeMovesForward(sc: Scenario, s: State, h: Handler, payload: AsteroidsMessage, depth: nat)
    ensures Invoke(sc, s, h, payload, depth).Some? ==> Later(s, Invoke(sc, s, h, payload, depth).value)
    decreases depth, 0, 0
  {
    var r := Invoke(sc, s, h, payload, depth);
    match h
    case PollInput =>
      var polled := if s.polls == [] then None else s.polls[0];
      var s' := s.(polls := if s.polls == [] then [] else s.polls[1..]);
      assert Later(s, s');
      if depth > 0 && (polled == Some(Quit) || (polled.Some? && polled.value.KeyDown?)) {
        var id := if polled == Some(Quit) then GameEnd else KeyPress;
        var m := if polled == Some(Quit) then Empty else KeyMessage(polled.value.keyCode);
        assert r == Send(sc, s', id, m, depth - 1);
        SendMovesForward(sc, s', id, m, depth - 1);
        if r.Some? {
          LaterTransitive(s, s', r.value);
        }
      }
    case ShipDraw =>
      if depth > 0 {
        SendMovesForward(sc, s, DrawSurface, DrawMessage(s.ship.x, s.ship.y, SpriteZ, sc.shipSurface), depth - 1);
      }
    case BadGuyDraw =>
      if depth > 0 {
        SendMovesForward(sc, s, DrawSurface, DrawMessage(s.badGuy.x, s.badGuy.y, SpriteZ, sc.badGuySurface), depth - 1);
      }
    case _ =>
  }

  /** A frame leaves a later state. */
  lemma FrameMovesForward(sc: Scenario, s: State)
    ensures Frame(sc, s).Some? ==> Later(s, Frame(sc, s).value)
  {
    SendMovesForward(sc, s, FrameStart, Empty, NestingDepth);
    var r := Send(sc, s, FrameStart, Empty, NestingDepth);
    if r.Some? {
      SendMovesForward(sc, r.value, FrameEnd, Empty, NestingDepth);
      if Frame(sc, s).Some? {
        LaterTransitive(s, r.value, Frame(sc, s).value);
      }
    }
  }

  /** However many frames run, the result is a later state. */
  lemma {:induction false} RunLoopMovesForward(sc: Scenario, s: State, fuel: nat)
    ensures RunLoop(sc, s, fuel).Some? ==> Later(s, RunLoop(sc, s, fuel).value)
    decreases fuel
  {
    if s.run && fuel > 0 {
      FrameMovesForward(sc, s);
      var r := Frame(sc, s);
      if r.Some? {
        RunLoopMovesForward(sc, r.value, fuel - 1);
        if RunLoop(sc, s, fuel).Some? {
          LaterTransitive(s, r.value, RunLoop(sc, s, fuel).value);
        }
      }
    }
  }

  /**
   * A whole game leaves a later state than the initial one: the window's
   * calls start from nothing and only grow, and the polls are consumed in
   * order from the scenario's first.
   */
  lemma PlayMovesForward(sc: Scenario, fuel: nat)
    ensures Play(sc, fuel).Some? ==> Later(Initial(sc), Play(sc, fuel).value)
  {
    SendMovesForward(sc, Initial(sc), GameStart, Empty, NestingDepth);
    var r := Send(sc, Initial(sc), GameStart, Empty, NestingDepth);
    if r.Some? {
      RunLoopMovesForward(sc, r.value, fuel);
      if Play(sc, fuel).Some? {
        LaterTransitive(Initial(sc), r.value, Play(sc, fuel).value);
      }
    }
  }

  // ---------------------------------------------------------------------
  // Reference definitions of what each lifecycle message does
  // ---------------------------------------------------------------------

  /** FRAME_START: the input component polls once, then the bad guy moves. */
  function AfterFrameStart(sc: Scenario, s: State): State
  {
    var polled := if s.polls == [] then None else s.polls[0];
    var s1 := s.(polls := if s.polls == [] then [] else s.polls[1..]);
    var s2 :=
      if polled == Some(Quit) then s1.(run := false)
      else if polled.Some? && polled.value.KeyDown? then s1.(ship := KeyMove(s1.ship, polled.value.keyCode, ShipStep))
      else s1;
    s2.(badGuy := sc.badGuyPath(s2.badGuyMoves + 1), badGuyMoves := s2.badGuyMoves + 1)
  }

  /** The requests the two sprites make at FRAME_END, ship first. */
  function Draws(sc: Scenario, s: State): seq<BlitRequest>
  {
    [BlitRequest(sc.shipSurface, s.ship.x, s.ship.y, SpriteZ),
     BlitRequest(sc.badGuySurface, s.badGuy.x, s.badGuy.y, SpriteZ)]
  }

  /** FRAME_END: the compositor flushes what was buffered, then both sprites buffer their draws. */
  function AfterFrameEnd(sc: Scenario, s: State): State
  {
    s.(screen := s.screen + Flush(sc, s.buffer), buffer := Draws(sc, s))
  }

  // ---------------------------------------------------------------------
  // Dispatch of each message, against the reference definitions
  // ---------------------------------------------------------------------

  /** DRAW_SURFACE reaches only Graphics::BufferSurface, which buffers {surface, x, y, z}. */
  lemma SendDrawSurface(sc: Scenario, s: State, m: AsteroidsMessage, depth: nat)
    ensures Send(sc, s, DrawSurface, m, depth) == Some(s.(buffer := s.buffer + [RequestOf(m)]))
  {
    var subs := MainSubscribers(DrawSurface);
    var s1 := s.(buffer := s.buffer + [RequestOf(m)]);
    assert Invoke(sc, s, subs[0].handler, m, depth) == Some(s1);
    assert DeliverFrom(sc, s1, subs, 1, m, depth) == Some(s1);
  }

  /** GAME_END reaches only main's subscriber, which sets `run` to false. */
  lemma SendGameEnd(sc: Scenario, s: State, depth: nat)
    ensures Send(sc, s, GameEnd, Empty, depth) == Some(s.(run := false))
  {
    var subs := MainSubscribers(GameEnd);
    assert Invoke(sc, s, subs[0].handler, Empty, depth) == Some(s.(run := false));
    assert DeliverFrom(sc, s.(run := false), subs, 1, Empty, depth) == Some(s.(run := false));
  }

  /** KEY_PRESS reaches only the ship, which moves by its key. */
  lemma SendKeyPress(sc: Scenario, s: State, k: int, depth: nat)
    ensures Send(sc, s, KeyPress, KeyMessage(k), depth) == Some(s.(ship := KeyMove(s.ship, k, ShipStep)))
  {
    var subs := MainSubscribers(KeyPress);
    var s1 := s.(ship := KeyMove(s.ship, k, ShipStep));
    assert Invoke(sc, s, subs[0].handler, KeyMessage(k), depth) == Some(s1);
    assert DeliverFrom(sc, s1, subs, 1, KeyMessage(k), depth) == Some(s1);
  }

  /** GAME_START has no subscriber under the keyed wiring: it changes nothing. */
  lemma SendGameStart(sc: Scenario, s: State, depth: nat)
    ensures Send(sc, s, GameStart, Empty, depth) == Some(s)
  {
  }

  /** FRAME_START does what AfterFrameStart says, nesting one send at most. */
  lemma SendFrameStart(sc: Scenario, s: State)
    ensures Send(sc, s, FrameStart, Empty, NestingDepth) == Some(AfterFrameStart(sc, s))
  {
    var subs := MainSubscribers(FrameStart);
    var polled := if s.polls == [] then None else s.polls[0];
    var s1 := s.(polls := if s.polls == [] then [] else s.polls[1..]);
    var s2 :=
      if polled == Some(Quit) then s1.(run := false)
      else if polled.Some? && polled.value.KeyDown? then s1.(ship := KeyMove(s1.ship, polled.value.keyCode, ShipStep))
      else s1;
    if polled == Some(Quit) {
      SendGameEnd(sc, s1, 0);
    } else if polled.Some? && polled.value.KeyDown? {
      SendKeyPress(sc, s1, polled.value.keyCode, 0);
    }
    assert Invoke(sc, s, subs[0].handler, Empty, NestingDepth) == Some(s2);
    var s3 := s2.(badGuy := sc.badGuyPath(s2.badGuyMoves + 1), badGuyMoves := s2.badGuyMoves + 1);
    assert Invoke(sc, s2, subs[1].handler, Empty, NestingDepth) == Some(s3);
    assert DeliverFrom(sc, s3, subs, 2, Empty, NestingDepth) == Some(s3);
    assert DeliverFrom(sc, s2, subs, 1, Empty, NestingDepth) == Some(s3);
  }

  /** FRAME_END does what AfterFrameEnd says: flush first, then the two draws. */
  lemma SendFrameEnd(sc: Scenario, s: State)
    ensures Send(sc, s, FrameEnd, Empty, NestingDepth) == Some(AfterFrameEnd(sc, s))
  {
    var subs := MainSubscribers(FrameEnd);
    var s1 := s.(screen := s.screen + Flush(sc, s.buffer), buffer := []);
    assert Invoke(sc, s, subs[0].handler, Empty, NestingDepth) == Some(s1);
    var shipMessage := DrawMessage(s.ship.x, s.ship.y, SpriteZ, sc.shipSurface);
    SendDrawSurface(sc, s1, shipMessage, 0);
    var s2 := s1.(buffer := s1.buffer + [RequestOf(shipMessage)]);
    assert Invoke(sc, s1, subs[1].handler, Empty, NestingDepth) == Some(s2);
    var badGuyMessage := DrawMessage(s.badGuy.x, s.badGuy.y, SpriteZ, sc.badGuySurface);
    SendDrawSurface(sc, s2, badGuyMessage, 0);
    var s3 := s2.(buffer := s2.buffer + [RequestOf(badGuyMessage)]);
    assert Invoke(sc, s2, subs[2].handler, Empty, NestingDepth) == Some(s3);
    assert s3 == AfterFrameEnd(sc, s);
    assert DeliverFrom(sc, s3, subs, 3, Empty, NestingDepth) == Some(s3);
    assert DeliverFrom(sc, s2, subs, 2, Empty, NestingDepth) == Some(s3);
    assert DeliverFrom(sc, s1, subs, 1, Empty, NestingDepth) == Some(s3);
  }

  /** A frame always completes, and its effect is FRAME_START's followed by FRAME_END's. */
  lemma FrameCompletes(sc: Scenario, s: State)
    ensures Frame(sc, s) == Some(AfterFrameEnd(sc, AfterFrameStart(sc, s)))
  {
    SendFrameStart(sc, s);
    SendFrameEnd(sc, AfterFrameStart(sc, s));
  }

  // ---------------------------------------------------------------------
  // System-level properties
  // ---------------------------------------------------------------------

  /**
   * One-frame draw lag. Because Graphics registered its FRAME_END handler
   * before the two sprites, a frame composites exactly what was buffered
   * before it began, and the requests drawn during this frame are left in
   * the buffer for the next one: both sprites at their positions after this
   * frame's FRAME_START.
   */
  lemma OneFrameLag(sc: Scenario, s: State)
    ensures Frame(sc, s).Some?
    ensures Frame(sc, s).value.screen == s.screen + Flush(sc, s.buffer)
    ensures Frame(sc, s).value.buffer == Draws(sc, AfterFrameStart(sc, s))
  {
    FrameCompletes(sc, s);
  }

  /** The first frame after GAME_START flushes nothing: no clear, no blit, no present. */
  lemma FirstFrameFlushesNothing(sc: Scenario)
    ensures Play(sc, 1).Some?
    ensures Play(sc, 1).value.screen == []
    ensures Play(sc, 1).value.buffer == Draws(sc, AfterFrameStart(sc, Initial(sc)))
  {
    SendGameStart(sc, Initial(sc), NestingDepth);
    FrameCompletes(sc, Initial(sc));
    var s1 := AfterFrameEnd(sc, AfterFrameStart(sc, Initial(sc)));
    assert RunLoop(sc, s1, 0) == Some(s1);
  }

  /**
   * Whenever the library sorts by z, a flush of a non-empty buffer is one
   * clear, one blit per buffered request in some z-ordering of the buffer,
   * and one present.
   */
  lemma FlushIsZOrdered(sc: Scenario, buffer: seq<BlitRequest>)
    requires SortsByZ(sc) && buffer != []
    ensures IsFlushOf(buffer, Flush(sc, buffer))
    ensures exists order :: IsZOrdering(buffer, order) && Flush(sc, buffer) == FlushEvents(order)
  {
    var order := sc.sort(buffer);
    assert IsZOrdering(buffer, order);
    BlitsPermutation(buffer, order);
  }

  /**
   * Draw requests made in one frame are composited in the next: the calls
   * the second frame makes on the window are a valid flush (one clear, one
   * blit per request at its own x and y, in non-decreasing z, one present)
   * of exactly the first frame's draws, for whichever order of equal-z
   * requests the library picks.
   */
  lemma DrawsCompositedNextFrame(sc: Scenario, s: State)
    requires SortsByZ(sc)
    ensures Frame(sc, s).Some? && Frame(sc, Frame(sc, s).value).Some?
    ensures
      var first := Frame(sc, s).value;
      var second := Frame(sc, first).value;
      && |second.screen| >= |first.screen|
      && IsFlushOf(Draws(sc, AfterFrameStart(sc, s)), second.screen[|first.screen|..])
      && exists order :: IsZOrdering(Draws(sc, AfterFrameStart(sc, s)), order)
                         && second.screen[|first.screen|..] == FlushEvents(order)
  {
    OneFrameLag(sc, s);
    var first := Frame(sc, s).value;
    OneFrameLag(sc, first);
    var second := Frame(sc, first).value;
    assert second.screen[|first.screen|..] == Flush(sc, first.buffer);
    FlushIsZOrdered(sc, first.buffer);
  }

  /**
   * What a frame does to the loop's bookkeeping: one poll is consumed, the
   * bad guy moves once, and `run` falls exactly when the poll was a quit.
   */
  lemma FrameBookkeeping(sc: Scenario, s: State)
    ensures Frame(sc, s).Some?
    ensures Frame(sc, s).value.polls == (if s.polls == [] then [] else s.polls[1..])
    ensures Frame(sc, s).value.badGuyMoves == s.badGuyMoves + 1
    ensures Frame(sc, s).value.run == (s.run && (s.polls == [] || s.polls[0] != Some(Quit)))
  {
    FrameCompletes(sc, s);
  }

  /**
   * A quit polled at FRAME_START sets `run` to false, but the flag is only
   * read at the top of the loop: that frame's FRAME_END still flushes and
   * draws, and then the loop stops, whatever fuel is left.
   */
  lemma QuitEndsLoopAfterFrame(sc: Scenario, s: State, fuel: nat)
    requires s.run && s.polls != [] && s.polls[0] == Some(Quit)
    ensures Frame(sc, s).Some?
    ensures !Frame(sc, s).value.run
    ensures Frame(sc, s).value.screen == s.screen + Flush(sc, s.buffer)
    ensures Frame(sc, s).value.buffer == Draws(sc, AfterFrameStart(sc, s))
    ensures RunLoop(sc, s, fuel + 1) == Frame(sc, s)
  {
    FrameCompletes(sc, s);
  }

  /**
   * The loop runs until a quit is polled: with the first quit at poll q and
   * fuel for more than q iterations, the loop makes exactly q + 1 frames
   * (one poll and one bad-guy move each) and stops with `run` false.
   */
  lemma {:induction false} LoopStopsAtFirstQuit(sc: Scenario, s: State, q: nat, fuel: nat)
    requires s.run && q < |s.polls| && s.polls[q] == Some(Quit)
    requires forall k :: 0 <= k < q ==> s.polls[k] != Some(Quit)
    requires fuel > q
    ensures RunLoop(sc, s, fuel).Some?
    ensures !RunLoop(sc, s, fuel).value.run
    ensures RunLoop(sc, s, fuel).value.polls == s.polls[q + 1..]
    ensures RunLoop(sc, s, fuel).value.badGuyMoves == s.badGuyMoves + q + 1
    decreases q
  {
    FrameBookkeeping(sc, s);
    var next := Frame(sc, s).value;
    assert RunLoop(sc, s, fuel) == RunLoop(sc, next, fuel - 1);
    if q == 0 {
      assert !next.run;
      assert RunLoop(sc, next, fuel - 1) == Some(next);
    } else {
      assert s.polls[0] != Some(Quit);
      assert next.polls == s.polls[1..];
      assert next.polls[q - 1] == Some(Quit);
      assert forall k :: 0 <= k < q - 1 ==> next.polls[k] == s.polls[k + 1];
      LoopStopsAtFirstQuit(sc, next, q - 1, fuel - 1);
      assert s.polls[1..][q..] == s.polls[q + 1..];
    }
  }
}
