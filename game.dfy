/**
 * The game built on the framework (main.cpp): the components that draw
 * themselves every frame, the ship moved by the arrow keys, the input
 * component (input.h) re-publishing decoded events, and `main`'s wiring of
 * all of them onto one bus and one engine.
 */
module Game {
  import opened Wrappers
  import opened MessageBus
  import opened Components
  import opened Engines
  import opened Asteroids
  import opened GraphicsComponent

  /** SDL2 key codes of the arrow keys (SDLK_RIGHT, SDLK_LEFT, SDLK_DOWN, SDLK_UP). */
  const SdlkRight: int := 0x4000004F
  const SdlkLeft: int := 0x40000050
  const SdlkDown: int := 0x40000051
  const SdlkUp: int := 0x40000052

  /** A position on the screen; y grows downwards. */
  datatype Pos = Pos(x: int, y: int)

  /** Where a ship starts, how far one key press moves it, and the z both drawable components report. */
  const ShipStart := Pos(200, 450)
  const ShipStep: int := 5
  const SpriteZ: int := 1

  /** Where a bad guy starts. */
  const BadGuyStart := Pos(0, 0)

  /** The frame rate `main` passes to the engine. */
  const Fps: nat := 60

  /** One of the four keys Ship::KeyPressed reacts to. */
  predicate IsArrow(key: int)
  {
    key == SdlkUp || key == SdlkDown || key == SdlkRight || key == SdlkLeft
  }

  function Abs(n: int): nat
  {
    if n < 0 then -n else n
  }

  /** Ship::KeyPressed on a position: each arrow key translates by `step` along one axis, any other key does nothing. */
  function KeyMove(p: Pos, key: int, step: int): (q: Pos)
    ensures q.x == p.x || q.y == p.y
    ensures IsArrow(key) ==> Abs(q.x - p.x) + Abs(q.y - p.y) == Abs(step)
    ensures !IsArrow(key) ==> q == p
  {
    if key == SdlkUp then Pos(p.x, p.y - step)
    else if key == SdlkDown then Pos(p.x, p.y + step)
    else if key == SdlkRight then Pos(p.x + step, p.y)
    else if key == SdlkLeft then Pos(p.x - step, p.y)
    else p
  }

  /** A run of key presses, handled in order. */
  function KeyMoves(p: Pos, keys: seq<int>, step: int): Pos
    decreases |keys|
  {
    if keys == [] then p else KeyMoves(KeyMove(p, keys[0], step), keys[1..], step)
  }

  /** Opposite arrow keys cancel out, in either order. */
  lemma OppositeKeysCancel(p: Pos, step: int)
    ensures KeyMove(KeyMove(p, SdlkUp, step), SdlkDown, step) == p
    ensures KeyMove(KeyMove(p, SdlkDown, step), SdlkUp, step) == p
    ensures KeyMove(KeyMove(p, SdlkLeft, step), SdlkRight, step) == p
    ensures KeyMove(KeyMove(p, SdlkRight, step), SdlkLeft, step) == p
  {
  }

  /** How often `key` occurs in `keys`. */
  function Count(keys: seq<int>, key: int): int
  {
    multiset(keys)[key]
  }

  /**
   * Where a run of key presses leaves the ship depends only on how often
   * each arrow key occurs: x moves by step·(#right − #left) and y by
   * step·(#down − #up); every other key is ignored.
   */
  lemma {:induction false} KeyMovesByCount(p: Pos, keys: seq<int>, step: int)
    decreases |keys|
    ensures KeyMoves(p, keys, step) ==
      Pos(p.x + step * (Count(keys, SdlkRight) - Count(keys, SdlkLeft)),
          p.y + step * (Count(keys, SdlkDown) - Count(keys, SdlkUp)))
  {
    if keys != [] {
      var k, rest := keys[0], keys[1..];
      var q := KeyMove(p, k, step);
      KeyMovesByCount(q, rest, step);
      assert keys == [k] + rest;
      assert multiset(keys) == multiset{k} + multiset(rest);
      var r, l := Count(rest, SdlkRight), Count(rest, SdlkLeft);
      var d, u := Count(rest, SdlkDown), Count(rest, SdlkUp);
      assert Count(keys, SdlkRight) == r + (if k == SdlkRight then 1 else 0);
      assert Count(keys, SdlkLeft) == l + (if k == SdlkLeft then 1 else 0);
      assert Count(keys, SdlkDown) == d + (if k == SdlkDown then 1 else 0);
      assert Count(keys, SdlkUp) == u + (if k == SdlkUp then 1 else 0);
      // one key more or less moves the ship by one step more or less
      assert step * (r - l + 1) == step * (r - l) + step;
      assert step * (r - l) == step * (r - l - 1) + step;
      assert step * (d - u + 1) == step * (d - u) + step;
      assert step * (d - u) == step * (d - u - 1) + step;
    }
  }

  /** The DRAW_SURFACE payload AutoDrawComponent::Draw builds from the accessors; the key code is left unset (0). */
  function DrawMessage(x: int, y: int, z: int, surface: Surface): AsteroidsMessage
  {
    AsteroidsMessage(x, y, z, surface, 0)
  }

  /** The KEY_PRESS payload for a key code. */
  function KeyMessage(keyCode: int): AsteroidsMessage
  {
    Empty.(keyCode := keyCode)
  }

  /**
   * AutoDrawComponent: registers its Draw handler for FRAME_END (a std::bind
   * result, so through the payload-taking OnMessage, the payload being
   * discarded), and Draw sends one DRAW_SURFACE built from the accessors.
   */
  class AutoDraw {
    const component: Component<MessageType, AsteroidsMessage, Handler>

    constructor (bus: KeyedBus<MessageType, AsteroidsMessage, Handler>, draw: Handler)
      modifies bus
      ensures component.bus == bus
      ensures bus.SubscribersOf(FrameEnd) == old(bus.SubscribersOf(FrameEnd)) + [Takes(draw)]
      ensures forall id :: id != FrameEnd ==> bus.SubscribersOf(id) == old(bus.SubscribersOf(id))
    {
      component := new Component(bus);
      new;
      component.OnMessage(FrameEnd, draw);
    }

    /**
     * Draw: exactly one message is sent, with id DRAW_SURFACE and x, y, z and
     * surface equal to the accessor values; the calls are those of the bus.
     */
    method Draw(x: int, y: int, z: int, surface: Surface)
      returns (message: AsteroidsMessage, calls: seq<Call<Handler, AsteroidsMessage>>)
      ensures message.x == x && message.y == y && message.z == z && message.surface == surface
      ensures message == DrawMessage(x, y, z, surface)
      ensures calls == Calls(component.bus.SubscribersOf(DrawSurface), message)
    {
      message := DrawMessage(x, y, z, surface);
      calls := component.SendMessage(DrawSurface, message);
    }
  }

  /** Ship: a drawable component moved by the arrow keys. */
  class Ship {
    const autoDraw: AutoDraw
    var x: int
    var y: int
    const moveAmount: int
    const surface: Surface

    /**
     * Starts at (200, 450) with step 5. Registers, in order, the inherited
     * FRAME_END draw handler and its own KEY_PRESS handler (with the payload).
     */
    constructor (bus: KeyedBus<MessageType, AsteroidsMessage, Handler>, surface: Surface)
      modifies bus
      ensures autoDraw.component.bus == bus
      ensures Pos(x, y) == ShipStart && moveAmount == ShipStep && this.surface == surface
      ensures bus.SubscribersOf(FrameEnd) == old(bus.SubscribersOf(FrameEnd)) + [Takes(ShipDraw)]
      ensures bus.SubscribersOf(KeyPress) == old(bus.SubscribersOf(KeyPress)) + [Takes(ShipKeyPressed)]
      ensures forall id :: id != FrameEnd && id != KeyPress ==> bus.SubscribersOf(id) == old(bus.SubscribersOf(id))
    {
      autoDraw := new AutoDraw(bus, ShipDraw);
      x := ShipStart.x;
      y := ShipStart.y;
      moveAmount := ShipStep;
      this.surface := surface;
      new;
      autoDraw.component.OnMessage(KeyPress, ShipKeyPressed);
    }

    function X(): int
      reads this
    {
      x
    }

    function Y(): int
      reads this
    {
      y
    }

    /** The ship always reports z = 1. */
    function Z(): (z: int)
      ensures z == SpriteZ
    {
      1
    }

    method Translate(dx: int, dy: int)
      modifies this
      ensures x == old(x) + dx && y == old(y) + dy
    {
      x := x + dx;
      y := y + dy;
    }

    /**
     * KeyPressed: UP decreases y and DOWN increases it, RIGHT increases x and
     * LEFT decreases it, each by the step; any other key leaves the ship where it is.
     */
    method KeyPressed(key: int)
      modifies this
      ensures Pos(x, y) == KeyMove(Pos(old(x), old(y)), key, moveAmount)
      ensures key == SdlkUp ==> x == old(x) && y == old(y) - moveAmount
      ensures key == SdlkDown ==> x == old(x) && y == old(y) + moveAmount
      ensures key == SdlkRight ==> x == old(x) + moveAmount && y == old(y)
      ensures key == SdlkLeft ==> x == old(x) - moveAmount && y == old(y)
      ensures key !in {SdlkUp, SdlkDown, SdlkRight, SdlkLeft} ==> x == old(x) && y == old(y)
    {
      if key == SdlkUp {
        Translate(0, -moveAmount);
      } else if key == SdlkDown {
        Translate(0, moveAmount);
      } else if key == SdlkRight {
        Translate(moveAmount, 0);
      } else if key == SdlkLeft {
        Translate(-moveAmount, 0);
      }
    }

    /** The inherited Draw, reading this ship's accessors. */
    method Draw() returns (message: AsteroidsMessage, calls: seq<Call<Handler, AsteroidsMessage>>)
      ensures message == DrawMessage(x, y, SpriteZ, surface)
      ensures calls == Calls(autoDraw.component.bus.SubscribersOf(DrawSurface), message)
    {
      message, calls := autoDraw.Draw(X(), Y(), Z(), surface);
    }
  }

  /**
   * BadGuy: a drawable component that also moves itself on FRAME_START.
   * Its motion (a sine wave over doubles) is not part of this class; only
   * its start and its registrations are.
   */
  class BadGuy {
    const autoDraw: AutoDraw
    var x: int
    var y: int
    const surface: Surface

    /** Starts at (0, 0). Registers, in order, the inherited FRAME_END draw handler and FRAME_START UpdatePosition. */
    constructor (bus: KeyedBus<MessageType, AsteroidsMessage, Handler>, surface: Surface)
      modifies bus
      ensures autoDraw.component.bus == bus
      ensures Pos(x, y) == BadGuyStart && this.surface == surface
      ensures bus.SubscribersOf(FrameEnd) == old(bus.SubscribersOf(FrameEnd)) + [Takes(BadGuyDraw)]
      ensures bus.SubscribersOf(FrameStart) == old(bus.SubscribersOf(FrameStart)) + [Takes(BadGuyUpdatePosition)]
      ensures forall id :: id != FrameEnd && id != FrameStart ==> bus.SubscribersOf(id) == old(bus.SubscribersOf(id))
    {
      autoDraw := new AutoDraw(bus, BadGuyDraw);
      x := BadGuyStart.x;
      y := BadGuyStart.y;
      this.surface := surface;
      new;
      autoDraw.component.OnMessage(FrameStart, BadGuyUpdatePosition);
    }
  }

  /** A decoded input event as SDL_PollEvent delivers it: a key press, a quit request, or anything else. */
  datatype InputEvent = KeyDown(keyCode: int) | Quit | OtherEvent

  /**
   * InputComponent (input.h): on FRAME_START it polls for at most one event
   * and re-sends a key press as KEY_PRESS and a quit request as GAME_END.
   */
  class InputComponent {
    const component: Component<MessageType, AsteroidsMessage, Handler>

    constructor (bus: KeyedBus<MessageType, AsteroidsMessage, Handler>)
      modifies bus
      ensures component.bus == bus
      ensures bus.SubscribersOf(FrameStart) == old(bus.SubscribersOf(FrameStart)) + [Takes(PollInput)]
      ensures forall id :: id != FrameStart ==> bus.SubscribersOf(id) == old(bus.SubscribersOf(id))
    {
      component := new Component(bus);
      new;
      component.OnMessage(FrameStart, PollInput);
    }

    /**
     * The FRAME_START handler, given what the poll returned: nothing polled or
     * an event of another kind sends nothing; a key press sends one KEY_PRESS
     * carrying its key code; a quit request sends one GAME_END.
     */
    method OnFrameStart(polled: Option<InputEvent>) returns (calls: seq<Call<Handler, AsteroidsMessage>>)
      ensures polled.Some? && polled.value.KeyDown? ==>
        calls == Calls(component.bus.SubscribersOf(KeyPress), KeyMessage(polled.value.keyCode))
      ensures polled == Some(Quit) ==> calls == Calls(component.bus.SubscribersOf(GameEnd), Empty)
      ensures polled.None? || polled == Some(OtherEvent) ==> calls == []
    {
      calls := [];
      if polled.Some? {
        match polled.value {
          case KeyDown(k) =>
            calls := component.SendMessage(KeyPress, KeyMessage(k));
          case Quit =>
            calls := component.SendMessage(GameEnd, Empty);
          case OtherEvent =>
        }
      }
    }
  }

  /** The one id each handler of the game is registered for. */
  function Role(h: Handler): MessageType
  {
    match h
    case BufferSurface => DrawSurface
    case GraphicsUpdate => FrameEnd
    case PollInput => FrameStart
    case ShipDraw => FrameEnd
    case ShipKeyPressed => KeyPress
    case BadGuyDraw => FrameEnd
    case BadGuyUpdatePosition => FrameStart
    case StopRunning => GameEnd
  }

  /** The subscribers of each id once `main` has built everything, in registration order. */
  function MainSubscribers(id: MessageType): seq<Subscriber<Handler>>
  {
    match id
    case GameStart => []
    case GameEnd => [Ignores(StopRunning)]
    case FrameStart => [Takes(PollInput), Takes(BadGuyUpdatePosition)]
    case FrameEnd => [Takes(GraphicsUpdate), Takes(ShipDraw), Takes(BadGuyDraw)]
    case DrawSurface => [Takes(Handler.BufferSurface)]
    case KeyPress => [Takes(ShipKeyPressed)]
  }

  /**
   * What main's wiring amounts to: each id's subscribers are exactly the
   * handlers whose role is that id, each once; only main's GAME_END
   * subscriber ignores the payload; and Graphics' flush comes before both
   * FRAME_END draws.
   */
  lemma MainWiring(id: MessageType)
    ensures var subs := MainSubscribers(id);
      && (forall i :: 0 <= i < |subs| ==> Role(subs[i].handler) == id)
      && (forall h :: Role(h) == id ==> Takes(h) in subs || Ignores(h) in subs)
      && (forall i, j :: 0 <= i < j < |subs| ==> subs[i].handler != subs[j].handler)
      && (forall i :: 0 <= i < |subs| ==> (subs[i].Takes? <==> subs[i].handler != StopRunning))
      && (id == FrameEnd ==> subs != [] && subs[0] == Takes(GraphicsUpdate))
  {
  }

  /**
   * The first part of `main`: Graphics, the input component, the ship and
   * the bad guy are constructed in that order on an empty bus. Construction
   * order is registration order, so Graphics' FRAME_END flush is subscribed
   * before both draws.
   */
  method ConstructComponents(bus: KeyedBus<MessageType, AsteroidsMessage, Handler>,
                             shipSurface: Surface, badGuySurface: Surface)
    returns (graphics: Graphics, input: InputComponent, ship: Ship, badGuy: BadGuy)
    requires forall id :: bus.SubscribersOf(id) == []
    modifies bus
    ensures forall id :: bus.SubscribersOf(id) == if id == GameEnd then [] else MainSubscribers(id)
    ensures graphics.component.bus == bus && input.component.bus == bus
    ensures ship.autoDraw.component.bus == bus && badGuy.autoDraw.component.bus == bus
    ensures graphics.surfacesToDraw == [] && graphics.screen == []
    ensures Pos(ship.x, ship.y) == ShipStart && ship.surface == shipSurface
    ensures Pos(badGuy.x, badGuy.y) == BadGuyStart && badGuy.surface == badGuySurface
  {
    graphics := new Graphics(bus);
    input := new InputComponent(bus);
    ship := new Ship(bus, shipSurface);
    badGuy := new BadGuy(bus, badGuySurface);
    forall id ensures bus.SubscribersOf(id) == if id == GameEnd then [] else MainSubscribers(id) {
      match id
      case GameStart =>
      case GameEnd =>
      case FrameStart =>
      case FrameEnd =>
      case DrawSurface =>
      case KeyPress =>
    }
  }

  /**
   * The construction and registration part of `main`: the components are
   * built, the engine gets the three lifecycle messages and 60 fps, the
   * components are added in construction order, and a last subscriber
   * clears the run flag on GAME_END. The subscriber lists are then exactly
   * MainSubscribers.
   */
  method BuildGame(shipSurface: Surface, badGuySurface: Surface)
    returns (bus: KeyedBus<MessageType, AsteroidsMessage, Handler>,
             engine: Engine<MessageType, AsteroidsMessage, Handler>,
             graphics: Graphics, input: InputComponent, ship: Ship, badGuy: BadGuy, run: bool)
    ensures forall id :: bus.SubscribersOf(id) == MainSubscribers(id)
    ensures engine.bus == bus && graphics.component.bus == bus && input.component.bus == bus
    ensures ship.autoDraw.component.bus == bus && badGuy.autoDraw.component.bus == bus
    ensures engine.startMessage == (GameStart, Empty)
    ensures engine.startFrameMessage == (FrameStart, Empty)
    ensures engine.endFrameMessage == (FrameEnd, Empty)
    ensures engine.components ==
      [graphics.component, input.component, ship.autoDraw.component, badGuy.autoDraw.component]
    ensures graphics.surfacesToDraw == [] && graphics.screen == []
    ensures Pos(ship.x, ship.y) == ShipStart && ship.surface == shipSurface
    ensures Pos(badGuy.x, badGuy.y) == BadGuyStart && badGuy.surface == badGuySurface
    ensures run
  {
    bus := new KeyedBus();
    graphics, input, ship, badGuy := ConstructComponents(bus, shipSurface, badGuySurface);
    engine := new Engine(bus, (GameStart, Empty), (FrameStart, Empty), (FrameEnd, Empty), Fps);
    engine.AddComponent(graphics.component);
    engine.AddComponent(input.component);
    engine.AddComponent(ship.autoDraw.component);
    engine.AddComponent(badGuy.autoDraw.component);
    run := true;
    bus.AddIgnoringSubscriber(GameEnd, StopRunning);
    forall id ensures bus.SubscribersOf(id) == MainSubscribers(id) {
      if id == GameEnd {
        assert bus.SubscribersOf(id) == [Ignores(StopRunning)];
      }
    }
  }
}
