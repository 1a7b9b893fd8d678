/**
 * The message vocabulary of the game (asteroids.h), and the closed set of
 * handlers the program registers on the bus (graphics.h, input.h, main.cpp).
 */
module Asteroids {

  /** MessageType: the fixed set of message ids. */
  datatype MessageType = GameStart | GameEnd | FrameStart | FrameEnd | DrawSurface | KeyPress

  /** An SDL_Surface pointer, kept opaque: null, or a handle the backend gave out. */
  datatype Surface = Null | Handle(id: nat)

  /**
   * AsteroidsMessage: x, y, z and surface are meaningful for DRAW_SURFACE,
   * keyCode (sdl_key_code) for KEY_PRESS; the others are left zero.
   */
  datatype AsteroidsMessage = AsteroidsMessage(x: int, y: int, z: int, surface: Surface, keyCode: int)

  /** The value-initialised payload `{}` sent with the lifecycle messages. */
  const Empty := AsteroidsMessage(0, 0, 0, Null, 0)

  /**
   * A message of the older one-parameter bus (screen.h, input.h), which
   * carries its id in a `type` field next to the payload.
   */
  datatype TypedMessage = TypedMessage(kind: MessageType, body: AsteroidsMessage)

  /** The handlers that exist in this program, by owner and member function. */
  datatype Handler =
    | BufferSurface        // Graphics::BufferSurface
    | GraphicsUpdate       // Graphics::Update
    | PollInput            // InputComponent, on FRAME_START
    | ShipDraw             // AutoDrawComponent::Draw of the ship
    | ShipKeyPressed       // the ship's KEY_PRESS lambda, calling Ship::KeyPressed
    | BadGuyDraw           // AutoDrawComponent::Draw of the bad guy
    | BadGuyUpdatePosition // BadGuy::UpdatePosition
    | StopRunning          // main's GAME_END subscriber, `run = false`
}
