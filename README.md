# SimpleGameEngine core, modelled in Dafny

SimpleGameEngine is a small real-time component framework with an Asteroids
game built on it. Components never call each other. They talk over a
publish/subscribe message bus. An engine drives them with a fixed lifecycle:
one `GAME_START`, then a `FRAME_START` / `FRAME_END` pair per frame while a
run flag holds. Drawing is deferred: `DRAW_SURFACE` requests are buffered,
and at `FRAME_END` a compositor clears the window, blits the requests in
ascending z and presents.

The model has one Dafny module per part of the program:

- `MessageBus` (message_bus.dfy) has two buses. `ListBus` is the one-list
  bus that engine/message_bus.h defines. `KeyedBus` is the per-id bus that
  component.h, engine.h and main.cpp call, with payload-taking and
  payload-ignoring subscribers. A send returns the trace of calls it makes.
  The module also models the re-entrancy hazard from the class comment.
- `Components` (component.dfy) is the component base class.
- `Engines` (engine.dfy) is the engine and its frame loop.
  - The values the loop reads from the run flag are given as a sequence.
  - Frame durations are given as a sequence of integer microsecond ticks.
- `Compositing` (compositing.dfy) holds what the two compositors share:
  - the blit request and its `operator<`
  - the `std::sort` contract
  - the clear / blit / present calls on the window
- `GraphicsComponent` (graphics.dfy) is graphics.h.
- `ScreenComponent` (screen.dfy) is the older screen.h.
- `Asteroids` (asteroids.dfy) is the message vocabulary. It also names the
  closed set of handlers the program registers.
- `Game` (game.dfy) holds the parts of main.cpp: the auto-drawing
  component, the ship, the bad guy, the input component and `main`'s wiring.
- `World` (world.dfy) is a whole run of `main` as one function. Every
  lifecycle message is dispatched to the handlers that `main` registers.
  Nested sends run where they happen.
- `Wrappers` (wrappers.dfy) defines `Option`.

The central system property is the one-frame draw lag. `main` constructs
`Graphics` first, so its `FRAME_END` flush runs before the sprites'
`FRAME_END` draws. A frame therefore composites what the previous frame
drew, and the first frame flushes nothing (`World.OneFrameLag`,
`World.DrawsCompositedNextFrame`, `World.FirstFrameFlushesNothing`).

Where the code and descriptions of the design differ, the model follows the
code:

- The compositors sort with `std::sort`, which is not stable. The model
  promises only a permutation of the buffer in non-decreasing z. This agrees
  with the comment at graphics.h:14-16 and does not claim a stable sort.
- Only screen.h flushes on `GAME_START`. Graphics, which `main` uses, does
  not, and in `main` nothing subscribes to `GAME_START`.
- The bus that engine/message_bus.h defines has one type parameter and one
  list. Its callers use a keyed two-parameter interface. Both are modelled;
  the keyed one is specified from its call sites.
- Handlers registered through `std::bind` take the payload and drop it.
  Only `main`'s own `GAME_END` subscriber uses the payload-ignoring overload.

## Model

| member | source | states |
|---|---|---|
| MessageBus.ListBus.constructor | engine/message_bus.h:33-34 | a new bus has no subscribers |
| MessageBus.ListBus.AddSubscriber | engine/message_bus.h:23-25 | the subscriber is appended at the end; the earlier subscribers and their order are unchanged |
| MessageBus.ListBus.SendMessage | engine/message_bus.h:27-31 | each subscriber is called once, in registration order, with the message sent; no subscribers means no call; the list is not changed (the method modifies nothing) |
| MessageBus.DeliveriesAt | engine/message_bus.h:27-31 | the i-th call of a send goes to the i-th subscriber, with the message sent, and there are as many calls as subscribers |
| MessageBus.DeliveriesOnce | engine/message_bus.h:27-31 | the multiset of called subscribers equals the multiset of registered ones: every subscriber exactly once |
| MessageBus.ObserversComplete | engine/message_bus.h:27-31 | when no subscriber re-sends, dispatch finishes within one activation and makes one call per subscriber |
| MessageBus.ResendNeverCompletes | engine/message_bus.h:10-17 | a subscriber that unconditionally re-sends makes dispatch fail at every stack depth: it never terminates |
| MessageBus.ResendBlocks | engine/message_bus.h:10-17 | dispatch from any position at or before a re-sending subscriber fails at every depth |
| MessageBus.CallsAt | engine/component.h:37-39 | the i-th call of a keyed send goes to the i-th subscriber of the id; a payload-taking one gets the payload and a payload-ignoring one gets nothing |
| MessageBus.CallsAppend | engine/message_bus.h:23-31 | sending to a list extended by later registrations makes the old list's calls first, then the new ones |
| MessageBus.KeyedBus.constructor | engine/message_bus.h:33-34 | a new bus has no subscriber under any id |
| MessageBus.KeyedBus.AddSubscriber | engine/component.h:22-25 | one payload-taking subscriber is appended under the id; every other id's list is unchanged |
| MessageBus.KeyedBus.AddIgnoringSubscriber | engine/component.h:31-35 | one payload-ignoring subscriber is appended under the id; every other id's list is unchanged |
| MessageBus.KeyedBus.SendMessage | engine/component.h:37-39 | exactly the subscribers of the id are called, once each, in registration order, with the payload unchanged or with none |
| Components.Component.constructor | engine/component.h:17-18 | stores the bus and registers nothing: every subscriber list is unchanged |
| Components.Component.OnMessage | engine/component.h:22-25 | adds exactly one payload-taking subscriber under the id; other ids untouched |
| Components.Component.OnMessageIgnoringPayload | engine/component.h:31-35 | adds exactly one payload-ignoring subscriber under the id; other ids untouched |
| Components.Component.SendMessage | engine/component.h:37-39 | forwards id and payload unchanged: the calls made are exactly the bus's send of that id and payload |
| Engines.Pace | engine/engine.h:45-51 | sleeps exactly when the frame took less than its budget, and then for the remainder, so that the frame ends on the budget; otherwise it reports an overrun |
| Engines.FramePairsAt | engine/engine.h:39-44 | iteration i sends frame-start then frame-end, at positions 2i and 2i+1 of the frame messages |
| Engines.ScheduleShape | engine/engine.h:37-52 | the loop's messages are start, then frame-start at 1+2i and frame-end at 2+2i for each iteration i |
| Engines.StartSentOnce | engine/engine.h:37-39 | the start message is sent exactly once, and before any frame message |
| Engines.StartNotInPairs | engine/engine.h:39-52 | no iteration sends the start message |
| Engines.FirstFalse | engine/engine.h:39 | the loop stops at the first false reading of the flag; every reading before it is true |
| Engines.Engine.constructor | engine/engine.h:19-27 | keeps the bus and the three messages; the frame budget is 1/fps seconds truncated to whole microseconds; no components yet |
| Engines.Engine.AddComponent | engine/engine.h:29-32 | appends one component; the components added before are kept, in order |
| Engines.Engine.SendFrameMessages | engine/engine.h:41-44 | one iteration sends frame-start and then frame-end; its calls are frame-start's followed by frame-end's |
| Engines.Engine.RunFrames | engine/engine.h:39-52 | with n true readings before the first false one, the loop runs n iterations, sends (frame-start · frame-end)^n with those sends' calls, and paces each iteration from its elapsed ticks |
| Engines.Engine.BlockingGameLoop | engine/engine.h:35-53 | sends start · (frame-start · frame-end)^n; only start when the flag is false on entry; the bus calls are the start send's calls followed by n rounds of the frame sends' calls |
| Compositing.RequestOf | graphics.h:42-45 | the buffered request copies surface, x, y and z from the message |
| Compositing.LessIsStrictWeakOrder | graphics.h:20 | `operator<` is a strict weak order, as std::sort requires: irreflexive, asymmetric, transitive, with incomparability transitive; two requests are incomparable exactly when their z are equal |
| Compositing.ZSortedAllPairs | graphics.h:20 | in a z-sorted sequence no later request is `operator<` any earlier one |
| Compositing.Insert | graphics.h:50 | inserting into a z-sorted sequence keeps it z-sorted and adds exactly that request |
| Compositing.ZSort | graphics.h:50 | a z-ordering of the buffer: a permutation of it, non-decreasing in z, with nothing said about ties |
| Compositing.Composite | graphics.h:47-57 | an empty buffer makes no call; otherwise one clear, one blit per buffered request at its own x and y, and one present, the blits drawn in some z-ordering of the buffer |
| Compositing.BlitsAppend | graphics.h:51-53 | blitting two orderings one after the other is blitting their concatenation |
| Compositing.BlitsSnoc | graphics.h:51-53 | each loop step adds the blit of one request, at its x and y |
| Compositing.BlitsRemove | graphics.h:51-53 | taking a request out of an ordering takes its blit out of the blits |
| Compositing.BlitsPermutation | graphics.h:50-54 | blitting any permutation of the buffer draws the buffered multiset of (surface, x, y), every request exactly once, framed by one clear and one present |
| GraphicsComponent.Graphics.constructor | graphics.h:29-39 | registers exactly two handlers, in order: DRAW_SURFACE to BufferSurface and FRAME_END to Update, both as payload-taking subscribers (a `std::bind` result accepts the message and drops it); nothing buffered or drawn |
| GraphicsComponent.Graphics.BufferSurface | graphics.h:42-45 | appends one request {surface, x, y, z} copied from the message; existing entries and the window unchanged |
| GraphicsComponent.Graphics.Update | graphics.h:47-57 | empty buffer: nothing changes and no call is made; otherwise the window gets clear, one blit per buffered request in non-decreasing z, present, and the buffer is emptied |
| GraphicsComponent.Graphics.BlitInOrder | graphics.h:51-53 | the window gets one blit per request of the sorted buffer, in buffer order; the buffer is unchanged |
| ScreenComponent.Screen.constructor | screen.h:27-35 | nothing buffered and nothing drawn |
| ScreenComponent.Screen.OnMessage | screen.h:37-52 | GAME_START and FRAME_END flush as Update does; DRAW_SURFACE buffers {surface, x, y, z} and draws nothing; every other id changes nothing |
| ScreenComponent.Screen.Update | screen.h:54-64 | empty buffer: nothing; otherwise clear, every request blitted once in non-decreasing z (ties unconstrained), present, and an empty buffer |
| ScreenComponent.Screen.BlitInOrder | screen.h:58-60 | one Blit call per request of the sorted buffer, in buffer order |
| ScreenComponent.Screen.Blit | screen.h:66-72 | one blit of the surface at (x, y); the buffer is unchanged |
| ScreenComponent.Screen.Clear | screen.h:74-77 | one clear of the whole window; the buffer is unchanged |
| Game.KeyMove | main.cpp:65-82 | a key press moves along one axis only; an arrow key moves by exactly the step; any other key leaves the position unchanged |
| Game.OppositeKeysCancel | main.cpp:60-78 | UP then DOWN, DOWN then UP, LEFT then RIGHT and RIGHT then LEFT each restore the position |
| Game.KeyMovesByCount | main.cpp:65-82 | after any run of key presses the ship is moved by step·(#RIGHT − #LEFT) in x and step·(#DOWN − #UP) in y; all other keys are ignored |
| Game.AutoDraw.constructor | main.cpp:16-21 | registers its Draw for FRAME_END as a payload-taking subscriber (the bound call drops the message), and nothing else |
| Game.AutoDraw.Draw | main.cpp:29-36 | sends exactly one DRAW_SURFACE whose x, y, z and surface equal the accessor values; its calls are that send's |
| Game.Ship.constructor | main.cpp:42-52 | starts at (200, 450) with step 5; registers the FRAME_END draw, then KEY_PRESS with the payload, and nothing else |
| Game.Ship.Z | main.cpp:56 | the ship always reports z = 1 |
| Game.Ship.Translate | main.cpp:60-63 | x and y are shifted by dx and dy |
| Game.Ship.KeyPressed | main.cpp:65-82 | UP: y − 5; DOWN: y + 5; RIGHT: x + 5; LEFT: x − 5, the other coordinate unchanged; any other key leaves the ship where it is |
| Game.Ship.Draw | main.cpp:29-36 | the ship's draw request carries its current x, y, z = 1 and its surface |
| Game.BadGuy.constructor | main.cpp:94-102 | starts at (0, 0); registers the FRAME_END draw, then FRAME_START UpdatePosition, and nothing else |
| Game.InputComponent.constructor | input.h:15-16 | registers one FRAME_START handler and nothing else |
| Game.InputComponent.OnFrameStart | input.h:18-34 | a polled key press sends one KEY_PRESS with its key code; a quit request sends one GAME_END; no event or another kind sends nothing |
| Game.MainWiring | main.cpp:133-155 | after `main`'s wiring each id's subscribers are exactly the handlers whose role is that id, each once; only the GAME_END subscriber ignores the payload; Graphics' FRAME_END flush comes before the draws |
| Game.ConstructComponents | main.cpp:133-138 | construction order is registration order: afterwards every id's subscribers are exactly main's, GAME_END still empty, Graphics' FRAME_END flush first |
| Game.BuildGame | main.cpp:129-155 | the subscriber lists are exactly main's; the engine has the three lifecycle messages and the four components in order; the ship is at (200, 450); `run` is true |
| World.SendMovesForward | engine/component.h:37-39 | any send, of any id and payload, only appends calls to the window, only consumes polls from the front, never moves the bad guy back a step, and never sets `run` back to true |
| World.DeliverFromMovesForward | engine/message_bus.h:27-31 | calling the subscribers one after another keeps that invariant, since each call keeps it |
| World.InvokeMovesForward | main.cpp:29-82 | every handler `main` registers (Graphics' buffer and flush, the input poll, both draws, the key move, the bad guy's move, the GAME_END flag) keeps that invariant, including through the sends it nests |
| World.FrameMovesForward | engine/engine.h:41-44 | one frame keeps that invariant |
| World.RunLoopMovesForward | engine/engine.h:39-52 | the loop keeps that invariant however many frames it runs |
| World.PlayMovesForward | main.cpp:158 | a whole game keeps it from the initial state: the window's calls only grow and the polls are consumed in order |
| World.SendDrawSurface | graphics.h:36-45 | in main, DRAW_SURFACE reaches only Graphics, which buffers the request |
| World.SendGameEnd | main.cpp:153-155 | a GAME_END message sets `run` to false and changes nothing else |
| World.SendKeyPress | main.cpp:48-51 | in main, KEY_PRESS reaches only the ship, which moves by the key |
| World.SendGameStart | main.cpp:133-143 | in main nothing subscribes to GAME_START, so it changes nothing |
| World.SendFrameStart | main.cpp:100-101 | FRAME_START polls once, handling a key or quit, and then the bad guy moves, in registration order |
| World.SendFrameEnd | main.cpp:133-138 | FRAME_END first flushes the buffer, then the ship and the bad guy each buffer one draw, in that order |
| World.FrameCompletes | engine/engine.h:41-44 | every frame completes; its effect is FRAME_START's followed by FRAME_END's |
| World.OneFrameLag | main.cpp:133-138 | a frame composites exactly what was buffered before it began; this frame's draws wait in the buffer for the next frame |
| World.FirstFrameFlushesNothing | graphics.h:47-48 | the first frame after GAME_START makes no clear, blit or present call |
| World.FlushIsZOrdered | graphics.h:47-57 | for any sort that meets std::sort's contract, a flush of a non-empty buffer is one clear, the blits of a z-ordering of the buffer, and one present |
| World.DrawsCompositedNextFrame | main.cpp:19-20 | the draws of frame k are exactly what frame k+1 blits, once each, in a z-ordering of them, between one clear and one present, whatever tie order the sort picks |
| World.FrameBookkeeping | engine/engine.h:39-44 | each frame consumes one poll and moves the bad guy once; `run` falls exactly when the poll was a quit |
| World.QuitEndsLoopAfterFrame | engine/engine.h:39-44 | a quit polled at FRAME_START still lets that frame's FRAME_END flush and draw, and then the loop stops |
| World.LoopStopsAtFirstQuit | engine/engine.h:39-52 | with the first quit at poll q, the loop runs exactly q + 1 frames and stops with `run` false |

## Left out

- SDL calls are out of scope: window creation, `SDL_BlitSurface`, `SDL_FillRect`, `SDL_UpdateWindowSurface`, `SDL_LoadBMP` and `SDL_Quit` (sdl/screen.h). A window is the sequence of clear / blit / present calls made on it, and a surface is an opaque handle.
- sdl-ptrs.h has only RAII deleters. Ownership is also not modelled (`unique_ptr`, `std::move` into the engine, the bus outliving the components): components are plain references.
- Wall-clock time is not modelled. Durations are integer microsecond ticks, and the budget is `1000000 / fps` truncated, instead of the `double` value `1.0 / fps`. The elapsed time of each frame is an input sequence. The overrun message on standard output is the `Overrun` value.
- Engines.Engine.BlockingGameLoop: the run flag is not shared with the handlers. The values the loop reads are an input sequence, which is assumed to contain a false. That the flag is set from inside a frame is shown in `World`, whose loop does share it.
- `BadGuy::UpdatePosition` uses `double` and `std::sin`, so it is not modelled. In `World` the bad guy's positions come from an input trajectory, and `Game.BadGuy` models only its start and registrations.
- input.h targets the older one-parameter component API and a `type` field that asteroids.h does not declare. Its handler is adapted to a FRAME_START subscriber on the keyed bus. `SDL_PollEvent` is replaced by an already-decoded event (`Game.InputComponent.OnFrameStart`) or by a sequence of polls (`World`).
- `Game.Ship.KeyPressed` and `Game.KeyMovesByCount` use unbounded integers, so the overflow of `int` coordinates under very many key presses is not modelled.
- `ScreenComponent.Screen.constructor` does not model the registration through the older component base. screen.h's `OnMessage` is modelled as a method that is given typed messages.
- `Compositing.ZSort` is a stable sort, so it fixes one tie order. `Graphics.Update`, `Screen.Update` and `Composite` use it, but their contracts promise only some z-ordering of the buffer. `World` does not use it: the sort is an input of the scenario, constrained by `SortsByZ`, so its lemmas hold for every tie order `std::sort` may choose.
- `World.Send` bounds how deeply sends may nest, and returns None past the bound. `World.FrameCompletes` shows that one level is enough for `main`'s handlers. `World.RunLoop` takes a fuel bound on the number of frames. An unbounded run is not modelled.
- The key code of a draw message is left uninitialised by `AutoDrawComponent::Draw`. Here it is 0. No handler reads it.
- The message bus's destructor and the components' virtual destructors are not modelled.
