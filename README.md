# Game bridge state layer in Dafny

This project models the state-management core of Interceptor2D. That is the
bridge that exposes window, input, audio and sprite primitives to a Lua game
script and drives the script once per frame. Three stateful pieces are
modelled and proved:

- **Sprite registry** (`Render`, from `src/RenderState.cpp`). The class
  `RenderState` holds `spritemap`, a map from a script-chosen identifier to a
  `Sprite` (texture, position, clip rectangle). Every operation that addresses
  an existing sprite goes through `MapApply`. It runs the mutator and returns
  true only when the identifier is present. So `set_sprite_position`,
  `set_sprite_clip` and `draw_sprite` on an unknown identifier change nothing.
  `load_sprite` loads its texture first, then swaps the texture of an existing
  sprite or inserts a new sprite. `clear_sprite` erases. Each method's
  postcondition ties the new map to a function of the old one (`Upserted`,
  `Erased`, `Positioned`, `Clipped`). Those functions state which entry
  changed and which fields of it.
- **Bidirectional key map** (`KeyMap`, and `Game.GameState.BuildKeymap`). A
  fixed forward table maps the names "up", "down", "left", "right" to SFML 2's
  arrow-key codes (71 to 74). The loop `ExtendReverse` builds the reverse table
  from it. For every forward table, each reverse entry points back to a name
  with that code. For an injective table (such as the bridge's), the result is
  its exact inverse. `is_key_pressed` answers false for any unmapped name.
- **Event dispatch** (`Events`, and `Game.GameState.Update`). The event table
  maps an event type to one of three handler shapes. The script side is the
  trace of `Call`s the bridge makes into it. `Update(dt, polled)` returns
  `[update(dt)]` followed by the calls of the polled events, concatenated in
  poll order. Unrouted event types and key codes without a name cause no call.
  Each event causes at most one call.

The loaders (`LoadScript`, `LoadSound`, `LoadMusic`, `LoadTexture`) are
module-level functions of a path. A `store` stands for the file system and the
decoder: it maps each path that opens and decodes to its value. A missing path
fails with the message "Unable to load <kind>: <path>", which ends with the
path. `GameState`'s fields (`keymap`, `keymapRev`, `eventmap`, plus the loaded
`script`) mirror the members declared in `src/GameState.hpp:28-33`. Each table
is a map, so a name has at most one code, a code at most one name, and an event
type at most one handler.

`GameState::Update` calls the script's `update` before it routes any polled
event (`src/GameState.cpp:40-48`), and the model keeps that order.

## Model

| member | source | states |
|---|---|---|
| `Assets.LoadFrom` | src/GameState.hpp:39-41 | A loader succeeds exactly when the path is in the store, and then yields the stored value. On failure its message starts with "Unable to load <kind>: " and ends with the path. |
| `Game.LoadScript` | src/GameState.cpp:161-174 | Fails exactly when the script file is missing, with a message that ends with the path. Otherwise it yields the file's text. |
| `Game.LoadSound` | src/GameState.cpp:176-185 | Fails exactly when the sound cannot be loaded, with a message that ends with the path. Otherwise it yields the buffer. |
| `Game.LoadMusic` | src/GameState.cpp:187-196 | Fails exactly when the music cannot be opened, with a message that ends with the path. Otherwise it yields the stream. |
| `Render.LoadTexture` | src/RenderState.cpp:101-109 | Fails exactly when the texture cannot be loaded, with a message that ends with the path. Otherwise it yields the stored texture. |
| `Render.Upserted` | src/RenderState.cpp:45-59 | After load_sprite, the key set is the old one plus `id`, and `id` has the new texture. An existing sprite keeps its position and clip. A new sprite is built from the texture alone. Every other entry is unchanged. |
| `Render.Erased` | src/RenderState.cpp:61-65 | After clear_sprite, the key set is the old one minus `id`, and every remaining entry is unchanged. |
| `Render.Positioned` | src/RenderState.cpp:68-76 | The key set is unchanged and other sprites are unchanged. The named sprite, if present, gets the new x and y and keeps its texture and clip. |
| `Render.Clipped` | src/RenderState.cpp:78-86 | The key set is unchanged and other sprites are unchanged. The named sprite, if present, gets the new clip and keeps its texture and position. |
| `Render.Submitted` | src/RenderState.cpp:88-96 | draw_sprite submits exactly one draw, of the named sprite, when `id` is present, and none otherwise. |
| `Render.RenderState.MapApply` | src/RenderState.cpp:34-43 | Returns true exactly when `id` is present. It then replaces only that sprite with what the mutator leaves and reports the mutator's draws. Otherwise the map is unchanged and no draw is made. |
| `Render.RenderState.LoadSprite` | src/RenderState.cpp:45-59 | If the texture load fails, the call fails naming the path and the map is unchanged. Otherwise the new map is `Upserted(old, id, texture)`, and `id` is present with the texture stored for `path`. |
| `Render.RenderState.ClearSprite` | src/RenderState.cpp:61-65 | The new map is `Erased(old, id)`. |
| `Render.RenderState.SetSpritePosition` | src/RenderState.cpp:68-76 | The new map is `Positioned(old, id, x, y)`, so an unknown `id` changes nothing. |
| `Render.RenderState.SetSpriteClip` | src/RenderState.cpp:78-86 | The new map is `Clipped(old, id, rect)`, so an unknown `id` changes nothing. |
| `Render.RenderState.DrawSprite` | src/RenderState.cpp:88-96 | The map is unchanged, and the submitted draws are `Submitted(map, id)`. |
| `Render.ClearIdempotent` | src/RenderState.cpp:61-65 | Clearing an identifier twice is the same as clearing it once. |
| `Render.ReloadKeepsPlacement` | src/RenderState.cpp:49-56 | A second load under the same identifier keeps the key set. It changes only the texture of that sprite. |
| `Render.HeroScenario` | src/RenderState.cpp:45-96 | Load "hero" from "hero.png", move it to (10, 20) and draw it. This makes exactly one submission: the hero texture at (10, 20) with its full clip. |
| `KeyMap.DefaultKeymap` | src/GameState.cpp:61-66 | The forward table holds exactly "up", "down", "left" and "right", and no two of them share a code. |
| `KeyMap.ExtendReverse` | src/GameState.cpp:68-70 | The reverse table's keys are its starting keys plus every forward code. Each forward code maps back to a name with that code. Entries for other codes are kept. This holds for any forward table and any iteration order. |
| `KeyMap.InjectiveReverseIsInverse` | src/GameState.cpp:61-70 | For an injective forward table, such a reverse table is its exact inverse: every pair appears in both directions. |
| `Events.Handle` | src/GameState.cpp:79-117 | A handler makes at most one call, and only to `handle_event` under its own event name. A key handler makes none exactly when the code has no name. |
| `Events.Dispatch` | src/GameState.cpp:46-47 | One event causes at most one call, and none when its type has no route. |
| `Events.DispatchAll` | src/GameState.cpp:44-48 | A sequence of events causes at most as many calls as there are events. |
| `Events.DefaultRoutes` | src/GameState.cpp:75-120 | The table routes exactly the six handled event types, and each handler reads only the payload its type carries. |
| `Events.DispatchAllAppend` | src/GameState.cpp:44-48 | The calls of two event sequences in a row are the first's calls followed by the second's. |
| `Events.DispatchInOrder` | src/GameState.cpp:44-48 | Event `i`'s calls come after those of all earlier events and before those of all later ones. |
| `Events.UnroutedEventsSilent` | src/GameState.cpp:46-47 | Events whose types have no route cause no call. |
| `Events.UnroutedEventDropped` | src/GameState.cpp:46-47 | Removing an unrouted event from the poll sequence changes no call. |
| `Events.DefaultDispatch` | src/GameState.cpp:79-117 | Under the bridge's table: "closed", "lost_focus" and "gained_focus" are zero-payload calls, and "resized" carries width and height. "key_pressed"/"key_released" carry the key's name when the code has one, with no call otherwise. Other types cause nothing. |
| `Game.GameState.constructor` | src/GameState.cpp:3-10 | After construction the forward table is the fixed one, the reverse table is its exact inverse, and the event table is the bridge's. |
| `Game.GameState.BuildKeymap` | src/GameState.cpp:59-73 | Installs the fixed forward table and extends the reverse table from it. Starting from an empty reverse table, the two are exact inverses. |
| `Game.GameState.BuildEventmap` | src/GameState.cpp:75-120 | Installs one route for each of the six handled event types, over whatever routes were there. |
| `Game.GameState.IsKeyPressed` | src/GameState.cpp:15-21 | False for any name not in the forward table. Otherwise it is the live state of that name's code. |
| `Game.GameState.Update` | src/GameState.cpp:37-51 | The trace is `update(dt)` first, then the calls of the polled events in poll order. |
| `Game.Open` | src/GameState.cpp:3-10 | Construction fails, naming the path, exactly when the script cannot be loaded. Otherwise it yields a valid state holding the script's text, with the fixed forward key table, its exact inverse and the bridge's event table. |
| `Game.KeyPollAfterBuild` | src/GameState.cpp:15-21 | With the fixed table, each arrow name polls its own key code, and every other name reads as not pressed. |
| `Game.MixedEventsDispatch` | src/GameState.cpp:79-117 | Poll a resize, a named key press, an unnamed key press, an unrouted event, a named key release and a close. Under the bridge's table these cause exactly the resize, press, release and close calls, in that order. |
| `Game.FrameScenario` | src/GameState.cpp:37-48 | On a freshly built state, one frame's trace is `update(dt)` followed by exactly those four calls. |

## Left out

- The texture, sound, music and script cache `Resource<T>`: its source
  (`Resource.hpp`) is not part of this model. Deduplication, reference counting
  and reload-after-release are not modelled. Loads go straight to the loader
  over the store. So `load_sound`/`load_music` (`src/GameState.cpp:127-138`),
  whose only effect is to fill that cache, are not modelled beyond the loader
  contract.
- The Lua interpreter: running the script at construction and registering the
  native functions into `interface`. The script is only the receiver of the
  traced calls.
- `GameState::Draw` (`src/GameState.cpp:53-57`): one call to the script's
  `draw` entry, with no state involved.
- Window work done by the SFML backend: `exit` (closing the window),
  `create_window`, `resize_window` and `RenderState::operator()`, which wires
  them up (`src/RenderState.cpp:3-29`). The live keyboard state becomes the
  `pressed` parameter. `pollEvent` becomes the `polled` input sequence.
- `play_sound`/`play_music` (`src/GameState.cpp:141-155`): audio playback, a
  side effect with no state to verify.
- Floating point: positions are kept as integers, although the source converts
  them to `float`. The frame time `dt` is a `real` passed through untouched.
- Texture lifetime and ownership, which are a C++ memory concern.
- `RenderState.hpp` is not part of this model. The type of `spritemap` is
  inferred from its use. Reloading a texture keeps the clip rectangle, because
  SFML's `setTexture` does not reset it by default.
- `KeyMap.ExtendReverse`: takes the forward entries in an arbitrary order,
  where `std::map` uses key order. What is proved holds for every order. For a
  non-injective table, the model therefore does not say which name wins.
- Key codes other than the four arrows are just integers. Only code 0 (the A
  key) appears, as an example of an unnamed code.
