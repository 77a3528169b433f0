# roguelike-dev grid rules, modelled in Dafny

This project models an early snapshot of a browser roguelike: a small tile map
(0..10 by 0..10) with a seeded row of walls, a rooster agent that a timer loop
pushes one tile east per tick, a keyboard cursor that draws wall paths, and a
bounded on-screen message log. It covers the sequential rules of six
TypeScript files:

- `Grid` (map.ts): the `Point` type, the dictionary key encoding `"x,y"`, the
  `KeyMap` class (a `Map` whose keys pass through an encoding function), and
  `GameMap` with its constructor and `inBounds`. The dictionary is a class over
  a `map<string, V>` field. `KeyMap.Get` and `KeyMap.Has` are plain definitions;
  what they return after an update is stated by `KeyMap.Set` and `KeyMap.Delete`.
  The encoding comes with a decoder and a round-trip proof. So two points share a key only when they are equal, and
  a `KeyMap` keyed this way acts as a map over points.
- `Entities` (entity.ts): `Entity`, whose `moveBy` shifts the location with no
  bounds check, and `Agent` (an id, a location and an appearance).
  simulation.ts imports and builds `Agent`, but entity.ts does not define it.
  The model does.
- `Simulation` (simulation.ts): the initial agent list, `moveAgentTo`, and the `loop`
  object with `start`, `stop` and `tick`.
- `Util` (util.ts): `clamp` and `sign`.
- `Console` (console.ts): the message log with `print` and `clear`. `print`
  pushes the entry, then the log is spliced down to its newest 100 entries.
  That splice uses JavaScript's rule of clamping its count. It is proved equal
  to a separate definition of "the newest 100".
- `Input` (input.ts): the input modes, the key dispatch of `handleKeyDown`,
  the cursor, the wall path, and writing the path's walls on Enter.

Divergences from the source:

- input.ts:83 writes into `map.objects`, which map.ts does not declare. As
  written, `map.objects` is `undefined` on a `GameMap`. So `map.objects.set`
  throws a TypeError at the first path point, and the `setInputMode('move')`
  at input.ts:85 is never reached. The model instead gives `GameMap` a second
  point-keyed dictionary, `objects`. Enter writes every path point into it and
  then returns to Move mode.
- The `InputMode` class hierarchy becomes one class. Its constant `kind`
  (`MoveKind` or `WallKind`) stands for the subclass. A Move mode object keeps
  its `path` empty.
- The mode-specific key handlers call `setInputMode`, which reassigns the
  module variable `current`. So they are methods of `Input`, the class that
  holds input.ts's module state.
- `GameMap.inBounds` reads only the constant `MAP_BOUNDS`. It is a static
  function here, so `moveAgentTo` and the cursor can call it without the
  global `map` object.
- `tick` reads the module-level `agents` list. Here that list is a parameter.

## Model

| member | source | states |
|---|---|---|
| `Util.Clamp` | util.ts:7-9 | lies in [lo, hi] when lo <= hi; is x inside the range, lo below it, hi above it |
| `Util.ClampIdempotent` | util.ts:7-9 | clamping twice gives the same result as clamping once |
| `Util.Sign` | util.ts:21-25 | only -1, 0 or +1; 0 exactly for v = 0; +1 exactly for v > 0; sign(v) * v = abs(v) |
| `Util.SignNegate` | util.ts:21-25 | sign(-v) = -sign(v) |
| `Grid.IntToString` | map.ts:33 | the text `${n}` makes of an integer: never empty and free of commas, which lets the key be split at its one comma |
| `Grid.PointKey` | map.ts:33 | definition of the key `"x,y"`; its properties are in `Grid.ParseKeyRoundTrip` and `Grid.PointKeyInjective` |
| `Grid.ParseKeyRoundTrip` | map.ts:33 | decoding the key `"x,y"` of a point gives back that point |
| `Grid.PointKeyInjective` | map.ts:33 | two points have the same key if and only if they are equal |
| `Grid.KeyMap.constructor` | map.ts:19-22 | a new KeyMap stores its encoding function and has no entries |
| `Grid.KeyMap.Get` | map.ts:23 | definition of `get`: the value stored under the key's encoding, or absent; its properties are in `Grid.KeyMap.Set` and `Grid.KeyMap.Delete` |
| `Grid.KeyMap.Has` | map.ts:24 | definition of `has`: some value is stored under the key's encoding; its properties are in `Grid.KeyMap.Set` and `Grid.KeyMap.Delete` |
| `Grid.KeyMap.Set` | map.ts:25 | afterwards `get(k)` is the value and `has(k)` holds; every key with a different encoding reads as before |
| `Grid.KeyMap.Delete` | map.ts:26 | reports whether the key was present; afterwards `has(k)` is false and every key with a different encoding reads as before |
| `Grid.SetAllKeys` | map.ts:36-38 | a run of `set` calls adds exactly the encodings of the keys it sets |
| `Grid.SetAllPoints` | input.ts:82-84 | after setting every point of a list to v, a point on the list holds v; any other point holds what it held before, and is present only if it was before |
| `Grid.GameMap.constructor` | map.ts:35-39 | the tiles are the result of setting (5,7)..(9,7) to wall in order, starting from nothing; `objects` is empty |
| `Grid.GameMap.InBounds` | map.ts:41-45 | true if and only if 0 <= x <= 10 and 0 <= y <= 10, both ends included |
| `Grid.InitialWalls` | map.ts:35-39 | a new map holds a tile at p exactly when p is one of (5,7)..(9,7), and each of those tiles is a wall |
| `Grid.InitialKeys` | map.ts:36-38 | a new map's tile keys are exactly the five keys "5,7".."9,7" |
| `Grid.InitialWallsInBounds` | map.ts:36-38 | every seeded wall lies inside the map bounds |
| `Entities.Entity.constructor` | entity.ts:11-12 | a new entity has the given location and appearance |
| `Entities.Entity.MoveBy` | entity.ts:14-17 | the location becomes (x + dx, y + dy) for any delta, with no bounds check; the appearance is unchanged |
| `Entities.DisplacedInverse` | entity.ts:14-17 | moving by (dx, dy) and then by (-dx, -dy) restores the location |
| `Entities.DisplacedCompose` | entity.ts:14-17 | moving by (a, b) and then by (c, d) is moving by (a + c, b + d) |
| `Entities.DisplacedIgnoresBounds` | entity.ts:14-17 | a move can leave the map: one step east of (10,10) is out of bounds |
| `Entities.Agent.constructor` | simulation.ts:13 | a new agent has the given id, location and appearance |
| `Simulation.InitialAgents` | simulation.ts:11-13 | the agent list starts as one new agent "agent-1" at (5,10) drawn as a rooster |
| `Simulation.MoveAgentTo` | simulation.ts:20-24 | an in-bounds target becomes the location exactly; for an out-of-bounds target the location does not change; the appearance is unchanged |
| `Simulation.MovedToStaysInBounds` | simulation.ts:20-24 | an agent that starts in bounds is still in bounds after any move request |
| `Simulation.TickStepMoves` | simulation.ts:42-46 | a tick adds 1 to x exactly when the result is in bounds, and never changes y |
| `Simulation.TicksFromStart` | simulation.ts:42-46 | starting from (5,10), after n ticks agent 0 stands at (min(5 + n, 10), 10) |
| `Simulation.TicksStayInBounds` | simulation.ts:42-46 | any number of ticks keeps an in-bounds agent in bounds |
| `Simulation.Loop.constructor` | simulation.ts:26-29 | the loop starts stopped (handle 0) with both pause flags false |
| `Simulation.Loop.Start` | simulation.ts:31-34 | a running loop keeps its handle; a stopped loop takes the host's nonzero handle; afterwards it is running; the pause flags are unchanged |
| `Simulation.Loop.Stop` | simulation.ts:36-40 | the handle is always 0 afterwards, whether or not the loop was running; the pause flags are unchanged |
| `Simulation.Loop.Tick` | simulation.ts:42-46 | agent 0's location advances by one tick step; its appearance, every other agent and the loop's own fields (handle, pause flags) are unchanged |
| `Console.SpliceFront` | console.ts:38 | `splice(0, n)` follows JavaScript's rules: a count of 0 or less removes nothing; a count of the length or more removes everything; otherwise exactly n entries go; what remains is the original array with a prefix removed |
| `Console.NewestIsSuffix` | console.ts:36-38 | the newest n entries of a log are its last min(n, length) entries, in order |
| `Console.PrintedIsNewest` | console.ts:36-38 | after `print` the log is the newest 100 entries of old ++ [entry] |
| `Console.PrintedFacts` | console.ts:36-38 | after `print` the log has at most 100 entries and ends with the new entry; below 100 nothing is dropped; at 100 exactly the oldest entry goes |
| `Console.MessageLog.constructor` | console.ts:11 | the log starts empty |
| `Console.MessageLog.Clear` | console.ts:32-34 | `splice(0)` empties the log |
| `Console.MessageLog.Print` | console.ts:36-38 | the new log is the newest 100 entries of old ++ [[message, className]], and stays within the bound |
| `Input.HandlerFor` | input.ts:25-87 | the handler that enters Wall mode exists only in Move mode; the confirm and cancel handlers exist only in Wall mode; every direction handler moves at most one tile on each axis |
| `Input.DirectionKeys` | input.ts:26-33 | Right (+1,0), Left (-1,0), Down (0,+1), Up (0,-1), PageUp (+1,-1), PageDown (+1,+1), Home (-1,-1), End (-1,+1), in both modes |
| `Input.ModeKeys` | input.ts:64-87 | `w` enters Wall mode only from Move mode; Enter confirms and Escape cancels only in Wall mode |
| `Input.TranslatedKey` | input.ts:97-115 | definition of the numpad translation `NUMPAD_TO_ARROW[key] ?? key` on numpad events, with `NUMPAD_TO_ARROW` as a constant map; its properties are in `Input.NumpadDiagonals` and `Input.NumpadArrowsIgnored` |
| `Input.Dispatch` | input.ts:108-126 | no handler runs when alt, ctrl or meta is held, or on a repeat event; a handler that runs is the current mode's handler for the translated key |
| `Input.DispatchPlainKey` | input.ts:110-125 | an event without modifiers that is not a repeat reaches the current mode's handler for its translated key |
| `Input.NumpadDiagonals` | input.ts:97-115 | numpad 7, 9, 1 and 3 act as Home, PageUp, End and PageDown |
| `Input.NumpadArrowsIgnored` | input.ts:97-117 | numpad 2, 4, 6 and 8 become "DownArrow" and similar names, which no mode handles, so they do nothing |
| `Input.SteppedKeepsValid` | input.ts:54-61 | a cursor move keeps the cursor and every path point in bounds, and Move mode's path empty |
| `Input.SteppedMoves` | input.ts:54-61 | the cursor moves by exactly (dx, dy) when the target is in bounds, and otherwise nothing changes; in Wall mode a successful move appends exactly the new position to the path, after the old path |
| `Input.InputMode.constructor` | input.ts:42-53 | a new mode sits at (x, y); a Wall mode's path starts as [(x, y)] (its `moved()` runs at once); a Move mode's path is empty |
| `Input.InputMode.Moved` | input.ts:75-77 | Wall mode pushes the cursor position onto the path; Move mode does nothing |
| `Input.InputMode.MoveBy` | input.ts:54-61 | the new cursor and path are those of one step, as `Input.SteppedMoves` describes; the cursor stays in bounds |
| `Input.Input.constructor` | input.ts:90 | the input starts in Move mode with the cursor at (5,5) |
| `Input.Input.SetInputMode` | input.ts:91-94 | a fresh mode object of the requested kind at the old cursor x, y; a Wall mode's path starts as [cursor] |
| `Input.Input.KeyW` | input.ts:67 | from Move mode, enters Wall mode at the same cursor with a fresh path [cursor] |
| `Input.Input.KeyEscape` | input.ts:80 | back to Move mode at the same cursor; `objects` is unchanged |
| `Input.Input.KeyEnter` | input.ts:81-86 | `objects` becomes the result of setting every path point to wall, in path order (so, by `Grid.SetAllPoints`, no other point changes); then back to Move mode at the same cursor |
| `Input.Input.HandleKeyDown` | input.ts:108-126 | when no handler runs, nothing changes; otherwise the new state is what the dispatched handler (move, `w`, Escape, Enter) makes of the old one; the cursor never leaves bounds |

## Left out

- Rendering is not modelled. The `render()` calls after a cursor move (input.ts:59), after `setInputMode` (input.ts:93) and after a tick (simulation.ts:45) are treated as no-ops. So is the null `render` that such a call would hit before `install`.
- `drawMessages` (console.ts:12-30), both `install` functions, the instruction HTML updates (input.ts:48-50), the `instructions…` fields and `event.preventDefault` are DOM work. They are not modelled.
- Timers are not modelled. `setInterval`/`clearInterval` and the tick period `1000 / TICKS_PER_SECOND` are outside the model. `Simulation.Loop.Start` takes the host's nonzero handle as a parameter.
- `Simulation.Loop.Tick` requires a non-empty agent list, because the source would throw on `agents[0]` of an empty list. The list is created by `InitialAgents` and is not otherwise resized by the code modelled here.
- `Input.InputMode.constructor`: the zero-delay `setTimeout` around `moved()` (input.ts:43-52) is modelled as an immediate call right after construction.
- `randRange` and `randInt` (util.ts:12-19) are not modelled: they rest on floating-point `Math.random`.
- ui.ts (sprite paths from SVG assets) and roguelike-dev.ts (startup wiring) are not part of this model.
- JavaScript numbers are modelled as unbounded integers. Fractional values, NaN and the exponent form that `${n}` uses for magnitudes of 1e21 and above are outside the model.
- `KeyMap` is modelled only through the four methods the source overrides. The return value of `set` (the map itself) is dropped. Map's own methods (`size`, iteration, raw string keys) are not modelled.
- `Entities.Agent` has no `moveBy`: nothing in these files says whether `Agent` inherits from `Entity`, and the simulation moves agents only through `moveAgentTo`.
- In `NUMPAD_TO_ARROW[key]`, lookups that reach inherited object properties (such as a key named `toString`) are not modelled. `KeyboardEvent.key` never takes such a value.
- Hunger, foraging, plant growth, terrain generation and room-derived edges are not in these files, so they are not modelled.
