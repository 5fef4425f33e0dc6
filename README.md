# tank.io game-state server, modelled in Dafny

The tank.io web server keeps one shared world for every connected client: a
list of players (each with an id, a position `X_pos`/`Y_pos`, a `width` and a
display `style`) and a projectile list (the projectiles clients fired and a
`removeNumber` counter kept by the object library). Three socket.io handlers
change it, and a 20 ms timer broadcasts it:

- `onStart` appends a player created by the object library;
- `newPlayer` stamps the client's player with `id = players.length`, appends
  it and sends the id back;
- `move` first stores the client's new projectile, if any, and then, when there
  is at least one player and the intent carries an id (0 included; only
  undefined and null are skipped), moves that player one step per axis whose
  velocity is present: inside `[min, max - width]` the position moves by
  `-vel * speedMultiplier` with no bound applied afterwards, below `min` it is
  set to `min`, above `max - width` it is set to `max - width`; the style is
  then recomputed. An id that names no player makes the handler throw when it
  reads the missing record's width, after the projectile was stored;
- the broadcast tick lets the object library advance the projectiles, sends
  the world as the `frame`, and resets `removeNumber` to 0.

The project has three modules:

- `GameState` (game_state.dfy): the data model and each handler as a pure
  function on the world, with contracts stating what the handler promises;
- `WebServer` (web_server.dfy): the class `World`, whose methods perform the
  same updates in place, field by field as the server does, each proved equal
  to its function;
- `Sessions` (sessions.dfy): a session as a sequence of events processed one
  at a time, and what holds across a whole session: players are never removed,
  `newPlayer` ids are increasing and never reused, positions stay within a
  velocity-sized margin of the box, and moves of different players commute.

The world is not kept inside the box after every move, although that is how
the server's design is usually described: a player inside the box can step
out of it by one move's displacement, and is clamped back by its next move on
that axis (`OvershootThenClamp` works through a 0..100 example:
50 → 110 → 90). Likewise a `move` whose id names no player is not a silent
no-op: the handler throws, after storing the projectile. The model follows the
code in both cases.

## Model

| member | source | states |
|---|---|---|
| GameState.AxisStep | server/webServer.js:198-214 | inside `[min, max - width]` the position becomes `pos - vel * speed` (it may leave the box); below `min` it becomes exactly `min`; above `max - width` exactly `max - width`; so an out-of-box position is back in the box after one step when the box is non-empty |
| GameState.MovedPlayer | server/webServer.js:192-218 | the moved record has the intent's id and the old width, its style is the square at its new position, an axis whose velocity is absent keeps its position, and each present axis takes one AxisStep against its own bounds only |
| GameState.WithProjectile | server/webServer.js:186-189 | a present projectile is appended exactly once at the end, earlier projectiles and `removeNumber` unchanged; an absent one changes nothing |
| GameState.ApplyMove | server/webServer.js:185-220 | the projectile is stored in every outcome; the update is skipped exactly when there are no players or the id is absent; it throws exactly when the id names no player; skipped and thrown moves leave every player unchanged; a successful move replaces only `players[id]`, by MovedPlayer, and keeps the count |
| GameState.RegisterPlayer | server/webServer.js:178-183 | the id is the count before the append; the count grows by one, earlier players are unchanged, the last slot is the given player with that id, projectiles unchanged |
| GameState.StartPlayer | server/webServer.js:173-176 | the created player is appended unchanged, earlier players and projectiles unchanged |
| GameState.BroadcastTick | server/webServer.js:156-165 | the frame holds the players and the advanced projectile list; afterwards players are unchanged, projectiles are the advanced ones and `removeNumber` is 0 |
| WebServer.World.OnStart | server/webServer.js:173-176 | the in-place append leaves the world StartPlayer describes |
| WebServer.World.NewPlayer | server/webServer.js:178-183 | returns the old player count and leaves the world RegisterPlayer describes |
| WebServer.World.Move | server/webServer.js:185-220 | the in-place, branch-by-branch update returns the outcome and leaves the world ApplyMove describes |
| WebServer.World.Tick | server/webServer.js:156-165 | returns the frame and leaves the world BroadcastTick describes |
| Sessions.Run | server/webServer.js:170-222 | processing events one at a time never shrinks the player list |
| Sessions.RunKeepsPlayers | server/webServer.js:178-218 | over any session every existing slot survives, keeps its width, and keeps an id equal to its index |
| Sessions.RunAssignsFreshIds | server/webServer.js:178-183 | the ids `newPlayer` returns over a session are strictly increasing, each is a slot created in the session, and that slot still carries the id at the end |
| Sessions.MoveKeepsMargin | server/webServer.js:198-214 | one move keeps a player within `margin` of the box when its displacement is at most `margin` |
| Sessions.RunKeepsMargin | server/webServer.js:185-220 | over any session whose joining players start within `margin` of the box and whose moves displace by at most `margin`, every player stays within `margin` of the box |
| Sessions.MovesOfDifferentPlayersCommute | server/webServer.js:191-218 | moves of two different players applied in either order leave the same players |
| Sessions.OvershootThenClamp | server/webServer.js:207-214 | with bounds 0..100, width 10 and speed 1, x = 50 with velocity -60 goes to 110, outside the box, and the next move clamps it to 90 |

## Left out

- The Express application, routes, static and less middleware, `addLib`, the 404 and 500 handlers, `start` and `stop` (server/webServer.js:25-153): HTTP plumbing with no world state.
- The listen error handler, `process.exit(1)` and console logging: process I/O.
- socket.io delivery and the 20 ms `setInterval`: a tick is one call of `World.Tick`; the `id` and `frame` emissions are the values `NewPlayer` and `Tick` return; the `linkStart` reply of `onStart` (the whole world and the constants) is not modelled.
- `JSON.parse` and `JSON.stringify`: payloads arrive decoded (`Intent`, a projectile as a `Json` value) and the frame is returned as a world value; a malformed payload, which throws in the parser, is not modelled.
- The object library (`objects.newPlayer()`, `objects.updateProjectiles()`, the initial `players` and `projectileList`) is not part of this model: the created player, the projectile update (`advance`) and the initial world are parameters.
- The constants module is not part of this model: its bounds and `speedMultiplier` are the immutable `Config` of the world.
- JavaScript numbers: positions, widths and velocities are mathematical reals, so NaN, infinities and rounding are not modelled; the last, empty branch of the per-axis rule, reachable in the server only with NaN, keeps the position.
- Ids are integers: a non-integer id, or a numeric string such as `"0"` that JavaScript would also accept as an index, is not modelled.
- `style` is the record (left, top, width, height) of numbers rather than `'px'` strings.
- Player records are values: the server mutates the shared record `players[id]` through an alias and then stores it back into the same slot, which the model writes as one replacement of that slot.
- Sessions.Run: after a `move` throws, no further event is processed; what the hosting process does with an uncaught exception in a socket handler is outside the model.
- The projectile advance and its `removeNumber` bookkeeping belong to the object library; only the reset to 0 after each broadcast is modelled.
