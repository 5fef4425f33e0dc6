/** What holds across a whole session: the server processes socket events
    and timer ticks one at a time, each to completion, so a session is a
    sequence of events applied in order to the shared world. */
module Sessions {
  import opened GameState

  datatype Event =
    | Start(created: Player)
    | Register(player: Player)
    | Move(intent: Intent, newProjectile: Option<Projectile>)
    | Tick

  /** The final world of a session, the ids sent back to `newPlayer`
      callers in order, and whether a `move` threw. A throwing handler is
      an uncaught exception, so no later event is processed. */
  datatype Trace = Trace(world: WorldState, ids: seq<int>, threw: bool)

  function Run(w: WorldState, c: Config, advance: ProjectileList -> ProjectileList, events: seq<Event>): (t: Trace)
    ensures |w.players| <= |t.world.players|
    decreases |events|
  {
    if events == [] then Trace(w, [], false)
    else
      match events[0]
      case Start(created) => Run(StartPlayer(w, created), c, advance, events[1..])
      case Register(player) =>
        var r := RegisterPlayer(w, player);
        var t := Run(r.world, c, advance, events[1..]);
        Trace(t.world, [r.id] + t.ids, t.threw)
      case Move(intent, newProjectile) =>
        var r := ApplyMove(w, c, intent, newProjectile);
        if r.outcome == Threw then Trace(r.world, [], true)
        else Run(r.world, c, advance, events[1..])
      case Tick => Run(BroadcastTick(w, advance).world, c, advance, events[1..])
  }

  /** Players are never removed or reordered: every slot keeps its width,
      and a slot whose id already equals its index keeps it. */
  lemma {:induction false} RunKeepsPlayers(w: WorldState, c: Config, advance: ProjectileList -> ProjectileList,
                                           events: seq<Event>, k: int)
    requires 0 <= k < |w.players|
    ensures k < |Run(w, c, advance, events).world.players|
    ensures Run(w, c, advance, events).world.players[k].width == w.players[k].width
    ensures w.players[k].id == k ==> Run(w, c, advance, events).world.players[k].id == k
    decreases |events|
  {
    if events != [] {
      match events[0]
      case Start(created) =>
        RunKeepsPlayers(StartPlayer(w, created), c, advance, events[1..], k);
      case Register(player) =>
        var r := RegisterPlayer(w, player);
        assert r.world.players[k] == w.players[k];
        RunKeepsPlayers(r.world, c, advance, events[1..], k);
      case Move(intent, newProjectile) =>
        var r := ApplyMove(w, c, intent, newProjectile);
        if r.outcome != Threw {
          RunKeepsPlayers(r.world, c, advance, events[1..], k);
        }
      case Tick =>
        RunKeepsPlayers(BroadcastTick(w, advance).world, c, advance, events[1..], k);
    }
  }

  /** The ids a session handed out are strictly increasing, so never
      reused; each names a slot created during the session (after the
      `before` slots that existed already), and that slot carries it. */
  predicate FreshIds(before: nat, t: Trace)
  {
    && (forall i, j :: 0 <= i < j < |t.ids| ==> t.ids[i] < t.ids[j])
    && (forall i :: 0 <= i < |t.ids| ==>
          && before <= t.ids[i] < |t.world.players|
          && t.world.players[t.ids[i]].id == t.ids[i])
  }

  /** The n-th successful `newPlayer` of a session gets the n-th id in
      increasing order, never one already in use. */
  lemma {:induction false} RunAssignsFreshIds(w: WorldState, c: Config, advance: ProjectileList -> ProjectileList,
                                              events: seq<Event>)
    ensures FreshIds(|w.players|, Run(w, c, advance, events))
    decreases |events|
  {
    if events != [] {
      match events[0]
      case Start(created) =>
        var w' := StartPlayer(w, created);
        assert Run(w, c, advance, events) == Run(w', c, advance, events[1..]);
        RunAssignsFreshIds(w', c, advance, events[1..]);
      case Register(player) =>
        var r := RegisterPlayer(w, player);
        RunAssignsFreshIds(r.world, c, advance, events[1..]);
        RunKeepsPlayers(r.world, c, advance, events[1..], r.id);
      case Move(intent, newProjectile) =>
        var r := ApplyMove(w, c, intent, newProjectile);
        if r.outcome != Threw {
          assert Run(w, c, advance, events) == Run(r.world, c, advance, events[1..]);
          RunAssignsFreshIds(r.world, c, advance, events[1..]);
        }
      case Tick =>
        var w' := BroadcastTick(w, advance).world;
        assert Run(w, c, advance, events) == Run(w', c, advance, events[1..]);
        RunAssignsFreshIds(w', c, advance, events[1..]);
    }
  }

  /** A player fits the box, and lies within `margin` of the region its
      top-left corner may occupy, [min, max - width], on both axes. */
  predicate WithinMargin(p: Player, c: Config, margin: real)
  {
    && c.minX <= c.maxX - p.width && c.minY <= c.maxY - p.width
    && c.minX - margin <= p.xPos <= c.maxX - p.width + margin
    && c.minY - margin <= p.yPos <= c.maxY - p.width + margin
  }

  predicate AllWithinMargin(players: seq<Player>, c: Config, margin: real)
  {
    forall k :: 0 <= k < |players| ==> WithinMargin(players[k], c, margin)
  }

  /** A velocity moves a player by at most `margin` in one step. */
  predicate StepWithin(vel: Option<real>, c: Config, margin: real)
  {
    vel.Some? ==> -margin <= vel.value * c.speedMultiplier <= margin
  }

  /** The events that keep the margin: joining players start inside it and
      every move's displacement is at most the margin. */
  predicate Admissible(e: Event, c: Config, margin: real)
  {
    match e
    case Start(created) => WithinMargin(created, c, margin)
    case Register(player) => WithinMargin(player, c, margin)
    case Move(intent, _) => StepWithin(intent.xVel, c, margin) && StepWithin(intent.yVel, c, margin)
    case Tick => true
  }

  /** One move keeps a player within the margin: an in-box position moves by
      at most the margin, an out-of-box one is clamped back into the box. */
  lemma MoveKeepsMargin(p: Player, id: int, intent: Intent, c: Config, margin: real)
    requires 0.0 <= margin
    requires WithinMargin(p, c, margin)
    requires StepWithin(intent.xVel, c, margin) && StepWithin(intent.yVel, c, margin)
    ensures WithinMargin(MovedPlayer(p, id, intent, c), c, margin)
  {
  }

  /** The position of every player stays within `margin` of the box for a
      whole session whose moves displace by at most `margin`. The box itself
      is not kept (one move may overshoot it), but the overshoot never
      accumulates: the next move on that axis clamps it back. */
  lemma {:induction false} RunKeepsMargin(w: WorldState, c: Config, advance: ProjectileList -> ProjectileList,
                                          events: seq<Event>, margin: real)
    requires 0.0 <= margin
    requires AllWithinMargin(w.players, c, margin)
    requires forall i :: 0 <= i < |events| ==> Admissible(events[i], c, margin)
    ensures AllWithinMargin(Run(w, c, advance, events).world.players, c, margin)
    decreases |events|
  {
    if events != [] {
      assert Admissible(events[0], c, margin);
      assert forall i :: 0 <= i < |events[1..]| ==> Admissible(events[1..][i], c, margin) by {
        forall i | 0 <= i < |events[1..]| ensures Admissible(events[1..][i], c, margin) {
          assert events[1..][i] == events[i + 1];
        }
      }
      match events[0]
      case Start(created) =>
        var w' := StartPlayer(w, created);
        assert AllWithinMargin(w'.players, c, margin) by {
          forall k | 0 <= k < |w'.players| ensures WithinMargin(w'.players[k], c, margin) {
            if k < |w.players| { assert w'.players[k] == w.players[k]; }
          }
        }
        RunKeepsMargin(w', c, advance, events[1..], margin);
      case Register(player) =>
        var r := RegisterPlayer(w, player);
        assert AllWithinMargin(r.world.players, c, margin) by {
          forall k | 0 <= k < |r.world.players| ensures WithinMargin(r.world.players[k], c, margin) {
            if k < |w.players| { assert r.world.players[k] == w.players[k]; }
          }
        }
        RunKeepsMargin(r.world, c, advance, events[1..], margin);
      case Move(intent, newProjectile) =>
        var r := ApplyMove(w, c, intent, newProjectile);
        if r.outcome == Moved {
          var id := intent.id.value;
          MoveKeepsMargin(w.players[id], id, intent, c, margin);
          assert AllWithinMargin(r.world.players, c, margin) by {
            forall k | 0 <= k < |r.world.players| ensures WithinMargin(r.world.players[k], c, margin) {
              if k != id { assert r.world.players[k] == w.players[k]; }
            }
          }
        }
        if r.outcome != Threw {
          RunKeepsMargin(r.world, c, advance, events[1..], margin);
        }
      case Tick =>
        RunKeepsMargin(BroadcastTick(w, advance).world, c, advance, events[1..], margin);
    }
  }

  /** Moves of two different players do not touch each other's records:
      applied in either order they leave the same players. */
  lemma MovesOfDifferentPlayersCommute(w: WorldState, c: Config, a: Intent, pa: Option<Projectile>,
                                       b: Intent, pb: Option<Projectile>)
    requires a.id.Some? && b.id.Some? && a.id != b.id
    requires 0 <= a.id.value < |w.players| && 0 <= b.id.value < |w.players|
    ensures ApplyMove(ApplyMove(w, c, a, pa).world, c, b, pb).world.players
         == ApplyMove(ApplyMove(w, c, b, pb).world, c, a, pa).world.players
  {
  }

  /** A player inside the box in a 0..100 world, width 10, speed 1, at
      x = 50: velocity -60 takes it to 110, outside the box, and the next
      move, with velocity 0, clamps it to 90 = maxX - width. So "every
      player is inside the box after every move" does not hold. */
  lemma OvershootThenClamp(advance: ProjectileList -> ProjectileList)
    ensures var c := Config(0.0, 100.0, 0.0, 100.0, 1.0);
      var p := Player(0, 50.0, 50.0, 10.0, StyleOf(50.0, 50.0, 10.0));
      var w := WorldState([p], ProjectileList([], 0));
      var once := Run(w, c, advance, [Move(Intent(Some(0), Some(-60.0), None), None)]);
      var twice := Run(w, c, advance, [Move(Intent(Some(0), Some(-60.0), None), None),
                                       Move(Intent(Some(0), Some(0.0), None), None)]);
      && WithinMargin(p, c, 0.0)
      && once.world.players[0].xPos == 110.0
      && !WithinMargin(once.world.players[0], c, 0.0)
      && twice.world.players[0].xPos == 90.0
      && WithinMargin(twice.world.players[0], c, 0.0)
  {
  }
}
