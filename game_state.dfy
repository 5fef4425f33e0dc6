/** The authoritative world state of the tank.io server and the pure
    specification of every change the socket handlers and the broadcast
    tick make to it. The class in module WebServer performs these changes
    in place and is proved against the functions below. */
module GameState {

  datatype Option<T> = None | Some(value: T)

  /** A decoded JSON value, as the client sends it. */
  datatype Json =
    | JNull
    | JBool(b: bool)
    | JNumber(n: real)
    | JString(s: string)
    | JArray(items: seq<Json>)
    | JObject(fields: map<string, Json>)

  /** A projectile is an opaque client payload; the server only stores it. */
  type Projectile = Json

  /** The display attributes `left`, `top`, `width`, `height` (in pixels). */
  datatype Style = Style(left: real, top: real, width: real, height: real)

  datatype Player = Player(id: int, xPos: real, yPos: real, width: real, style: Style)

  datatype ProjectileList = ProjectileList(projectiles: seq<Projectile>, removeNumber: int)

  /** Process-wide constants: the playable box and the speed multiplier. */
  datatype Config = Config(minX: real, maxX: real, minY: real, maxY: real, speedMultiplier: real)

  /** The decoded `player` argument of a `move` event. An absent field
      (undefined or null in the payload) is None. */
  datatype Intent = Intent(id: Option<int>, xVel: Option<real>, yVel: Option<real>)

  datatype WorldState = WorldState(players: seq<Player>, projectileList: ProjectileList)

  /** How a `move` event ends: the player update was skipped, it was
      applied, or the handler threw because the id indexes no player. */
  datatype MoveOutcome = Skipped | Moved | Threw

  datatype MoveResult = MoveResult(outcome: MoveOutcome, world: WorldState)

  datatype Registration = Registration(id: int, world: WorldState)

  /** What one broadcast tick sends (`frame`) and the state it leaves. */
  datatype TickResult = TickResult(frame: WorldState, world: WorldState)

  /** The style the server recomputes after a move: a square of side `width`
      whose top-left corner is the player's position. */
  function StyleOf(xPos: real, yPos: real, width: real): Style
  {
    Style(xPos, yPos, width, width)
  }

  /** One axis of a `move`: a position inside [lo, barrier] moves by
      `-vel * speed` with no bound enforced afterwards; a position outside
      is put back on the nearer edge instead of moving. */
  function AxisStep(pos: real, vel: real, lo: real, barrier: real, speed: real): (r: real)
    ensures lo <= pos <= barrier ==> r == pos - vel * speed
    ensures pos < lo ==> r == lo
    ensures lo <= pos && barrier < pos ==> r == barrier
    ensures lo <= barrier && !(lo <= pos <= barrier) ==> lo <= r <= barrier
    ensures r == pos - vel * speed || r == lo || r == barrier
  {
    if lo <= pos && pos <= barrier then pos - vel * speed
    else if pos < lo then lo
    else if barrier < pos then barrier
    else pos
  }

  /** The record `move` leaves in the player's slot: the id is rewritten,
      each axis whose velocity is present takes one AxisStep against its own
      bounds, and the style follows the new position. */
  function MovedPlayer(p: Player, id: int, intent: Intent, c: Config): (q: Player)
    ensures q.id == id && q.width == p.width
    ensures q.style == StyleOf(q.xPos, q.yPos, q.width)
    ensures intent.xVel.None? ==> q.xPos == p.xPos
    ensures intent.yVel.None? ==> q.yPos == p.yPos
    ensures intent.xVel.Some? ==>
      q.xPos == AxisStep(p.xPos, intent.xVel.value, c.minX, c.maxX - p.width, c.speedMultiplier)
    ensures intent.yVel.Some? ==>
      q.yPos == AxisStep(p.yPos, intent.yVel.value, c.minY, c.maxY - p.width, c.speedMultiplier)
  {
    var y := if intent.yVel.Some?
      then AxisStep(p.yPos, intent.yVel.value, c.minY, c.maxY - p.width, c.speedMultiplier)
      else p.yPos;
    var x := if intent.xVel.Some?
      then AxisStep(p.xPos, intent.xVel.value, c.minX, c.maxX - p.width, c.speedMultiplier)
      else p.xPos;
    Player(id, x, y, p.width, StyleOf(x, y, p.width))
  }

  /** The projectile list after `move` stored the optional new projectile. */
  function WithProjectile(l: ProjectileList, newProjectile: Option<Projectile>): (r: ProjectileList)
    ensures r.removeNumber == l.removeNumber
    ensures newProjectile.None? ==> r.projectiles == l.projectiles
    ensures newProjectile.Some? ==>
      && |r.projectiles| == |l.projectiles| + 1
      && r.projectiles[..|l.projectiles|] == l.projectiles
      && r.projectiles[|l.projectiles|] == newProjectile.value
  {
    if newProjectile.Some? then l.(projectiles := l.projectiles + [newProjectile.value]) else l
  }

  /** The whole `move` handler on a world state. */
  function ApplyMove(w: WorldState, c: Config, intent: Intent, newProjectile: Option<Projectile>): (r: MoveResult)
    ensures r.world.projectileList == WithProjectile(w.projectileList, newProjectile)
    ensures r.outcome == Skipped <==> |w.players| == 0 || intent.id.None?
    ensures r.outcome == Threw <==>
      |w.players| > 0 && intent.id.Some? && !(0 <= intent.id.value < |w.players|)
    ensures r.outcome != Moved ==> r.world.players == w.players
    ensures r.outcome == Moved ==>
      var id := intent.id.value;
      0 <= id < |w.players| &&
      |r.world.players| == |w.players| &&
      r.world.players[id] == MovedPlayer(w.players[id], id, intent, c) &&
      forall k :: 0 <= k < |w.players| && k != id ==> r.world.players[k] == w.players[k]
  {
    var l := WithProjectile(w.projectileList, newProjectile);
    if |w.players| > 0 && intent.id.Some? then
      var id := intent.id.value;
      if 0 <= id < |w.players| then
        MoveResult(Moved, WorldState(w.players[id := MovedPlayer(w.players[id], id, intent, c)], l))
      else
        MoveResult(Threw, WorldState(w.players, l))
    else
      MoveResult(Skipped, WorldState(w.players, l))
  }

  /** The `newPlayer` handler: the id is the number of players before the
      append, and the player is stored with that id at the end. */
  function RegisterPlayer(w: WorldState, player: Player): (r: Registration)
    ensures r.id == |w.players|
    ensures |r.world.players| == |w.players| + 1
    ensures r.world.players[..|w.players|] == w.players
    ensures r.world.players[r.id] == player.(id := r.id)
    ensures r.world.projectileList == w.projectileList
  {
    var id := |w.players|;
    Registration(id, w.(players := w.players + [player.(id := id)]))
  }

  /** The `onStart` handler: whatever the object library creates is
      appended, unchanged. */
  function StartPlayer(w: WorldState, created: Player): (r: WorldState)
    ensures |r.players| == |w.players| + 1
    ensures r.players[..|w.players|] == w.players
    ensures r.players[|w.players|] == created
    ensures r.projectileList == w.projectileList
  {
    w.(players := w.players + [created])
  }

  /** One broadcast tick: the projectiles are advanced by the object
      library (`advance`), the frame is the state at that point, and the
      removal counter is then reset. */
  function BroadcastTick(w: WorldState, advance: ProjectileList -> ProjectileList): (r: TickResult)
    ensures r.frame.players == w.players && r.world.players == w.players
    ensures r.frame.projectileList == advance(w.projectileList)
    ensures r.world.projectileList.projectiles == r.frame.projectileList.projectiles
    ensures r.world.projectileList.removeNumber == 0
  {
    var advanced := advance(w.projectileList);
    TickResult(WorldState(w.players, advanced), WorldState(w.players, advanced.(removeNumber := 0)))
  }
}
