/** The shared world the socket handlers and the broadcast timer of the
    web server update in place, one handler at a time. */
module WebServer {
  import opened GameState

  class World {
    /** The bounds and speed multiplier, fixed for the life of the process. */
    const config: Config
    var players: seq<Player>
    var projectileList: ProjectileList

    /** The abstract value of the shared world. */
    function State(): WorldState
      reads this
    {
      WorldState(players, projectileList)
    }

    /** The object library's initial players and projectile list, which
        this model takes as given. */
    constructor (config: Config, initial: WorldState)
      ensures this.config == config
      ensures State() == initial
    {
      this.config := config;
      players := initial.players;
      projectileList := initial.projectileList;
    }

    /** `onStart`: append the player the object library created. */
    method OnStart(created: Player)
      modifies this
      ensures State() == StartPlayer(old(State()), created)
    {
      players := players + [created];
    }

    /** `newPlayer`: stamp the player with the current count and append it;
        the id is what the handler sends back. */
    method NewPlayer(player: Player) returns (id: int)
      modifies this
      ensures id == old(|players|)
      ensures Registration(id, State()) == RegisterPlayer(old(State()), player)
    {
      var p := player.(id := |players|);
      players := players + [p];
      id := p.id;
    }

    /** `move`: store the optional projectile first, then, when there are
        players and the intent carries an id, update that player's record
        axis by axis. */
    method Move(intent: Intent, newProjectile: Option<Projectile>) returns (outcome: MoveOutcome)
      modifies this
      ensures MoveResult(outcome, State()) == ApplyMove(old(State()), config, intent, newProjectile)
    {
      if newProjectile.Some? {
        projectileList := projectileList.(projectiles := projectileList.projectiles + [newProjectile.value]);
      }
      if |players| > 0 && intent.id.Some? {
        var id := intent.id.value;
        if !(0 <= id < |players|) {
          // players[id] is undefined and reading its width throws
          return Threw;
        }
        var record := players[id];
        var xMaxBarrier := config.maxX - record.width;
        var yMaxBarrier := config.maxY - record.width;
        record := record.(id := id);
        if intent.yVel.Some? {
          if record.yPos >= config.minY && record.yPos <= yMaxBarrier {
            record := record.(yPos := record.yPos - intent.yVel.value * config.speedMultiplier);
          } else if record.yPos < config.minY {
            record := record.(yPos := config.minY);
          } else if record.yPos > yMaxBarrier {
            record := record.(yPos := yMaxBarrier);
          }
        }
        if intent.xVel.Some? {
          if record.xPos >= config.minX && record.xPos <= xMaxBarrier {
            record := record.(xPos := record.xPos - intent.xVel.value * config.speedMultiplier);
          } else if record.xPos < config.minX {
            record := record.(xPos := config.minX);
          } else if record.xPos > xMaxBarrier {
            record := record.(xPos := xMaxBarrier);
          }
        }
        record := record.(style := StyleOf(record.xPos, record.yPos, record.width));
        assert record == MovedPlayer(old(players)[id], id, intent, config);
        players := players[id := record];
        outcome := Moved;
      } else {
        outcome := Skipped;
      }
    }

    /** One firing of the 20 ms broadcast timer; `advance` stands for the
        object library's projectile update, and `frame` is what is
        serialised and sent to every client. */
    method Tick(advance: ProjectileList -> ProjectileList) returns (frame: WorldState)
      modifies this
      ensures TickResult(frame, State()) == BroadcastTick(old(State()), advance)
    {
      projectileList := advance(projectileList);
      frame := WorldState(players, projectileList);
      projectileList := projectileList.(removeNumber := 0);
    }
  }
}
