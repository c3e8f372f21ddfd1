// The game component's mutable state and its operations: the keyboard
// handler, the two spawners and the per-tick update, written as game.tsx
// writes them (field updates, in-place scrolling, filters as loops) and
// proved equal to the value-level model in World.
module Platformer {
  import opened Geometry
  import opened Motion
  import opened Collisions
  import opened World

  class Game {
    var player: Sprite
    var enemies: seq<Sprite>
    var powerUps: seq<Sprite>
    var fireballs: seq<Sprite>
    const flagPole: Sprite
    var enemyTimer: real
    var powerUpTimer: real
    var flagReached: bool

    /** The game state as a value. */
    function Snapshot(): State
      reads this
    {
      State(player, enemies, powerUps, fireballs, flagPole, enemyTimer, powerUpTimer, flagReached)
    }

    /** The invariant of every state the game reaches from its start. */
    ghost predicate Reachable()
      reads this
    {
      Invariant(Snapshot())
    }

    constructor ()
      ensures Snapshot() == Initial
      ensures Reachable()
    {
      player := Sprite(50.0, GroundY, 30.0, 30.0, 0.0, 0.0);
      enemies, powerUps, fireballs := [], [], [];
      flagPole := Sprite(2000.0, GroundY - 80.0, 20.0, 80.0, 0.0, 0.0);
      enemyTimer, powerUpTimer := 0.0, 0.0;
      flagReached := false;
    }

    method SpawnEnemy(r: real)
      requires 0.0 <= r < 1.0
      modifies this`enemies
      ensures enemies == old(enemies) + [NewEnemy(r)]
    {
      enemies := enemies + [Sprite(CanvasWidth + r * 300.0, GroundY, 30.0, 30.0, -MoveSpeed, 0.0)];
    }

    method SpawnPowerUp(r: real)
      requires 0.0 <= r < 1.0
      modifies this`powerUps
      ensures powerUps == old(powerUps) + [NewPowerUp(r)]
    {
      powerUps := powerUps + [Sprite(CanvasWidth + r * 300.0, GroundY - 60.0, 20.0, 20.0, -MoveSpeed, 0.0)];
    }

    method HandleKeyDown(code: string)
      modifies this`player, this`fireballs
      ensures Snapshot() == KeyDown(old(Snapshot()), code)
      ensures old(Reachable()) ==> Reachable()
    {
      if code == "Space" || code == "ArrowUp" {
        if player.y >= GroundY {
          player := player.(vy := JumpStrength);
        }
      }
      if code == "KeyF" {
        fireballs := fireballs + [Sprite(player.x + player.width, player.y + player.height / 2.0, 20.0, 20.0, 5.0, 0.0)];
      }
      if old(Reachable()) {
        KeyDownPreservesInvariant(old(Snapshot()), code);
      }
    }

    /** Player physics: gravity, integration and the ground clamp. */
    method ApplyGravity()
      modifies this`player
      ensures player == Fall(old(player))
    {
      player := player.(vy := player.vy + Gravity);
      player := player.(y := player.y + player.vy);
      if player.y > GroundY {
        player := player.(y := GroundY, vy := 0.0);
      }
    }

    /** Shifts every sprite of ss by its own horizontal velocity, in place. */
    static method ScrollEach(ss: seq<Sprite>) returns (r: seq<Sprite>)
      ensures r == ScrollAll(ss)
    {
      r := ss;
      var i := 0;
      while i < |r|
        invariant 0 <= i <= |r| == |ss|
        invariant forall j :: 0 <= j < i ==> r[j] == ss[j].(x := ss[j].x + ss[j].vx)
        invariant forall j :: i <= j < |r| ==> r[j] == ss[j]
      {
        r := r[i := r[i].(x := r[i].x + r[i].vx)];
        i := i + 1;
      }
    }

    /** The enemy filter; a stomp or a hit changes the player before the next enemy is tested. */
    method CollideEnemies()
      modifies this`player, this`enemies
      ensures Pass(player, enemies) == EnemyPass(old(player), old(enemies))
    {
      var es := enemies;
      var kept: seq<Sprite> := [];
      var i := 0;
      while i < |es|
        invariant 0 <= i <= |es|
        invariant Pass(player, kept) == EnemyPass(old(player), es[..i])
      {
        var e := es[i];
        assert es[..i + 1][..i] == es[..i];
        if e.x + e.width < 0.0 {
          // off the left edge: dropped
        } else if RectIntersect(player, e) {
          if player.y + player.height < e.y + 10.0 {
            player := player.(vy := JumpStrength / 2.0);
          } else {
            player := player.(x := 50.0, y := GroundY, vy := 0.0);
            kept := kept + [e];
          }
        } else {
          kept := kept + [e];
        }
        i := i + 1;
      }
      assert es[..|es|] == es;
      enemies := kept;
    }

    /** The power-up filter; a collected power-up gives the boosted jump impulse. */
    method CollectPowerUps()
      modifies this`player, this`powerUps
      ensures Pass(player, powerUps) == PowerUpPass(old(player), old(powerUps))
    {
      var ps := powerUps;
      var kept: seq<Sprite> := [];
      var i := 0;
      while i < |ps|
        invariant 0 <= i <= |ps|
        invariant Pass(player, kept) == PowerUpPass(old(player), ps[..i])
      {
        var q := ps[i];
        assert ps[..i + 1][..i] == ps[..i];
        if q.x + q.width < 0.0 {
        } else if RectIntersect(player, q) {
          player := player.(vy := JumpStrength * 1.5);
        } else {
          kept := kept + [q];
        }
        i := i + 1;
      }
      assert ps[..|ps|] == ps;
      powerUps := kept;
    }

    /** The enemy filter nested in the fireball filter: the enemies f misses, and whether it hit any. */
    static method Unscathed(f: Sprite, es: seq<Sprite>) returns (rest: seq<Sprite>, hit: bool)
      ensures rest == Unhit(f, es)
      ensures hit == HitsAny(f, es)
    {
      hit := false;
      rest := [];
      var j := 0;
      while j < |es|
        invariant 0 <= j <= |es|
        invariant rest == Unhit(f, es[..j])
        invariant hit == HitsAny(f, es[..j])
      {
        assert es[..j + 1] == es[..j] + [es[j]];
        UnhitSnoc(f, es[..j], es[j]);
        if RectIntersect(f, es[j]) {
          hit := true;
        } else {
          rest := rest + [es[j]];
        }
        j := j + 1;
      }
      assert es[..|es|] == es;
    }

    /** The fireball filter, with the enemy filter nested inside it. */
    method ResolveFireballs()
      modifies this`fireballs, this`enemies
      ensures Volley(fireballs, enemies) == FireballPass(old(fireballs), old(enemies))
    {
      var fs := fireballs;
      var kept: seq<Sprite> := [];
      var i := 0;
      while i < |fs|
        invariant 0 <= i <= |fs|
        invariant Volley(kept, enemies) == FireballPass(fs[..i], old(enemies))
      {
        var f := fs[i];
        assert fs[..i + 1][..i] == fs[..i];
        if f.x <= CanvasWidth {
          var rest, hit := Unscathed(f, enemies);
          enemies := rest;
          if !hit {
            kept := kept + [f];
          }
        }
        i := i + 1;
      }
      assert fs[..|fs|] == fs;
      fireballs := kept;
    }

    /** The one-shot flag latch; returns whether the level-complete signal fires now. */
    method CheckFlag() returns (signal: bool)
      modifies this`flagReached
      ensures Latch(flagReached, signal) == FlagLatch(old(flagReached), player, flagPole)
    {
      signal := false;
      if !flagReached && RectIntersect(player, flagPole) {
        flagReached := true;
        signal := true;
      }
    }

    /** Player physics, scrolling and the collision passes, in the component's order. */
    method Advance()
      modifies this`player, this`enemies, this`powerUps, this`fireballs
      ensures Snapshot() == World.Advance(old(Snapshot()))
    {
      ghost var s0 := Snapshot();
      ApplyGravity();
      enemies := ScrollEach(enemies);
      powerUps := ScrollEach(powerUps);
      fireballs := ScrollEach(fireballs);
      CollideEnemies();
      ghost var stomped := EnemyPass(Fall(s0.player), ScrollAll(s0.enemies));
      assert player == stomped.player && enemies == stomped.kept;
      CollectPowerUps();
      ResolveFireballs();
    }

    /** The two spawn-timer accumulators; each spawns one sprite and resets when it passes its threshold. */
    method RunSpawnTimers(dt: real, rEnemy: real, rPowerUp: real)
      requires 0.0 <= rEnemy < 1.0 && 0.0 <= rPowerUp < 1.0
      modifies this`enemies, this`powerUps, this`enemyTimer, this`powerUpTimer
      ensures var et, pt := Accumulate(old(enemyTimer), dt, EnemyInterval), Accumulate(old(powerUpTimer), dt, PowerUpInterval);
        enemyTimer == et.elapsed && powerUpTimer == pt.elapsed &&
        enemies == old(enemies) + (if et.fired then [NewEnemy(rEnemy)] else []) &&
        powerUps == old(powerUps) + (if pt.fired then [NewPowerUp(rPowerUp)] else [])
    {
      enemyTimer := enemyTimer + dt;
      if enemyTimer > 2000.0 {
        SpawnEnemy(rEnemy);
        enemyTimer := 0.0;
      }
      powerUpTimer := powerUpTimer + dt;
      if powerUpTimer > 3000.0 {
        SpawnPowerUp(rPowerUp);
        powerUpTimer := 0.0;
      }
    }

    /** One tick; rEnemy and rPowerUp stand for the two random draws of the spawners. */
    method Update(dt: real, rEnemy: real, rPowerUp: real) returns (levelComplete: bool)
      requires 0.0 <= rEnemy < 1.0 && 0.0 <= rPowerUp < 1.0
      modifies this
      ensures Outcome(Snapshot(), levelComplete) == Tick(old(Snapshot()), dt, rEnemy, rPowerUp)
      ensures player.y <= GroundY
      ensures enemyTimer <= EnemyInterval && powerUpTimer <= PowerUpInterval
      ensures OnScreen(Snapshot())
      ensures old(Reachable()) ==> Reachable() && !levelComplete
    {
      ghost var s0 := Snapshot();
      Advance();
      levelComplete := CheckFlag();
      RunSpawnTimers(dt, rEnemy, rPowerUp);
      TickGuarantees(s0, dt, rEnemy, rPowerUp);
    }
  }
}
