// The whole game state as a value, one tick of the update, one key press,
// and runs of interleaved key presses and frames.
module World {
  import opened Geometry
  import opened Subsequences
  import opened Motion
  import opened Collisions

  /** Elapsed time (ms) after which an enemy, resp. a power-up, is spawned. */
  const EnemyInterval: real := 2000.0
  const PowerUpInterval: real := 3000.0
  /** Spawned sprites appear within this distance beyond the right edge. */
  const SpawnSpread: real := 300.0
  const FireballSpeed: real := 5.0

  const StartPlayer: Sprite := Sprite(StartX, GroundY, 30.0, 30.0, 0.0, 0.0)
  /** The flag pole has no velocity in the component; it never moves. */
  const FlagPole: Sprite := Sprite(2000.0, GroundY - 80.0, 20.0, 80.0, 0.0, 0.0)

  datatype State = State(
    player: Sprite,
    enemies: seq<Sprite>,
    powerUps: seq<Sprite>,
    fireballs: seq<Sprite>,
    flagPole: Sprite,
    enemyTimer: real,
    powerUpTimer: real,
    flagReached: bool)

  const Initial: State := State(StartPlayer, [], [], [], FlagPole, 0.0, 0.0, false)

  // ------------------------------------------------------------- spawning

  /**
   * r stands for the value of the host's uniform random draw, in [0, 1).
   * The strict upper bound on x holds in the reals; in double precision
   * 800 + r * 300 can round up to exactly 1100.
   */
  function NewEnemy(r: real): (e: Sprite)
    requires 0.0 <= r < 1.0
    ensures CanvasWidth <= e.x < CanvasWidth + SpawnSpread
    ensures e.y == GroundY && e.width == 30.0 && e.height == 30.0
    ensures e.vx == -MoveSpeed && e.vy == 0.0
  {
    Sprite(CanvasWidth + r * SpawnSpread, GroundY, 30.0, 30.0, -MoveSpeed, 0.0)
  }

  function NewPowerUp(r: real): (q: Sprite)
    requires 0.0 <= r < 1.0
    ensures CanvasWidth <= q.x < CanvasWidth + SpawnSpread
    ensures q.y == GroundY - 60.0 && q.width == 20.0 && q.height == 20.0
    ensures q.vx == -MoveSpeed && q.vy == 0.0
  {
    Sprite(CanvasWidth + r * SpawnSpread, GroundY - 60.0, 20.0, 20.0, -MoveSpeed, 0.0)
  }

  /** A spawn timer after one tick, and whether it fired. */
  datatype Timer = Timer(elapsed: real, fired: bool)

  function Accumulate(t: real, dt: real, threshold: real): (r: Timer)
    requires threshold >= 0.0
    ensures r.elapsed <= threshold
    ensures r.fired <==> t + dt > threshold
    ensures r.fired ==> r.elapsed == 0.0
    ensures !r.fired ==> r.elapsed == t + dt
  {
    if t + dt > threshold then Timer(0.0, true) else Timer(t + dt, false)
  }

  // ------------------------------------------------------------- the flag

  datatype Latch = Latch(reached: bool, signal: bool)

  /** The one-shot level-complete latch. */
  function FlagLatch(reached: bool, p: Sprite, flag: Sprite): (l: Latch)
    ensures l.reached == (reached || l.signal)
    ensures l.signal ==> !reached
    ensures l.signal <==> !reached && RectIntersect(p, flag)
  {
    if !reached && RectIntersect(p, flag) then Latch(true, true) else Latch(reached, false)
  }

  // ------------------------------------------------------------- keyboard

  predicate IsJumpKey(code: string)
  {
    code == "Space" || code == "ArrowUp"
  }

  /** A fireball leaves the player's right edge at mid height, moving right. */
  function FireballFrom(p: Sprite): Sprite
  {
    Sprite(p.x + p.width, p.y + p.height / 2.0, 20.0, 20.0, FireballSpeed, 0.0)
  }

  /** The effect of one key-down event. */
  function KeyDown(s: State, code: string): (t: State)
    ensures t.enemies == s.enemies && t.powerUps == s.powerUps && t.flagPole == s.flagPole
    ensures t.enemyTimer == s.enemyTimer && t.powerUpTimer == s.powerUpTimer
    ensures t.flagReached == s.flagReached
  {
    var player := if IsJumpKey(code) && s.player.y >= GroundY then s.player.(vy := JumpStrength) else s.player;
    var fireballs := if code == "KeyF" then s.fireballs + [FireballFrom(player)] else s.fireballs;
    s.(player := player, fireballs := fireballs)
  }

  /** A jump key only changes the vertical velocity, and only on the ground. */
  lemma JumpOnlyFromGround(s: State, code: string)
    requires IsJumpKey(code)
    ensures s.player.y >= GroundY ==> KeyDown(s, code) == s.(player := s.player.(vy := -12.0))
    ensures s.player.y < GroundY ==> KeyDown(s, code) == s
  {
  }

  /** The fire key appends exactly one fireball and changes nothing else. */
  lemma FireAppendsOneFireball(s: State)
    ensures var t := KeyDown(s, "KeyF");
      t == s.(fireballs := s.fireballs + [t.fireballs[|s.fireballs|]]) &&
      t.fireballs[|s.fireballs|] ==
        Sprite(s.player.x + s.player.width, s.player.y + s.player.height / 2.0, 20.0, 20.0, 5.0, 0.0)
  {
  }

  lemma OtherKeysIgnored(s: State, code: string)
    requires !IsJumpKey(code) && code != "KeyF"
    ensures KeyDown(s, code) == s
  {
  }

  // ------------------------------------------------------------- a tick

  datatype Outcome = Outcome(state: State, levelComplete: bool)

  /** The first part of a tick: gravity, scrolling and the three collision passes, in that order. */
  function Advance(s: State): State
  {
    var stomped := EnemyPass(Fall(s.player), ScrollAll(s.enemies));
    var collected := PowerUpPass(stomped.player, ScrollAll(s.powerUps));
    var volley := FireballPass(ScrollAll(s.fireballs), stomped.kept);
    s.(player := collected.player, enemies := volley.enemies, powerUps := collected.kept,
       fireballs := volley.fireballs)
  }

  /** One call of the update: Advance, then the flag latch and the two spawn timers. */
  function Tick(s: State, dt: real, rEnemy: real, rPowerUp: real): Outcome
    requires 0.0 <= rEnemy < 1.0 && 0.0 <= rPowerUp < 1.0
  {
    var m := Advance(s);
    var latch := FlagLatch(m.flagReached, m.player, m.flagPole);
    var et := Accumulate(m.enemyTimer, dt, EnemyInterval);
    var pt := Accumulate(m.powerUpTimer, dt, PowerUpInterval);
    Outcome(
      m.(enemies := m.enemies + (if et.fired then [NewEnemy(rEnemy)] else []),
         powerUps := m.powerUps + (if pt.fired then [NewPowerUp(rPowerUp)] else []),
         enemyTimer := et.elapsed,
         powerUpTimer := pt.elapsed,
         flagReached := latch.reached),
      latch.signal)
  }

  /** After every tick the player is at or above the ground, whatever the state before. */
  lemma TickKeepsPlayerAboveGround(s: State, dt: real, rEnemy: real, rPowerUp: real)
    requires 0.0 <= rEnemy < 1.0 && 0.0 <= rPowerUp < 1.0
    ensures Tick(s, dt, rEnemy, rPowerUp).state.player.y <= GroundY
  {
    var player := Fall(s.player);
    var stomped := EnemyPass(player, ScrollAll(s.enemies));
    EnemyPassMovesPlayer(player, ScrollAll(s.enemies));
    PowerUpPassIsOrderFree(stomped.player, ScrollAll(s.powerUps));
  }

  /** Spawn timers stay below their thresholds and reset exactly when they exceed them. */
  lemma TickTimers(s: State, dt: real, rEnemy: real, rPowerUp: real)
    requires 0.0 <= rEnemy < 1.0 && 0.0 <= rPowerUp < 1.0
    ensures var t := Tick(s, dt, rEnemy, rPowerUp).state;
      t.enemyTimer <= EnemyInterval && t.powerUpTimer <= PowerUpInterval &&
      (t.enemyTimer == 0.0 <== s.enemyTimer + dt > EnemyInterval) &&
      (t.enemyTimer == s.enemyTimer + dt <== s.enemyTimer + dt <= EnemyInterval) &&
      (t.powerUpTimer == 0.0 <== s.powerUpTimer + dt > PowerUpInterval) &&
      (t.powerUpTimer == s.powerUpTimer + dt <== s.powerUpTimer + dt <= PowerUpInterval)
  {
  }

  /** A tick adds at most one enemy and one power-up, and never adds a fireball. */
  lemma TickSpawnsAtMostOne(s: State, dt: real, rEnemy: real, rPowerUp: real)
    requires 0.0 <= rEnemy < 1.0 && 0.0 <= rPowerUp < 1.0
    ensures var t := Tick(s, dt, rEnemy, rPowerUp).state;
      |t.enemies| <= |s.enemies| + 1 && |t.powerUps| <= |s.powerUps| + 1 && |t.fireballs| <= |s.fireballs|
  {
    var player := Fall(s.player);
    var enemies, powerUps, fireballs := ScrollAll(s.enemies), ScrollAll(s.powerUps), ScrollAll(s.fireballs);
    var stomped := EnemyPass(player, enemies);
    EnemyPassKeepsOrder(player, enemies);
    SubsequenceMembers(stomped.kept, enemies);
    PowerUpPassIsOrderFree(stomped.player, powerUps);
    UncollectedIsFilter(stomped.player, powerUps);
    SubsequenceMembers(Uncollected(stomped.player, powerUps), powerUps);
    FireballPassShrinks(fireballs, stomped.kept);
    SubsequenceMembers(FireballPass(fireballs, stomped.kept).fireballs, fireballs);
  }

  /** Nothing that has left the screen survives a tick. */
  predicate OnScreen(s: State)
  {
    (forall e :: e in s.enemies ==> e.x + e.width >= 0.0) &&
    (forall q :: q in s.powerUps ==> q.x + q.width >= 0.0) &&
    (forall f :: f in s.fireballs ==> f.x <= CanvasWidth)
  }

  lemma TickCulls(s: State, dt: real, rEnemy: real, rPowerUp: real)
    requires 0.0 <= rEnemy < 1.0 && 0.0 <= rPowerUp < 1.0
    ensures OnScreen(Tick(s, dt, rEnemy, rPowerUp).state)
  {
    var player := Fall(s.player);
    var enemies, powerUps, fireballs := ScrollAll(s.enemies), ScrollAll(s.powerUps), ScrollAll(s.fireballs);
    var stomped := EnemyPass(player, enemies);
    EnemyPassCulls(player, enemies);
    PowerUpPassIsOrderFree(stomped.player, powerUps);
    UncollectedIsFilter(stomped.player, powerUps);
    FireballPassShrinks(fireballs, stomped.kept);
  }

  // ------------------------------------------------------------- invariant

  /** What holds of every state the game reaches from its initial state. */
  predicate Invariant(s: State)
  {
    s.player.y <= GroundY &&
    s.player.x == StartX && s.player.width == 30.0 && s.player.height == 30.0 &&
    s.flagPole == FlagPole &&
    s.enemyTimer <= EnemyInterval && s.powerUpTimer <= PowerUpInterval &&
    OnScreen(s)
  }

  lemma InitialInvariant()
    ensures Invariant(Initial)
  {
  }

  lemma KeyDownPreservesInvariant(s: State, code: string)
    requires Invariant(s)
    ensures Invariant(KeyDown(s, code))
  {
  }

  /**
   * The player only ever moves vertically or back to x = 50, and the flag pole
   * never moves, so from a reachable state a tick never signals completion.
   */
  lemma TickPreservesInvariant(s: State, dt: real, rEnemy: real, rPowerUp: real)
    requires 0.0 <= rEnemy < 1.0 && 0.0 <= rPowerUp < 1.0
    requires Invariant(s)
    ensures Invariant(Tick(s, dt, rEnemy, rPowerUp).state)
    ensures !Tick(s, dt, rEnemy, rPowerUp).levelComplete
  {
    var player := Fall(s.player);
    var stomped := EnemyPass(player, ScrollAll(s.enemies));
    EnemyPassMovesPlayer(player, ScrollAll(s.enemies));
    PowerUpPassIsOrderFree(stomped.player, ScrollAll(s.powerUps));
    TickKeepsPlayerAboveGround(s, dt, rEnemy, rPowerUp);
    TickCulls(s, dt, rEnemy, rPowerUp);
  }

  /** The guarantees of one tick, gathered for the imperative update. */
  lemma TickGuarantees(s: State, dt: real, rEnemy: real, rPowerUp: real)
    requires 0.0 <= rEnemy < 1.0 && 0.0 <= rPowerUp < 1.0
    ensures var o := Tick(s, dt, rEnemy, rPowerUp);
      o.state.player.y <= GroundY &&
      o.state.enemyTimer <= EnemyInterval && o.state.powerUpTimer <= PowerUpInterval &&
      OnScreen(o.state) &&
      (Invariant(s) ==> Invariant(o.state) && !o.levelComplete)
  {
    TickKeepsPlayerAboveGround(s, dt, rEnemy, rPowerUp);
    TickTimers(s, dt, rEnemy, rPowerUp);
    TickCulls(s, dt, rEnemy, rPowerUp);
    if Invariant(s) {
      TickPreservesInvariant(s, dt, rEnemy, rPowerUp);
    }
  }

  // ------------------------------------------------------------- runs

  /** Events the host delivers: key-down events and animation frames. */
  datatype Event = KeyPress(code: string) | Frame(dt: real, rEnemy: real, rPowerUp: real)

  predicate ValidEvent(ev: Event)
  {
    ev.Frame? ==> 0.0 <= ev.rEnemy < 1.0 && 0.0 <= ev.rPowerUp < 1.0
  }

  datatype RunResult = RunResult(state: State, signals: nat)

  /** The state after a run of events, and how many times level completion was signalled. */
  function Run(s: State, evs: seq<Event>): RunResult
    requires forall i :: 0 <= i < |evs| ==> ValidEvent(evs[i])
    decreases |evs|
  {
    if evs == [] then RunResult(s, 0)
    else
      assert ValidEvent(evs[0]);
      match evs[0]
      case KeyPress(code) => Run(KeyDown(s, code), evs[1..])
      case Frame(dt, rEnemy, rPowerUp) =>
        var o := Tick(s, dt, rEnemy, rPowerUp);
        var rest := Run(o.state, evs[1..]);
        RunResult(rest.state, rest.signals + if o.levelComplete then 1 else 0)
  }

  /** The level-complete signal fires at most once, and never once the flag was reached. */
  lemma {:induction false} SignalsAtMostOnce(s: State, evs: seq<Event>)
    requires forall i :: 0 <= i < |evs| ==> ValidEvent(evs[i])
    ensures Run(s, evs).signals <= if s.flagReached then 0 else 1
    ensures s.flagReached ==> Run(s, evs).state.flagReached
    decreases |evs|
  {
    if evs != [] {
      assert ValidEvent(evs[0]);
      match evs[0]
      case KeyPress(code) =>
        SignalsAtMostOnce(KeyDown(s, code), evs[1..]);
      case Frame(dt, rEnemy, rPowerUp) =>
        SignalsAtMostOnce(Tick(s, dt, rEnemy, rPowerUp).state, evs[1..]);
    }
  }

  /** From a reachable state, such as the initial one, the signal never fires. */
  lemma {:induction false} ReachableRunsNeverComplete(s: State, evs: seq<Event>)
    requires Invariant(s)
    requires forall i :: 0 <= i < |evs| ==> ValidEvent(evs[i])
    ensures Invariant(Run(s, evs).state)
    ensures Run(s, evs).signals == 0
    decreases |evs|
  {
    if evs != [] {
      assert ValidEvent(evs[0]);
      match evs[0]
      case KeyPress(code) =>
        KeyDownPreservesInvariant(s, code);
        ReachableRunsNeverComplete(KeyDown(s, code), evs[1..]);
      case Frame(dt, rEnemy, rPowerUp) =>
        TickPreservesInvariant(s, dt, rEnemy, rPowerUp);
        ReachableRunsNeverComplete(Tick(s, dt, rEnemy, rPowerUp).state, evs[1..]);
    }
  }
}
