/**
 * The game orchestrator of game.js: the per-frame rules of Game.update in
 * their fixed order, the state machine and the Escape toggle.
 */
module Games {
  import opened Utils
  import opened Entities
  import Players
  import Enemies
  import Levels
  import Cameras

  /** The game's state string: 'menu', 'playing', 'paused', 'gameover', 'levelcomplete'. */
  datatype Phase = Menu | Playing | Paused | Gameover | Levelcomplete

  const VIEW_WIDTH: real := 1200.0
  const VIEW_HEIGHT: real := 600.0
  const START_TIME: int := 300
  /** One second of countdown, in milliseconds. */
  const TICK_MS: real := 1000.0
  /** gameLoop caps a frame's delta at 100 ms. */
  const MAX_FRAME_MS: real := 100.0
  const COIN_POINTS: int := 10
  const CRYSTAL_POINTS: int := 50
  const STOMP_POINTS: int := 20
  /** A stomp bounces the player up at this vertical speed. */
  const STOMP_BOUNCE: real := -10.0
  /** The player has fallen off once 100 below the level's bottom edge. */
  const FALL_MARGIN: real := 100.0
  /** levelComplete: ten points per remaining second. */
  const TIME_BONUS: int := 10
  const FIRST_LEVEL: string := "world1_level1"

  datatype GameState = GameState(phase: Phase, score: int, timeRemaining: int, timeAccumulator: real,
                                 player: Players.PlayerState, level: Levels.LevelState,
                                 camera: Cameras.CameraState)

  // ---------------------------------------------------------------------
  // The countdown

  /** The frame's time has run out: a tick is due and it takes the last second. */
  predicate TimeUp(g: GameState, dt: real)
  {
    g.timeAccumulator + dt >= TICK_MS && g.timeRemaining - 1 <= 0
  }

  /**
   * The 1000 ms accumulator: it grows by the frame's delta; on reaching a
   * second it resets and one second is taken off; at zero the game is over.
   */
  function Countdown(g: GameState, dt: real): (r: GameState)
    ensures r == g.(timeRemaining := r.timeRemaining, timeAccumulator := r.timeAccumulator, phase := r.phase)
    ensures g.timeAccumulator + dt < TICK_MS ==>
      r.timeAccumulator == g.timeAccumulator + dt && r.timeRemaining == g.timeRemaining && r.phase == g.phase
    ensures g.timeAccumulator + dt >= TICK_MS ==> r.timeAccumulator == 0.0 && r.timeRemaining == g.timeRemaining - 1
    ensures r.phase == (if TimeUp(g, dt) then Gameover else g.phase)
  {
    var acc := g.timeAccumulator + dt;
    if acc >= TICK_MS then
      var t := g.timeRemaining - 1;
      g.(timeRemaining := t, timeAccumulator := 0.0, phase := if t <= 0 then Gameover else g.phase)
    else g.(timeAccumulator := acc)
  }

  /** With non-negative deltas the accumulator stays within one second. */
  lemma CountdownKeepsAccumulatorBelowTick(g: GameState, dt: real)
    requires 0.0 <= g.timeAccumulator < TICK_MS && 0.0 <= dt
    ensures 0.0 <= Countdown(g, dt).timeAccumulator < TICK_MS
  {
  }

  // ---------------------------------------------------------------------
  // Coins

  /** An active pickup whose bounds overlap the player's. */
  predicate Touches(player: Body, b: Body)
  {
    b.active && CheckCollision(Bounds(player), Bounds(b))
  }

  datatype CoinSweep = CoinSweep(coins: seq<CoinState>, player: Players.PlayerState, score: int)

  /** One coin of the forEach: collect it if it is active and touched. */
  function CoinStep(r: CoinSweep, c: CoinState): CoinSweep
  {
    if Touches(r.player.body, c.body)
    then CoinSweep(r.coins + [CollectCoin(c)], Players.CollectCoinSpec(r.player), r.score + COIN_POINTS)
    else CoinSweep(r.coins + [c], r.player, r.score)
  }

  /** How many coins of a list the player touches. */
  function TouchedCoins(cs: seq<CoinState>, player: Body): (n: nat)
    ensures n <= |cs|
  {
    if |cs| == 0 then 0
    else TouchedCoins(cs[..|cs| - 1], player) + (if Touches(player, cs[|cs| - 1].body) then 1 else 0)
  }

  /**
   * The coin loop of Game.update: every touched coin is collected, counted
   * for the player and worth 10 points; the player does not move.
   */
  function SweepCoins(cs: seq<CoinState>, p: Players.PlayerState, score: int): (r: CoinSweep)
    ensures |r.coins| == |cs|
    ensures r.player.body == p.body
    decreases |cs|
  {
    if |cs| == 0 then CoinSweep([], p, score)
    else CoinStep(SweepCoins(cs[..|cs| - 1], p, score), cs[|cs| - 1])
  }

  /** Collecting coins changes only the player's coin count and lives. */
  lemma {:induction false} CollectCoinsKeepsBody(p: Players.PlayerState, n: nat)
    ensures Players.CollectCoins(p, n) == p.(coins := p.coins + n, lives := Players.CollectCoins(p, n).lives)
  {
    if n > 0 {
      CollectCoinsKeepsBody(p, n - 1);
    }
  }

  /**
   * The sweep's totals: the player gains one coin per touched coin (with
   * the extra lives that brings) and the score 10 per touched coin.
   */
  lemma {:induction false} SweepCoinsTotals(cs: seq<CoinState>, p: Players.PlayerState, score: int)
    ensures SweepCoins(cs, p, score).player == Players.CollectCoins(p, TouchedCoins(cs, p.body))
    ensures SweepCoins(cs, p, score).score == score + COIN_POINTS * TouchedCoins(cs, p.body)
    decreases |cs|
  {
    if |cs| > 0 {
      var front := cs[..|cs| - 1];
      SweepCoinsTotals(front, p, score);
      CollectCoinsKeepsBody(p, TouchedCoins(front, p.body));
    }
  }

  /** Coin by coin: a touched coin is collected, any other coin is left as it was. */
  lemma {:induction false} SweepCoinsAt(cs: seq<CoinState>, p: Players.PlayerState, score: int, i: int)
    requires 0 <= i < |cs|
    ensures SweepCoins(cs, p, score).coins[i] == CoinAfter(cs[i], p.body)
    decreases |cs|
  {
    if i < |cs| - 1 {
      SweepCoinsAt(cs[..|cs| - 1], p, score, i);
    }
  }

  lemma TouchedCoinsSnoc(cs: seq<CoinState>, i: int, player: Body)
    requires 0 <= i < |cs|
    ensures TouchedCoins(cs[..i + 1], player) == TouchedCoins(cs[..i], player) + (if Touches(player, cs[i].body) then 1 else 0)
  {
    assert cs[..i + 1][..i] == cs[..i];
  }

  lemma {:induction false} NoCoinTouched(cs: seq<CoinState>, player: Body)
    requires forall i :: 0 <= i < |cs| ==> !Touches(player, cs[i].body)
    ensures TouchedCoins(cs, player) == 0
    decreases |cs|
  {
    if |cs| > 0 {
      NoCoinTouched(cs[..|cs| - 1], player);
    }
  }

  /** Each coin is collected at most once: a second sweep by the same player collects nothing. */
  lemma SweepCollectsEachCoinOnce(cs: seq<CoinState>, p: Players.PlayerState, score: int)
    ensures TouchedCoins(SweepCoins(cs, p, score).coins, p.body) == 0
  {
    var r := SweepCoins(cs, p, score);
    forall i | 0 <= i < |r.coins| ensures !Touches(p.body, r.coins[i].body) {
      SweepCoinsAt(cs, p, score, i);
    }
    NoCoinTouched(r.coins, p.body);
  }

  // ---------------------------------------------------------------------
  // Crystals

  datatype CrystalSweep = CrystalSweep(crystals: seq<CrystalState>, score: int)

  function CrystalStep(r: CrystalSweep, c: CrystalState, player: Body): CrystalSweep
  {
    if Touches(player, c.body)
    then CrystalSweep(r.crystals + [CollectCrystal(c)], r.score + CRYSTAL_POINTS)
    else CrystalSweep(r.crystals + [c], r.score)
  }

  function TouchedCrystals(cs: seq<CrystalState>, player: Body): (n: nat)
    ensures n <= |cs|
  {
    if |cs| == 0 then 0
    else TouchedCrystals(cs[..|cs| - 1], player) + (if Touches(player, cs[|cs| - 1].body) then 1 else 0)
  }

  /** The crystal loop of Game.update: every touched crystal is collected and worth 50 points. */
  function SweepCrystals(cs: seq<CrystalState>, player: Body, score: int): (r: CrystalSweep)
    ensures |r.crystals| == |cs|
    decreases |cs|
  {
    if |cs| == 0 then CrystalSweep([], score)
    else CrystalStep(SweepCrystals(cs[..|cs| - 1], player, score), cs[|cs| - 1], player)
  }

  /** Every touched crystal is worth 50 points. */
  lemma {:induction false} SweepCrystalsScore(cs: seq<CrystalState>, player: Body, score: int)
    ensures SweepCrystals(cs, player, score).score == score + CRYSTAL_POINTS * TouchedCrystals(cs, player)
    decreases |cs|
  {
    if |cs| > 0 {
      SweepCrystalsScore(cs[..|cs| - 1], player, score);
    }
  }

  lemma {:induction false} SweepCrystalsAt(cs: seq<CrystalState>, player: Body, score: int, i: int)
    requires 0 <= i < |cs|
    ensures SweepCrystals(cs, player, score).crystals[i] == CrystalAfter(cs[i], player)
    decreases |cs|
  {
    if i < |cs| - 1 {
      SweepCrystalsAt(cs[..|cs| - 1], player, score, i);
    }
  }

  // ---------------------------------------------------------------------
  // Enemies

  datatype EnemySweep = EnemySweep(enemies: seq<Enemies.EnemyState>, player: Players.PlayerState, score: int, phase: Phase)

  /** What one enemy of the forEach leaves behind. */
  datatype Meeting = Meeting(enemy: Enemies.EnemyState, player: Players.PlayerState, score: int, phase: Phase)

  /**
   * One enemy of the forEach: a stomp damages the enemy, bounces the player
   * and scores 20; a hit damages the player and a fatal one sets gameover,
   * while the loop carries on.
   */
  function Meet(e: Enemies.EnemyState, p: Players.PlayerState, score: int, phase: Phase): Meeting
  {
    match Enemies.CheckPlayerCollision(e, p)
    case None => Meeting(e, p, score, phase)
    case Some(Stomp) =>
      Meeting(Enemies.EnemyTakeDamage(e).0, p.(body := p.body.(vy := STOMP_BOUNCE)), score + STOMP_POINTS, phase)
    case Some(Hit) =>
      var d := Players.TakeDamageSpec(p);
      Meeting(e, d.0, score, if d.1 then Gameover else phase)
  }

  function EnemyStep(r: EnemySweep, e: Enemies.EnemyState): EnemySweep
  {
    var m := Meet(e, r.player, r.score, r.phase);
    EnemySweep(r.enemies + [m.enemy], m.player, m.score, m.phase)
  }

  /** The enemy loop of Game.update. */
  function SweepEnemies(es: seq<Enemies.EnemyState>, p: Players.PlayerState, score: int, phase: Phase): (r: EnemySweep)
    ensures |r.enemies| == |es|
    decreases |es|
  {
    if |es| == 0 then EnemySweep([], p, score, phase)
    else EnemyStep(SweepEnemies(es[..|es| - 1], p, score, phase), es[|es| - 1])
  }

  /**
   * The three outcomes of one enemy: no contact changes nothing; a stomp
   * scores 20, bounces the player up at 10 and damages the enemy, touching
   * nothing else; a hit leaves the enemy and the score alone, damages the
   * player, and ends the game exactly when that damage is fatal.
   */
  lemma MeetOutcomes(e: Enemies.EnemyState, p: Players.PlayerState, score: int, phase: Phase)
    ensures var m := Meet(e, p, score, phase);
      match Enemies.CheckPlayerCollision(e, p)
      case None => m == Meeting(e, p, score, phase)
      case Some(Stomp) =>
        m.score == score + 20 && m.phase == phase && m.enemy == Enemies.EnemyTakeDamage(e).0 &&
        m.player.body.vy == -10.0 && m.player == p.(body := p.body.(vy := m.player.body.vy))
      case Some(Hit) =>
        m.enemy == e && m.score == score && m.player == Players.TakeDamageSpec(p).0 &&
        (m.phase == Gameover <==> Players.TakeDamageSpec(p).1 || phase == Gameover) &&
        (!Players.TakeDamageSpec(p).1 ==> m.phase == phase)
  {
  }

  /** The i-th enemy of the loop meets the player, score and state the first i enemies left behind. */
  lemma {:induction false} SweepEnemiesAt(es: seq<Enemies.EnemyState>, p: Players.PlayerState, score: int, phase: Phase, i: int)
    requires 0 <= i < |es|
    ensures var before := SweepEnemies(es[..i], p, score, phase);
      SweepEnemies(es, p, score, phase).enemies[i] == Meet(es[i], before.player, before.score, before.phase).enemy
    decreases |es|
  {
    var n := |es| - 1;
    if i < n {
      SweepEnemiesAt(es[..n], p, score, phase, i);
      assert es[..n][..i] == es[..i];
      assert es[..n][i] == es[i];
    } else {
      assert es[..n] == es[..i];
    }
  }

  lemma SweepEnemiesSnoc(es: seq<Enemies.EnemyState>, i: int, p: Players.PlayerState, score: int, phase: Phase)
    requires 0 <= i < |es|
    ensures SweepEnemies(es[..i + 1], p, score, phase) == EnemyStep(SweepEnemies(es[..i], p, score, phase), es[i])
  {
    assert es[..i + 1][..i] == es[..i];
  }

  /**
   * Over the enemy loop the score only grows, the state can only turn to
   * gameover, and at most one life is lost: the first hit makes the player
   * invincible, so no later enemy of the frame touches them.
   */
  lemma {:induction false} SweepEnemiesBounds(es: seq<Enemies.EnemyState>, p: Players.PlayerState, score: int, phase: Phase)
    ensures var r := SweepEnemies(es, p, score, phase);
      r.score >= score && (r.phase == phase || r.phase == Gameover) && r.player.coins == p.coins &&
      (r.player.lives == p.lives || (r.player.lives == p.lives - 1 && r.player.invincible))
    decreases |es|
  {
    if |es| > 0 {
      SweepEnemiesBounds(es[..|es| - 1], p, score, phase);
    }
  }

  /** After a stomp, a second active enemy the player still overlaps counts as a hit, never as another stomp. */
  lemma StompThenHit(r: EnemySweep, e: Enemies.EnemyState, e2: Enemies.EnemyState)
    requires Enemies.CheckPlayerCollision(e, r.player) == Some(Enemies.Stomp)
    requires e2.body.active && CheckCollision(Bounds(r.player.body), Bounds(e2.body))
    ensures Enemies.CheckPlayerCollision(e2, EnemyStep(r, e).player) == Some(Enemies.Hit)
  {
    var p := EnemyStep(r, e).player;
    assert Bounds(p.body) == Bounds(r.player.body);
    assert !Enemies.Stomps(e2, p);
  }

  // ---------------------------------------------------------------------
  // Goal and fall

  /** checkGoalReached, then levelComplete: the state becomes levelcomplete, whatever it was, and the time bonus is added. */
  function GoalCheck(g: GameState): (r: GameState)
    ensures Levels.GoalReached(g.level, g.player.body) ==>
      r.phase == Levelcomplete && r.score == g.score + g.timeRemaining * TIME_BONUS
    ensures !Levels.GoalReached(g.level, g.player.body) ==> r == g
    ensures r == g.(phase := r.phase, score := r.score)
  {
    if Levels.GoalReached(g.level, g.player.body)
    then g.(phase := Levelcomplete, score := g.score + g.timeRemaining * TIME_BONUS)
    else g
  }

  predicate FellOff(g: GameState)
  {
    g.player.body.y > g.level.height + FALL_MARGIN
  }

  /**
   * The fall-off check: a fall costs a life; a fatal one ends the game,
   * otherwise the player is put back at the reset point. An invincible
   * player loses nothing and is only put back.
   */
  function FallCheck(g: GameState): (r: GameState)
    ensures !FellOff(g) ==> r == g
    ensures FellOff(g) && g.player.invincible ==> r == g.(player := Players.ResetSpec(g.player))
    ensures FellOff(g) && !g.player.invincible ==> r.player.lives == g.player.lives - 1
    ensures FellOff(g) && !g.player.invincible ==> r.phase == (if g.player.lives - 1 <= 0 then Gameover else g.phase)
    ensures FellOff(g) && !(g.player.lives - 1 <= 0 && !g.player.invincible) ==>
      r.player.body.x == Players.RESET_X && r.player.body.y == Players.RESET_Y
    ensures r.score == g.score && r.level == g.level && r.camera == g.camera
  {
    if FellOff(g) then
      var d := Players.TakeDamageSpec(g.player);
      if d.1 then g.(player := d.0, phase := Gameover)
      else g.(player := Players.ResetSpec(d.0))
    else g
  }

  // ---------------------------------------------------------------------
  // The whole frame

  /** player.update against the level's platforms. */
  function MovePlayer(g: GameState, dt: real, input: Players.Input): GameState
  {
    g.(player := Players.PlayerUpdate(g.player, dt, input, g.level.platforms))
  }

  /** currentLevel.update: coins spin, crystals glow, enemies patrol. */
  function MoveLevel(g: GameState, sin: real -> real): GameState
  {
    g.(level := Levels.LevelUpdate(g.level, sin))
  }

  function CoinPass(g: GameState): GameState
  {
    var c := SweepCoins(g.level.coins, g.player, g.score);
    g.(level := g.level.(coins := c.coins), player := c.player, score := c.score)
  }

  function CrystalPass(g: GameState): GameState
  {
    var k := SweepCrystals(g.level.crystals, g.player.body, g.score);
    g.(level := g.level.(crystals := k.crystals), score := k.score)
  }

  function EnemyPass(g: GameState): GameState
  {
    var e := SweepEnemies(g.level.enemies, g.player, g.score, g.phase);
    g.(level := g.level.(enemies := e.enemies), player := e.player, score := e.score, phase := e.phase)
  }

  /** camera.update, the camera following the player. */
  function FollowCamera(g: GameState): GameState
  {
    g.(camera := Cameras.CameraStep(g.camera, Some(g.player.body)))
  }

  /** The first part of a frame: the player moves, then the level's objects. */
  function Moves(g: GameState, dt: real, input: Players.Input, sin: real -> real): GameState
  {
    MoveLevel(MovePlayer(g, dt, input), sin)
  }

  /** The second part: coins, crystals and enemies meet the player, in that order. */
  function Contacts(g: GameState): GameState
  {
    EnemyPass(CrystalPass(CoinPass(g)))
  }

  /** The last part: the goal, the fall below the level, the camera. */
  function Checks(g: GameState): GameState
  {
    FollowCamera(FallCheck(GoalCheck(g)))
  }

  /** The rules of Game.update after the countdown, in the source's order. */
  function PlayFrame(g: GameState, dt: real, input: Players.Input, sin: real -> real): GameState
  {
    Checks(Contacts(Moves(g, dt, input, sin)))
  }

  /**
   * Game.update: nothing happens unless playing; the frame ends right after
   * the countdown when time runs out.
   */
  function GameUpdate(g: GameState, dt: real, input: Players.Input, sin: real -> real): (r: GameState)
    ensures g.phase != Playing ==> r == g
    ensures g.phase == Playing && TimeUp(g, dt) ==> r == Countdown(g, dt) && r.phase == Gameover
  {
    if g.phase != Playing then g
    else
      var g1 := Countdown(g, dt);
      if g1.phase == Gameover then g1 else PlayFrame(g1, dt, input, sin)
  }

  /** Within a frame the score never goes down, while there is time left. */
  lemma PlayFrameScore(g: GameState, dt: real, input: Players.Input, sin: real -> real)
    requires 0 <= g.timeRemaining
    ensures PlayFrame(g, dt, input, sin).score >= g.score
  {
    var g2 := MoveLevel(MovePlayer(g, dt, input), sin);
    SweepCoinsTotals(g2.level.coins, g2.player, g2.score);
    var g3 := CoinPass(g2);
    SweepCrystalsScore(g3.level.crystals, g3.player.body, g3.score);
    var g4 := CrystalPass(g3);
    SweepEnemiesBounds(g4.level.enemies, g4.player, g4.score, g4.phase);
  }

  /** The score never goes down over a call of update. */
  lemma ScoreNeverDecreases(g: GameState, dt: real, input: Players.Input, sin: real -> real)
    requires 0 <= g.timeRemaining
    ensures GameUpdate(g, dt, input, sin).score >= g.score
  {
    if g.phase == Playing {
      var g1 := Countdown(g, dt);
      if g1.phase != Gameover {
        PlayFrameScore(g1, dt, input, sin);
      }
    }
  }

  /**
   * A fatal hit does not end the frame: when the player then stands at the
   * goal (and does not fall), the frame ends in levelcomplete with the bonus.
   */
  lemma FatalHitThenGoal(g: GameState)
    requires g.phase == Gameover && Levels.GoalReached(g.level, g.player.body) && !FellOff(g)
    ensures FallCheck(GoalCheck(g)).phase == Levelcomplete
    ensures FallCheck(GoalCheck(g)).score == g.score + g.timeRemaining * TIME_BONUS
  {
  }

  /** A collected coin stays collected: no later frame touches it again. */
  lemma CollectedCoinStaysCollected(g: GameState, dt: real, input: Players.Input, sin: real -> real, i: int)
    requires 0 <= i < |g.level.coins| && !g.level.coins[i].body.active
    ensures i < |GameUpdate(g, dt, input, sin).level.coins|
    ensures !GameUpdate(g, dt, input, sin).level.coins[i].body.active
  {
    if g.phase == Playing {
      var g1 := Countdown(g, dt);
      if g1.phase != Gameover {
        var g2 := MoveLevel(MovePlayer(g1, dt, input), sin);
        Levels.LevelUpdateShape(g1.level, sin);
        SweepCoinsAt(g2.level.coins, g2.player, g2.score, i);
      }
    }
  }

  // ---------------------------------------------------------------------
  // Starting a run

  /**
   * startGame on a loaded level: playing, no score, the level's time limit,
   * a new player at the level's start, and the camera bounded by the level.
   */
  function StartState(level: Levels.LevelState, camera: Cameras.CameraState): GameState
  {
    GameState(Playing, 0, level.timeLimit, 0.0, Players.NewPlayerState(level.startX, level.startY), level,
              camera.(limits := Cameras.Limits(0.0, level.width, 0.0, level.height)))
  }

  /**
   * A run starts with three lives, no coins, no score and no invincibility,
   * at the level's start; when the level is at least as large as the view,
   * the first frame that does not run out of time leaves the camera inside
   * the level.
   */
  lemma StartedRun(level: Levels.LevelState, camera: Cameras.CameraState, dt: real, input: Players.Input, sin: real -> real)
    requires camera.width <= level.width && camera.height <= level.height
    ensures var g := StartState(level, camera);
      g.player.lives == Players.START_LIVES && g.player.coins == 0 && !g.player.invincible && g.score == 0 &&
      g.player.body.x == level.startX && g.player.body.y == level.startY
    ensures !TimeUp(StartState(level, camera), dt) ==>
      var r := GameUpdate(StartState(level, camera), dt, input, sin);
      0.0 <= r.camera.x <= level.width - camera.width && 0.0 <= r.camera.y <= level.height - camera.height
  {
    var g := StartState(level, camera);
    if !TimeUp(g, dt) {
      var g1 := Countdown(g, dt);
      var g2 := Contacts(Moves(g1, dt, input, sin));
      assert g2.camera == g.camera;
      var g3 := FallCheck(GoalCheck(g2));
      assert g3.camera == g.camera;
    }
  }

  // ---------------------------------------------------------------------
  // The Escape key and the frame delta

  /**
   * The Escape keydown handler with its pressed latch: only the first
   * keydown of a press toggles between playing and paused.
   */
  function EscapeDown(phase: Phase, latched: bool): (r: (Phase, bool))
    ensures latched ==> r == (phase, true)
    ensures !latched ==> r.1
    ensures !latched ==> r.0 == (if phase == Playing then Paused else if phase == Paused then Playing else phase)
  {
    if latched then (phase, true)
    else if phase == Playing then (Paused, true)
    else if phase == Paused then (Playing, true)
    else (phase, true)
  }

  /** n keydown events of one held press (auto-repeat), starting unlatched. */
  function EscapeHeld(phase: Phase, latched: bool, n: nat): (Phase, bool)
    decreases n
  {
    if n == 0 then (phase, latched)
    else var s := EscapeDown(phase, latched); EscapeHeld(s.0, s.1, n - 1)
  }

  /** Holding Escape toggles once, however many keydown events the key repeats. */
  lemma {:induction false} HeldEscapeTogglesOnce(phase: Phase, n: nat)
    requires n >= 1
    ensures EscapeHeld(phase, false, n) == EscapeDown(phase, false)
  {
    var s := EscapeDown(phase, false);
    HeldLatchIgnored(s.0, n - 1);
  }

  lemma {:induction false} HeldLatchIgnored(phase: Phase, n: nat)
    ensures EscapeHeld(phase, true, n) == (phase, true)
  {
    if n > 0 {
      HeldLatchIgnored(phase, n - 1);
    }
  }

  /** The delta gameLoop hands to update as written: the elapsed time, at most 100 ms. */
  function FrameDelta(currentTime: real, lastTime: real): (d: real)
    ensures d <= MAX_FRAME_MS
    ensures currentTime - lastTime <= MAX_FRAME_MS ==> d == currentTime - lastTime
  {
    Min(currentTime - lastTime, MAX_FRAME_MS)
  }

  /**
   * startGame and resumeGame set lastTime to the clock and then call
   * gameLoop() with no timestamp, so currentTime is 0: the first delta is
   * minus the clock reading, and the cap lets it through, so the countdown
   * accumulator goes negative by that much.
   */
  lemma FirstFrameDeltaIsNegative(g: GameState, now: real)
    requires now > 0.0 && g.timeAccumulator < TICK_MS
    ensures FrameDelta(0.0, now) == -now
    ensures Countdown(g, FrameDelta(0.0, now)).timeAccumulator == g.timeAccumulator - now
    ensures Countdown(g, FrameDelta(0.0, now)).timeAccumulator < g.timeAccumulator
  {
  }

  /** The delta with a lower bound of zero as well: never negative, never above 100 ms. */
  function ClampedFrameDelta(currentTime: real, lastTime: real): (d: real)
    ensures 0.0 <= d <= MAX_FRAME_MS
    ensures 0.0 <= currentTime - lastTime <= MAX_FRAME_MS ==> d == currentTime - lastTime
  {
    Clamp(currentTime - lastTime, 0.0, MAX_FRAME_MS)
  }

  /** With the clamped delta the countdown accumulator never decreases within a second. */
  lemma ClampedDeltaKeepsCountdownMonotone(g: GameState, currentTime: real, lastTime: real)
    requires 0.0 <= g.timeAccumulator < TICK_MS
    ensures var r := Countdown(g, ClampedFrameDelta(currentTime, lastTime));
      r.timeAccumulator >= g.timeAccumulator || (r.timeAccumulator == 0.0 && r.timeRemaining == g.timeRemaining - 1)
  {
  }

  // ---------------------------------------------------------------------
  // The three loops of update, on the objects themselves

  /** What the coin loop does to one coin. */
  function CoinAfter(c: CoinState, player: Body): (r: CoinState)
    ensures r.body.x == c.body.x && r.body.y == c.body.y
    ensures r.body.active <==> c.body.active && !Touches(player, c.body)
  {
    if Touches(player, c.body) then CollectCoin(c) else c
  }

  function CrystalAfter(c: CrystalState, player: Body): (r: CrystalState)
    ensures r.body.x == c.body.x && r.body.y == c.body.y
    ensures r.body.active <==> c.body.active && !Touches(player, c.body)
  {
    if Touches(player, c.body) then CollectCrystal(c) else c
  }

  /** Coins left as the coin loop leaves them are the sweep's coins. */
  lemma CoinLoopIsSweep(coins: seq<Coin>, cs: seq<CoinState>, p: Players.PlayerState, score: int)
    requires |coins| == |cs|
    requires forall k :: 0 <= k < |coins| ==> coins[k].Model() == CoinAfter(cs[k], p.body)
    ensures Levels.CoinModels(coins) == SweepCoins(cs, p, score).coins
  {
    var r := SweepCoins(cs, p, score);
    forall k | 0 <= k < |coins| ensures coins[k].Model() == r.coins[k] {
      SweepCoinsAt(cs, p, score, k);
    }
    Levels.CoinModelsEqual(coins, r.coins);
  }

  lemma CrystalLoopIsSweep(crystals: seq<Crystal>, ks: seq<CrystalState>, player: Body, score: int)
    requires |crystals| == |ks|
    requires forall k :: 0 <= k < |crystals| ==> crystals[k].Model() == CrystalAfter(ks[k], player)
    ensures Levels.CrystalModels(crystals) == SweepCrystals(ks, player, score).crystals
  {
    var r := SweepCrystals(ks, player, score);
    forall k | 0 <= k < |crystals| ensures crystals[k].Model() == r.crystals[k] {
      SweepCrystalsAt(ks, player, score, k);
    }
    Levels.CrystalModelsEqual(crystals, r.crystals);
  }

  /** One coin of the forEach, on the objects. */
  method TouchCoin(player: Players.Player, coin: Coin) returns (collected: bool)
    modifies player, coin
    ensures collected == Touches(old(player.body), old(coin.Model()).body)
    ensures coin.Model() == CoinAfter(old(coin.Model()), old(player.body))
    ensures player.Model() == if collected then Players.CollectCoinSpec(old(player.Model())) else old(player.Model())
  {
    collected := coin.body.active && CheckCollision(Bounds(player.body), Bounds(coin.body));
    if collected {
      coin.Collect();
      player.CollectCoin();
    }
  }

  /**
   * The coin forEach: every coin the player touches is collected, the
   * player gains one coin per collection and the score 10.
   */
  method CollectTouchedCoins(player: Players.Player, coins: seq<Coin>, score: int)
      returns (newScore: int)
    requires Distinct(coins)
    modifies player, coins
    ensures var n := TouchedCoins(old(Levels.CoinModels(coins)), old(player.body));
      player.Model() == Players.CollectCoins(old(player.Model()), n) && newScore == score + COIN_POINTS * n
    ensures forall k :: 0 <= k < |coins| ==> coins[k].Model() == CoinAfter(old(Levels.CoinModels(coins))[k], old(player.body))
  {
    ghost var cs := Levels.CoinModels(coins);
    ghost var p0 := player.Model();
    forall k | 0 <= k < |coins| ensures coins[k].Model() == cs[k] {
      Levels.CoinModelsAt(coins, k);
    }
    newScore := score;
    ghost var n := 0;
    var i := 0;
    while i < |coins|
      invariant 0 <= i <= |coins|
      invariant forall k :: 0 <= k < |coins| ==> coins[k].Model() == if k < i then CoinAfter(cs[k], p0.body) else cs[k]
      invariant n == TouchedCoins(cs[..i], p0.body)
      invariant player.Model() == Players.CollectCoins(p0, n) && player.body == p0.body
      invariant newScore == score + COIN_POINTS * n
    {
      TouchedCoinsSnoc(cs, i, p0.body);
      forall k | 0 <= k < |coins| && k != i ensures coins[k] != coins[i] {
        DistinctApart(coins, k, i);
      }
      var collected := TouchCoin(player, coins[i]);
      if collected {
        newScore := newScore + COIN_POINTS;
        n := n + 1;
      }
      i := i + 1;
    }
    assert cs[..|coins|] == cs;
  }

  /** One crystal of the forEach, on the object. */
  method TouchCrystal(player: Body, crystal: Crystal) returns (collected: bool)
    modifies crystal
    ensures collected == Touches(player, old(crystal.Model()).body)
    ensures crystal.Model() == CrystalAfter(old(crystal.Model()), player)
  {
    collected := crystal.body.active && CheckCollision(Bounds(player), Bounds(crystal.body));
    if collected {
      crystal.Collect();
    }
  }

  /** The crystal forEach: every crystal the player touches is collected, each worth 50. */
  method CollectTouchedCrystals(player: Body, crystals: seq<Crystal>, score: int)
      returns (newScore: int)
    requires Distinct(crystals)
    modifies crystals
    ensures newScore == score + CRYSTAL_POINTS * TouchedCrystals(old(Levels.CrystalModels(crystals)), player)
    ensures forall k :: 0 <= k < |crystals| ==> crystals[k].Model() == CrystalAfter(old(Levels.CrystalModels(crystals))[k], player)
  {
    ghost var ks := Levels.CrystalModels(crystals);
    forall k | 0 <= k < |crystals| ensures crystals[k].Model() == ks[k] {
      Levels.CrystalModelsAt(crystals, k);
    }
    newScore := score;
    var i := 0;
    while i < |crystals|
      invariant 0 <= i <= |crystals|
      invariant forall k :: 0 <= k < |crystals| ==> crystals[k].Model() == if k < i then CrystalAfter(ks[k], player) else ks[k]
      invariant newScore == score + CRYSTAL_POINTS * TouchedCrystals(ks[..i], player)
    {
      assert ks[..i + 1][..i] == ks[..i];
      forall k | 0 <= k < |crystals| && k != i ensures crystals[k] != crystals[i] {
        DistinctApart(crystals, k, i);
      }
      var collected := TouchCrystal(player, crystals[i]);
      if collected {
        newScore := newScore + CRYSTAL_POINTS;
      }
      i := i + 1;
    }
    assert ks[..|crystals|] == ks;
  }

  /** One enemy of the forEach, on the objects. */
  method MeetEnemy(player: Players.Player, enemy: Enemies.Enemy, score: int, phase: Phase)
      returns (newScore: int, newPhase: Phase)
    modifies player, enemy
    ensures Meeting(enemy.Model(), player.Model(), newScore, newPhase) == Meet(old(enemy.Model()), old(player.Model()), score, phase)
  {
    newScore, newPhase := score, phase;
    var contact := Enemies.CheckPlayerCollision(enemy.Model(), player.Model());
    if contact == Some(Enemies.Stomp) {
      var _ := enemy.TakeDamage();
      player.body := player.body.(vy := STOMP_BOUNCE);
      newScore := score + STOMP_POINTS;
    } else if contact == Some(Enemies.Hit) {
      var isDead := player.TakeDamage();
      if isDead {
        newPhase := Gameover;
      }
    }
  }

  /** MeetEnemy on the i-th enemy of a list: the others are left alone. */
  method MeetEnemyAt(player: Players.Player, enemies: seq<Enemies.Enemy>, i: int, score: int, phase: Phase)
      returns (newScore: int, newPhase: Phase)
    requires Distinct(enemies) && 0 <= i < |enemies|
    modifies player, enemies[i]
    ensures Meeting(enemies[i].Model(), player.Model(), newScore, newPhase) ==
      Meet(old(enemies[i].Model()), old(player.Model()), score, phase)
    ensures forall k :: 0 <= k < |enemies| && k != i ==> enemies[k].Model() == old(enemies[k].Model())
  {
    forall k | 0 <= k < |enemies| && k != i ensures enemies[k] != enemies[i] {
      DistinctApart(enemies, k, i);
    }
    newScore, newPhase := MeetEnemy(player, enemies[i], score, phase);
  }

  /**
   * The enemy forEach: each enemy in turn classifies its contact with the
   * player as it is after the enemies before it.
   */
  method MeetAllEnemies(player: Players.Player, enemies: seq<Enemies.Enemy>, score: int, phase: Phase)
      returns (newScore: int, newPhase: Phase)
    requires Distinct(enemies)
    modifies player, enemies
    ensures var r := SweepEnemies(old(Levels.EnemyModels(enemies)), old(player.Model()), score, phase);
      player.Model() == r.player && newScore == r.score && newPhase == r.phase &&
      forall k :: 0 <= k < |enemies| ==> enemies[k].Model() == r.enemies[k]
  {
    ghost var es := Levels.EnemyModels(enemies);
    ghost var p0 := player.Model();
    forall k | 0 <= k < |enemies| ensures enemies[k].Model() == es[k] {
      Levels.EnemyModelsAt(enemies, k);
    }
    newScore, newPhase := score, phase;
    ghost var r := EnemySweep([], p0, score, phase);
    var i := 0;
    while i < |enemies|
      invariant 0 <= i <= |enemies|
      invariant r == SweepEnemies(es[..i], p0, score, phase) && |r.enemies| == i
      invariant player.Model() == r.player && newScore == r.score && newPhase == r.phase
      invariant forall k :: 0 <= k < |enemies| ==> enemies[k].Model() == if k < i then r.enemies[k] else es[k]
    {
      SweepEnemiesSnoc(es, i, p0, score, phase);
      ghost var m := Meet(es[i], r.player, r.score, r.phase);
      newScore, newPhase := MeetEnemyAt(player, enemies, i, newScore, newPhase);
      assert enemies[i].Model() == m.enemy && player.Model() == m.player;
      r := EnemySweep(r.enemies + [m.enemy], m.player, m.score, m.phase);
      i := i + 1;
    }
    assert es[..|enemies|] == es;
  }

  /** The coin loop on a level: only its coins change. */
  method SweepLevelCoins(player: Players.Player, level: Levels.Level, score: int) returns (newScore: int)
    requires level.Valid()
    modifies player, level.coins
    ensures var c := SweepCoins(old(level.Model()).coins, old(player.Model()), score);
      player.Model() == c.player && newScore == c.score && level.Model() == old(level.Model()).(coins := c.coins)
  {
    ghost var cs := Levels.CoinModels(level.coins);
    ghost var p0 := player.Model();
    newScore := CollectTouchedCoins(player, level.coins, score);
    assert player.Model() == SweepCoins(cs, p0, score).player && newScore == SweepCoins(cs, p0, score).score by {
      SweepCoinsTotals(cs, p0, score);
    }
    CoinLoopIsSweep(level.coins, cs, p0, score);
    Levels.CrystalModelsKept(level.crystals);
    Levels.EnemyModelsKept(level.enemies);
  }

  /** The crystal loop on a level: only its crystals change. */
  method SweepLevelCrystals(player: Body, level: Levels.Level, score: int) returns (newScore: int)
    requires level.Valid()
    modifies level.crystals
    ensures var k := SweepCrystals(old(level.Model()).crystals, player, score);
      newScore == k.score && level.Model() == old(level.Model()).(crystals := k.crystals)
  {
    ghost var ks := Levels.CrystalModels(level.crystals);
    newScore := CollectTouchedCrystals(player, level.crystals, score);
    assert newScore == SweepCrystals(ks, player, score).score by {
      SweepCrystalsScore(ks, player, score);
    }
    CrystalLoopIsSweep(level.crystals, ks, player, score);
    Levels.CoinModelsKept(level.coins);
    Levels.EnemyModelsKept(level.enemies);
  }

  /** The enemy loop on a level: only its enemies change. */
  method SweepLevelEnemies(player: Players.Player, level: Levels.Level, score: int, phase: Phase)
      returns (newScore: int, newPhase: Phase)
    requires level.Valid()
    modifies player, level.enemies
    ensures var e := SweepEnemies(old(level.Model()).enemies, old(player.Model()), score, phase);
      player.Model() == e.player && newScore == e.score && newPhase == e.phase &&
      level.Model() == old(level.Model()).(enemies := e.enemies)
  {
    ghost var r := SweepEnemies(Levels.EnemyModels(level.enemies), player.Model(), score, phase);
    newScore, newPhase := MeetAllEnemies(player, level.enemies, score, phase);
    Levels.EnemyModelsEqual(level.enemies, r.enemies);
    Levels.CoinModelsKept(level.coins);
    Levels.CrystalModelsKept(level.crystals);
  }

  // ---------------------------------------------------------------------
  // The game object

  class Game {
    var state: Phase
    var score: int
    var timeRemaining: int
    var timeAccumulator: real
    var player: Players.Player?
    var currentLevel: Levels.Level?
    const camera: Cameras.Camera
    const levelManager: Levels.LevelManager
    var lastTime: real
    /** The Escape handler's pressed latch. */
    var pausePressed: bool

    /** Outside the menu there is a player and a level, and the camera follows the player. */
    predicate Valid()
      reads this`state, this`player, this`currentLevel, camera`target
    {
      FIRST_LEVEL in levelManager.table &&
      (state != Menu ==> player != null && currentLevel != null && camera.target == player && currentLevel.Valid())
    }

    predicate Ready()
      reads this`player, this`currentLevel
    {
      player != null && currentLevel != null
    }

    /** What update relies on while a level is being played: the camera follows the player and no level object is listed twice. */
    predicate Live()
      reads this`player, this`currentLevel, camera`target
    {
      Ready() && camera.target == player && currentLevel.Valid()
    }

    function Model(): GameState
      requires Ready()
      reads this`state, this`score, this`timeRemaining, this`timeAccumulator, this`player, this`currentLevel
      reads player, currentLevel.coins, currentLevel.crystals, currentLevel.enemies, camera
    {
      GameState(state, score, timeRemaining, timeAccumulator, player.Model(), currentLevel.Model(), camera.Model())
    }

    constructor ()
      ensures Valid() && state == Menu && score == 0 && timeRemaining == START_TIME && timeAccumulator == 0.0
      ensures player == null && currentLevel == null && lastTime == 0.0 && !pausePressed
      ensures camera.Model() == Cameras.NewCameraState(VIEW_WIDTH, VIEW_HEIGHT) && camera.target == null
      ensures levelManager.table == Levels.LEVELS && levelManager.currentLevel == null
    {
      camera := new Cameras.Camera(VIEW_WIDTH, VIEW_HEIGHT);
      levelManager := new Levels.LevelManager();
      state := Menu;
      player := null;
      currentLevel := null;
      score := 0;
      timeRemaining := START_TIME;
      timeAccumulator := 0.0;
      lastTime := 0.0;
      pausePressed := false;
    }

    /** startGame: a fresh run of the first level, with a new player at its start and the camera on them. */
    method StartGame(now: real)
      requires Valid()
      modifies this`state, this`score, this`currentLevel, this`timeRemaining, this`timeAccumulator, this`player, this`lastTime, camera`target, camera`limits, levelManager`currentLevel, levelManager`currentLevelKey
      ensures Valid() && Ready() && lastTime == now
      ensures Model() == StartState(Levels.BuildLevel(levelManager.table[FIRST_LEVEL]), old(camera.Model()))
    {
      var level := levelManager.LoadLevel(FIRST_LEVEL);
      Begin(level, now);
    }

    /** The part of startGame after loadLevel: the game's own fields, the new player and the camera. */
    method Begin(level: Levels.Level, now: real)
      requires Valid() && level.Valid()
      modifies this`state, this`score, this`currentLevel, this`timeRemaining, this`timeAccumulator, this`player, this`lastTime, camera`target, camera`limits
      ensures Valid() && Ready() && currentLevel == level && lastTime == now
      ensures Model() == StartState(old(level.Model()), old(camera.Model()))
    {
      var p := new Players.Player(level.startX, level.startY);
      camera.Follow(p);
      camera.SetBounds(0.0, level.width, 0.0, level.height);
      state := Playing;
      score := 0;
      currentLevel := level;
      timeRemaining := level.timeLimit;
      timeAccumulator := 0.0;
      player := p;
      lastTime := now;
      Levels.LevelModelKept(level);
    }

    /** loadNextLevel: there is one level so far, so this starts the run again. */
    method LoadNextLevel(now: real)
      requires Valid()
      modifies this`state, this`score, this`currentLevel, this`timeRemaining, this`timeAccumulator, this`player, this`lastTime, camera`target, camera`limits, levelManager`currentLevel, levelManager`currentLevelKey
      ensures Valid() && Ready() && lastTime == now
      ensures Model() == StartState(Levels.BuildLevel(levelManager.table[FIRST_LEVEL]), old(camera.Model()))
    {
      StartGame(now);
    }

    method PauseGame()
      modifies this`state
      ensures state == Paused
    {
      state := Paused;
    }

    method ResumeGame(now: real)
      modifies this`state, this`lastTime
      ensures state == Playing && lastTime == now
    {
      state := Playing;
      lastTime := now;
    }

    method GameOver()
      modifies this`state
      ensures state == Gameover
    {
      state := Gameover;
    }

    /** levelComplete: the state and the time bonus of ten points per remaining second. */
    method LevelComplete()
      modifies this`state, this`score
      ensures state == Levelcomplete && score == old(score) + timeRemaining * TIME_BONUS
    {
      state := Levelcomplete;
      score := score + timeRemaining * TIME_BONUS;
    }

    /** The Escape keydown listener. */
    method EscapeKeyDown(now: real)
      requires Valid()
      modifies this`state, this`lastTime, this`pausePressed
      ensures Valid()
      ensures (state, pausePressed) == EscapeDown(old(state), old(pausePressed))
      ensures lastTime == if !old(pausePressed) && old(state) == Paused then now else old(lastTime)
    {
      if !pausePressed {
        pausePressed := true;
        if state == Playing {
          PauseGame();
        } else if state == Paused {
          ResumeGame(now);
        }
      }
    }

    /** The Escape keyup listener. */
    method EscapeKeyUp()
      modifies this`pausePressed
      ensures !pausePressed
    {
      pausePressed := false;
    }

    /** The countdown part of update; it reports whether time ran out. */
    method Tick(deltaTime: real) returns (expired: bool)
      requires Live() && state == Playing
      modifies this`timeAccumulator, this`timeRemaining, this`state
      ensures Live() && player == old(player) && currentLevel == old(currentLevel)
      ensures Model() == Countdown(old(Model()), deltaTime)
      ensures expired <==> TimeUp(old(Model()), deltaTime)
    {
      timeAccumulator := timeAccumulator + deltaTime;
      expired := false;
      if timeAccumulator >= TICK_MS {
        timeRemaining := timeRemaining - 1;
        timeAccumulator := 0.0;
        if timeRemaining <= 0 {
          GameOver();
          expired := true;
        }
      }
    }

    method MovePlayerStep(deltaTime: real, input: Players.Input)
      requires Live()
      modifies player
      ensures Live() && player == old(player) && currentLevel == old(currentLevel)
      ensures Model() == MovePlayer(old(Model()), deltaTime, input)
    {
      ghost var coins, crystals, enemies := currentLevel.coins, currentLevel.crystals, currentLevel.enemies;
      player.Update(deltaTime, input, currentLevel.platforms);
      Levels.LevelModelKept(currentLevel);
    }

    method MoveLevelStep(sin: real -> real)
      requires Live()
      modifies currentLevel.coins, currentLevel.crystals, currentLevel.enemies
      ensures Live() && player == old(player) && currentLevel == old(currentLevel)
      ensures Model() == MoveLevel(old(Model()), sin)
    {
      currentLevel.Update(sin);
    }

    /** The coin loop of update, on the game's player, level and score. */
    method CoinStep()
      requires Live()
      modifies this`score, player, currentLevel.coins
      ensures Live() && player == old(player) && currentLevel == old(currentLevel)
      ensures Model() == CoinPass(old(Model()))
    {
      ghost var g0 := Model();
      score := SweepLevelCoins(player, currentLevel, score);
      assert camera.Model() == g0.camera;
    }

    /** The crystal loop of update. */
    method CrystalStep()
      requires Live()
      modifies this`score, currentLevel.crystals
      ensures Live() && player == old(player) && currentLevel == old(currentLevel)
      ensures Model() == CrystalPass(old(Model()))
    {
      ghost var g0 := Model();
      score := SweepLevelCrystals(player.body, currentLevel, score);
      assert player.Model() == g0.player;
      assert camera.Model() == g0.camera;
    }

    /** The enemy loop of update. */
    method EnemyStep()
      requires Live()
      modifies this`score, this`state, player, currentLevel.enemies
      ensures Live() && player == old(player) && currentLevel == old(currentLevel)
      ensures Model() == EnemyPass(old(Model()))
    {
      ghost var g0 := Model();
      score, state := SweepLevelEnemies(player, currentLevel, score, state);
      assert camera.Model() == g0.camera;
    }

    /** checkGoalReached, then levelComplete. */
    method GoalStep()
      requires Live()
      modifies this`state, this`score
      ensures Live() && player == old(player) && currentLevel == old(currentLevel)
      ensures Model() == GoalCheck(old(Model()))
    {
      var reached := currentLevel.CheckGoalReached(player.body);
      if reached {
        LevelComplete();
      }
    }

    /** The fall-off check of update. */
    method FallStep()
      requires Live()
      modifies this`state, player
      ensures Live() && player == old(player) && currentLevel == old(currentLevel)
      ensures Model() == FallCheck(old(Model()))
    {
      if player.body.y > currentLevel.height + FALL_MARGIN {
        var isDead := player.TakeDamage();
        if isDead {
          GameOver();
        } else {
          player.Reset();
        }
      }
      Levels.LevelModelKept(currentLevel);
    }

    method CameraStep()
      requires Live()
      modifies camera
      ensures Live() && player == old(player) && currentLevel == old(currentLevel)
      ensures Model() == FollowCamera(old(Model()))
    {
      camera.Update();
    }

    /** Game.update for one frame of deltaTime milliseconds, with the frame's input and Math.sin. */
    method Update(deltaTime: real, input: Players.Input, sin: real -> real)
      requires Valid()
      modifies this`state, this`score, this`timeRemaining, this`timeAccumulator, player, camera
      modifies if currentLevel == null then [] else currentLevel.coins
      modifies if currentLevel == null then [] else currentLevel.crystals
      modifies if currentLevel == null then [] else currentLevel.enemies
      ensures Valid() && player == old(player) && currentLevel == old(currentLevel)
      ensures old(state) == Menu ==> unchanged(this)
      ensures old(state) != Menu ==> Model() == GameUpdate(old(Model()), deltaTime, input, sin)
    {
      if state != Playing {
        return;
      }
      var expired := Tick(deltaTime);
      if expired {
        return;
      }
      PlayFrameStep(deltaTime, input, sin);
    }

    method PlayFrameStep(deltaTime: real, input: Players.Input, sin: real -> real)
      requires Live()
      modifies this`state, this`score, player, camera, currentLevel.coins, currentLevel.crystals, currentLevel.enemies
      ensures Live() && player == old(player) && currentLevel == old(currentLevel)
      ensures Model() == PlayFrame(old(Model()), deltaTime, input, sin)
    {
      MoveSteps(deltaTime, input, sin);
      ContactSteps();
      CheckSteps();
    }

    method MoveSteps(deltaTime: real, input: Players.Input, sin: real -> real)
      requires Live()
      modifies player, currentLevel.coins, currentLevel.crystals, currentLevel.enemies
      ensures Live() && player == old(player) && currentLevel == old(currentLevel)
      ensures Model() == Moves(old(Model()), deltaTime, input, sin)
    {
      MovePlayerStep(deltaTime, input);
      MoveLevelStep(sin);
    }

    method ContactSteps()
      requires Live()
      modifies this`state, this`score, player, currentLevel.coins, currentLevel.crystals, currentLevel.enemies
      ensures Live() && player == old(player) && currentLevel == old(currentLevel)
      ensures Model() == Contacts(old(Model()))
    {
      CoinStep();
      CrystalStep();
      EnemyStep();
    }

    method CheckSteps()
      requires Live()
      modifies this`state, this`score, player, camera
      ensures Live() && player == old(player) && currentLevel == old(currentLevel)
      ensures Model() == Checks(old(Model()))
    {
      GoalStep();
      FallStep();
      CameraStep();
    }

    /** gameLoop's bookkeeping: the frame's time becomes the last time; nothing the frame rules read changes. */
    method Stamp(currentTime: real)
      requires Valid() && Ready()
      modifies this`lastTime
      ensures lastTime == currentTime && Valid() && Model() == old(Model())
    {
      lastTime := currentTime;
    }

    /**
     * gameLoop: only while playing; the elapsed time since the last frame,
     * capped at 100 ms and (correcting the first frame after a start or a
     * resume) never below 0, drives update.
     */
    method GameLoop(currentTime: real, input: Players.Input, sin: real -> real)
      requires Valid()
      modifies this`state, this`score, this`timeRemaining, this`timeAccumulator, this`lastTime, player, camera
      modifies if currentLevel == null then [] else currentLevel.coins
      modifies if currentLevel == null then [] else currentLevel.crystals
      modifies if currentLevel == null then [] else currentLevel.enemies
      ensures Valid() && player == old(player) && currentLevel == old(currentLevel)
      ensures old(state) != Playing ==> unchanged(this)
      ensures old(state) == Playing ==> lastTime == currentTime
      ensures old(state) == Playing ==> Model() == GameUpdate(old(Model()), ClampedFrameDelta(currentTime, old(lastTime)), input, sin)
    {
      if state != Playing {
        return;
      }
      var cappedDelta := ClampedFrameDelta(currentTime, lastTime);
      Update(cappedDelta, input, sin);
      Stamp(currentTime);
    }
  }
}
