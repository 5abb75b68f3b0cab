/**
 * Enemies of Crystal Rush (js/enemies.js): a patrolling base enemy with
 * health, and its three variants — the forest sprite (smaller, slower,
 * with a float animation), the rock golem (two hits to defeat) and the void
 * moth (flies along a sine wave and moves horizontally without the physics
 * engine). Contact with the player is classified as a stomp or a hit.
 */
module Enemies {
  import opened Utils
  import opened Entities
  import Physics
  import Players

  /** The variant of an enemy, with the fields only that variant has. */
  datatype Kind =
    | Basic
    | Sprite(floatOffset: real)
    | Golem
    | Moth(wingFlap: real, flyHeight: real, verticalOffset: real)

  datatype EnemyState = EnemyState(
    body: Body,
    health: int,
    speed: real,
    direction: int,
    patrolDistance: real,
    startX: real,
    kind: Kind)

  const FLOAT_SPEED: real := 0.05
  const MOTH_WAVE_STEP: real := 0.05
  const MOTH_WAVE_HEIGHT: real := 30.0
  const MOTH_FLAP_STEP: real := 0.2

  /** The Enemy constructor: one health, speed 2, heading right, patrolling 150 around the spawn x. */
  function NewEnemyState(x: real, y: real, width: real, height: real): (e: EnemyState)
    ensures e.body == NewBody(x, y, width, height)
    ensures e.health == 1 && e.speed == 2.0 && e.direction == 1
    ensures e.patrolDistance == 150.0 && e.startX == x && e.kind == Basic
  {
    EnemyState(NewBody(x, y, width, height), 1, 2.0, 1, 150.0, x, Basic)
  }

  function NewSprite(x: real, y: real): (e: EnemyState)
    ensures e.body == NewBody(x, y, 35.0, 35.0)
    ensures e.health == 1 && e.speed == 1.5 && e.direction == 1 && e.patrolDistance == 150.0 && e.startX == x
    ensures e.kind == Sprite(0.0)
  {
    NewEnemyState(x, y, 35.0, 35.0).(speed := 1.5, kind := Sprite(0.0))
  }

  function NewGolem(x: real, y: real): (e: EnemyState)
    ensures e.body == NewBody(x, y, 45.0, 50.0)
    ensures e.health == 2 && e.speed == 1.0 && e.direction == 1 && e.patrolDistance == 100.0 && e.startX == x
    ensures e.kind == Golem
  {
    NewEnemyState(x, y, 45.0, 50.0).(health := 2, speed := 1.0, patrolDistance := 100.0, kind := Golem)
  }

  function NewMoth(x: real, y: real): (e: EnemyState)
    ensures e.body == NewBody(x, y, 40.0, 30.0)
    ensures e.health == 1 && e.speed == 2.0 && e.direction == 1 && e.patrolDistance == 200.0 && e.startX == x
    ensures e.kind == Moth(0.0, y, 0.0)
  {
    NewEnemyState(x, y, 40.0, 30.0).(patrolDistance := 200.0, kind := Moth(0.0, y, 0.0))
  }

  // ---------------------------------------------------------------------
  // Patrol

  predicate BeyondPatrol(e: EnemyState)
  {
    e.body.x - e.startX > e.patrolDistance || e.startX - e.body.x > e.patrolDistance
  }

  /**
   * The patrol step shared by all enemies, as written: the horizontal speed
   * follows the current direction, and only afterwards the direction turns
   * if the enemy is farther than patrolDistance from where it spawned.
   */
  function PatrolAsWritten(e: EnemyState): (r: EnemyState)
    ensures r.body.vx == e.speed * (e.direction as real)
    ensures r.direction == (if BeyondPatrol(e) then -e.direction else e.direction)
    ensures r == e.(body := r.body, direction := r.direction)
    ensures r.body == e.body.(vx := r.body.vx)
  {
    var e1 := e.(body := e.body.(vx := e.speed * (e.direction as real)));
    if BeyondPatrol(e1) then e1.(direction := -e1.direction) else e1
  }

  /**
   * The patrol step as the game evidently intends it: an enemy beyond its
   * patrol limit turns first, and its horizontal speed follows the new
   * direction, so the turning frame already takes it back.
   */
  function Patrol(e: EnemyState): (r: EnemyState)
    ensures r.direction == (if BeyondPatrol(e) then -e.direction else e.direction)
    ensures r.body.vx == e.speed * (r.direction as real)
    ensures e.direction in {1, -1} ==> r.direction in {1, -1}
    ensures r == e.(body := r.body, direction := r.direction)
    ensures r.body == e.body.(vx := r.body.vx)
  {
    var d := if BeyondPatrol(e) then -e.direction else e.direction;
    e.(direction := d, body := e.body.(vx := e.speed * (d as real)))
  }

  /** VoidMoth.update after the patrol step: bob on the sine wave, flap, and move by vx without physics. */
  function MothFly(p: EnemyState, sin: real -> real): (r: EnemyState)
    requires p.kind.Moth?
    ensures r.body.x == p.body.x + p.body.vx && r.body.vx == p.body.vx
    ensures r.body.y == p.kind.flyHeight + sin(p.kind.verticalOffset + MOTH_WAVE_STEP) * MOTH_WAVE_HEIGHT
    ensures r.kind == Moth(p.kind.wingFlap + MOTH_FLAP_STEP, p.kind.flyHeight, p.kind.verticalOffset + MOTH_WAVE_STEP)
    ensures r == p.(body := r.body, kind := r.kind)
  {
    var o := p.kind.verticalOffset + MOTH_WAVE_STEP;
    var b := p.body.(y := p.kind.flyHeight + sin(o) * MOTH_WAVE_HEIGHT);
    p.(body := b.(x := b.x + b.vx), kind := Moth(p.kind.wingFlap + MOTH_FLAP_STEP, p.kind.flyHeight, o))
  }

  /** The walking enemies after the patrol step: the physics step, and the sprite's float animation. */
  function Walk(p: EnemyState, platforms: seq<Platform>): (r: EnemyState)
    requires !p.kind.Moth?
    ensures r.body == Physics.Step(p.body, platforms)
    ensures p.kind.Sprite? ==> r.kind == Sprite(p.kind.floatOffset + FLOAT_SPEED)
    ensures !p.kind.Sprite? ==> r.kind == p.kind
    ensures r == p.(body := r.body, kind := r.kind)
  {
    var b := Physics.Step(p.body, platforms);
    if p.kind.Sprite? then p.(body := b, kind := Sprite(p.kind.floatOffset + FLOAT_SPEED))
    else p.(body := b)
  }

  /** What follows the patrol step: the moth's flight, or the walkers' physics step and animation. */
  function Move(p: EnemyState, platforms: seq<Platform>, sin: real -> real): (r: EnemyState)
    ensures p.kind.Moth? ==> r.body.x == p.body.x + p.body.vx && r.body.vx == p.body.vx
    ensures !p.kind.Moth? ==> r.body == Physics.Step(p.body, platforms)
    ensures r.kind.Moth? == p.kind.Moth? && r.kind.Sprite? == p.kind.Sprite?
    ensures r == p.(body := r.body, kind := r.kind)
  {
    if p.kind.Moth? then MothFly(p, sin) else Walk(p, platforms)
  }

  /** Enemy.update and the variants' overrides as written, with the speed taken before the turn. */
  function EnemyUpdateAsWritten(e: EnemyState, platforms: seq<Platform>, sin: real -> real): (r: EnemyState)
    ensures r.direction == (if BeyondPatrol(e) then -e.direction else e.direction)
    ensures e.kind.Moth? ==>
      r.body.x == e.body.x + e.speed * (e.direction as real) && r.body.vx == e.speed * (e.direction as real)
    ensures !e.kind.Moth? ==> r.body == Physics.Step(e.body.(vx := e.speed * (e.direction as real)), platforms)
    ensures r == e.(body := r.body, kind := r.kind, direction := r.direction)
  {
    Move(PatrolAsWritten(e), platforms, sin)
  }

  /**
   * Enemy.update and the variants' overrides with the corrected patrol step:
   * the turn, then the physics step for walking enemies (plus the sprite's
   * float animation), or the moth's flight, which bypasses physics.
   */
  function EnemyUpdate(e: EnemyState, platforms: seq<Platform>, sin: real -> real): (r: EnemyState)
    ensures r.direction == (if BeyondPatrol(e) then -e.direction else e.direction)
    ensures e.direction in {1, -1} ==> r.direction in {1, -1}
    ensures e.kind.Moth? ==>
      r.body.x == e.body.x + e.speed * (r.direction as real) && r.body.vx == e.speed * (r.direction as real)
    ensures !e.kind.Moth? ==> r.body == Physics.Step(Patrol(e).body, platforms)
    ensures r.kind.Moth? == e.kind.Moth? && r.kind.Sprite? == e.kind.Sprite?
    ensures r.health == e.health && r.speed == e.speed && r.patrolDistance == e.patrolDistance && r.startX == e.startX
  {
    Move(Patrol(e), platforms, sin)
  }

  /** The worked example: spawned at 400 with radius 150 and heading right, at x = 551 the enemy turns. */
  lemma TurnsPastPatrolLimit(platforms: seq<Platform>, sin: real -> real)
    ensures var e := NewEnemyState(400.0, 300.0, 40.0, 40.0).(body := NewBody(551.0, 300.0, 40.0, 40.0));
      EnemyUpdate(e, platforms, sin).direction == -1
  {
  }

  function UpdateTimes(e: EnemyState, platforms: seq<Platform>, sin: real -> real, n: nat): EnemyState
    decreases n
  {
    if n == 0 then e else UpdateTimes(EnemyUpdate(e, platforms, sin), platforms, sin, n - 1)
  }

  /** The direction stays 1 or -1 across any number of updates. */
  lemma {:induction false} DirectionStaysUnit(e: EnemyState, platforms: seq<Platform>, sin: real -> real, n: nat)
    requires e.direction in {1, -1}
    ensures UpdateTimes(e, platforms, sin, n).direction in {1, -1}
    decreases n
  {
    if n > 0 {
      DirectionStaysUnit(EnemyUpdate(e, platforms, sin), platforms, sin, n - 1);
    }
  }

  /**
   * Because the speed is taken from the direction before the turn, the frame
   * that turns an enemy still carries it one step farther out, and the next
   * frame finds it still beyond the limit and turns it back. A moth past its
   * limit (or a walker with no platforms to touch) therefore returns to the
   * same x and direction every two frames and never comes back from the
   * limit.
   */
  lemma PatrolStallsAtLimit(e: EnemyState, platforms: seq<Platform>, sin: real -> real)
    requires e.direction in {1, -1} && e.speed > 0.0 && BeyondPatrol(e)
    requires e.direction == 1 <==> e.body.x > e.startX
    requires e.kind.Moth? || platforms == []
    ensures var e1 := EnemyUpdateAsWritten(e, platforms, sin);
      var e2 := EnemyUpdateAsWritten(e1, platforms, sin);
      e1.direction == -e.direction && BeyondPatrol(e1) &&
      e2.direction == e.direction && e2.body.x == e.body.x
  {
    var e1 := EnemyUpdateAsWritten(e, platforms, sin);
    if !e.kind.Moth? {
      StepWithoutPlatformsMovesByVx(e.body.(vx := e.speed * (e.direction as real)));
      StepWithoutPlatformsMovesByVx(PatrolAsWritten(e1).body);
    }
  }

  /**
   * With the corrected patrol step, an enemy that has just crossed its limit
   * (by at most one step) turns and is back inside the limit after the same
   * frame, moving toward where it spawned.
   */
  lemma PatrolLeavesLimit(e: EnemyState, platforms: seq<Platform>, sin: real -> real)
    requires e.direction in {1, -1} && e.speed > 0.0 && BeyondPatrol(e)
    requires e.direction == 1 <==> e.body.x > e.startX
    requires e.body.x - e.startX <= e.patrolDistance + e.speed && e.startX - e.body.x <= e.patrolDistance + e.speed
    requires e.speed <= 2.0 * e.patrolDistance
    requires e.kind.Moth? || platforms == []
    ensures var e1 := EnemyUpdate(e, platforms, sin);
      e1.direction == -e.direction && !BeyondPatrol(e1) &&
      e1.body.x == e.body.x - e.speed * (e.direction as real)
  {
    if !e.kind.Moth? {
      StepWithoutPlatformsMovesByVx(Patrol(e).body);
    }
  }

  lemma StepWithoutPlatformsMovesByVx(b: Body)
    ensures Physics.Step(b, []).x == b.x + b.vx
  {
    assert Physics.ResolveAll(Physics.Integrate(b), []) == Physics.Integrate(b);
  }

  // ---------------------------------------------------------------------
  // Damage

  /** takeDamage: one health lost; at zero or below the enemy is defeated and becomes inactive. */
  function EnemyTakeDamage(e: EnemyState): (r: (EnemyState, bool))
    ensures r.0.health == e.health - 1
    ensures r.1 <==> r.0.health <= 0
    ensures r.1 ==> !r.0.body.active
    ensures !r.1 ==> r.0 == e.(health := e.health - 1)
    ensures r.0 == e.(health := r.0.health, body := r.0.body) && r.0.body == e.body.(active := r.0.body.active)
  {
    var e1 := e.(health := e.health - 1);
    if e1.health <= 0 then (e1.(body := Deactivated(e1.body)), true) else (e1, false)
  }

  /** A rock golem survives its first hit and is defeated by the second. */
  lemma GolemTakesTwoHits(x: real, y: real)
    ensures var first := EnemyTakeDamage(NewGolem(x, y));
      var second := EnemyTakeDamage(first.0);
      !first.1 && first.0.body.active && second.1 && !second.0.body.active
  {
  }

  /** Every other enemy is defeated by its first hit. */
  lemma OthersTakeOneHit(x: real, y: real)
    ensures EnemyTakeDamage(NewSprite(x, y)).1 && EnemyTakeDamage(NewMoth(x, y)).1
    ensures EnemyTakeDamage(NewEnemyState(x, y, 40.0, 40.0)).1
  {
  }

  // ---------------------------------------------------------------------
  // Contact with the player

  datatype Contact = Stomp | Hit

  /** The player lands on the enemy: falling, with feet less than 20 below the enemy's top. */
  predicate Stomps(e: EnemyState, p: Players.PlayerState)
  {
    p.body.vy > 0.0 && p.body.y + p.body.height - 10.0 < e.body.y + 10.0
  }

  /**
   * checkPlayerCollision: nothing from an inactive enemy or to an invincible
   * player, nothing without overlap; otherwise a stomp when the player comes
   * down on top, a hit in every other case.
   */
  function CheckPlayerCollision(e: EnemyState, p: Players.PlayerState): (r: Option<Contact>)
    ensures !e.body.active || p.invincible ==> r == None
    ensures r.Some? <==> e.body.active && !p.invincible && CheckCollision(Bounds(p.body), Bounds(e.body))
    ensures r == Some(Stomp) <==> r.Some? && Stomps(e, p)
    ensures r == Some(Hit) <==> r.Some? && !Stomps(e, p)
  {
    if !e.body.active || p.invincible then None
    else if CheckCollision(Bounds(p.body), Bounds(e.body)) then
      if Stomps(e, p) then Some(Stomp) else Some(Hit)
    else None
  }

  /** A player that is not falling (standing, walking or rising) is always hurt by contact, never stomps. */
  lemma NotFallingMeansHit(e: EnemyState, p: Players.PlayerState)
    requires p.body.vy <= 0.0
    ensures CheckPlayerCollision(e, p) != Some(Stomp)
  {
  }

  // ---------------------------------------------------------------------
  // The enemy object

  class Enemy {
    var body: Body
    var health: int
    var speed: real
    var direction: int
    var patrolDistance: real
    var startX: real
    var kind: Kind

    function Model(): EnemyState
      reads this
    {
      EnemyState(body, health, speed, direction, patrolDistance, startX, kind)
    }

    constructor (x: real, y: real, width: real, height: real)
      ensures Model() == NewEnemyState(x, y, width, height)
    {
      body := NewBody(x, y, width, height);
      health := 1;
      speed := 2.0;
      direction := 1;
      patrolDistance := 150.0;
      startX := x;
      kind := Basic;
    }

    constructor ForestSprite(x: real, y: real)
      ensures Model() == NewSprite(x, y)
    {
      body := NewBody(x, y, 35.0, 35.0);
      health := 1;
      speed := 1.5;
      direction := 1;
      patrolDistance := 150.0;
      startX := x;
      kind := Sprite(0.0);
    }

    constructor RockGolem(x: real, y: real)
      ensures Model() == NewGolem(x, y)
    {
      body := NewBody(x, y, 45.0, 50.0);
      health := 2;
      speed := 1.0;
      direction := 1;
      patrolDistance := 100.0;
      startX := x;
      kind := Golem;
    }

    constructor VoidMoth(x: real, y: real)
      ensures Model() == NewMoth(x, y)
    {
      body := NewBody(x, y, 40.0, 30.0);
      health := 1;
      speed := 2.0;
      direction := 1;
      patrolDistance := 200.0;
      startX := x;
      kind := Moth(0.0, y, 0.0);
    }

    /** Math.sin is passed in as sin. */
    method Update(platforms: seq<Platform>, sin: real -> real)
      modifies this`body, this`direction, this`kind
      ensures Model() == EnemyUpdate(old(Model()), platforms, sin)
    {
      PatrolStep();
      if kind.Moth? {
        FlyStep(sin);
      } else {
        WalkStep(platforms);
      }
    }

    /** The patrol part of Enemy.update, shared by every kind, with the turn before the speed (see Patrol). */
    method PatrolStep()
      modifies this`body, this`direction
      ensures Model() == Patrol(old(Model()))
    {
      if body.x - startX > patrolDistance || startX - body.x > patrolDistance {
        direction := -direction;
      }
      body := body.(vx := speed * (direction as real));
    }

    /** The rest of VoidMoth.update. */
    method FlyStep(sin: real -> real)
      requires kind.Moth?
      modifies this`body, this`kind
      ensures Model() == MothFly(old(Model()), sin)
    {
      var o := kind.verticalOffset + MOTH_WAVE_STEP;
      body := body.(y := kind.flyHeight + sin(o) * MOTH_WAVE_HEIGHT);
      kind := kind.(wingFlap := kind.wingFlap + MOTH_FLAP_STEP, verticalOffset := o);
      body := body.(x := body.x + body.vx);
    }

    /** The rest of update for the walking kinds: physics, and the sprite's float. */
    method WalkStep(platforms: seq<Platform>)
      requires !kind.Moth?
      modifies this`body, this`kind
      ensures Model() == Walk(old(Model()), platforms)
    {
      body := Physics.Update(body, platforms);
      if kind.Sprite? {
        kind := Sprite(kind.floatOffset + FLOAT_SPEED);
      }
    }

    method TakeDamage() returns (defeated: bool)
      modifies this`health, this`body
      ensures (Model(), defeated) == EnemyTakeDamage(old(Model()))
    {
      health := health - 1;
      if health <= 0 {
        body := body.(active := false);
        return true;
      }
      return false;
    }
  }
}
