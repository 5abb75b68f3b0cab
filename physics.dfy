/**
 * The physics engine of Crystal Rush (js/physics.js): gravity with a
 * fall-speed cap, friction, position integration, AABB collision against
 * platforms resolved along the side of least overlap, and a hard floor.
 *
 * The engine updates an entity in place; here it receives the entity's Body
 * and returns the updated Body, which the caller stores back.
 */
module Physics {
  import opened Utils
  import opened Entities

  const GRAVITY: real := 0.6
  const MAX_FALL_SPEED: real := 15.0
  const FRICTION: real := 0.8
  const WORLD_FLOOR: real := 800.0

  /**
   * applyGravity: an airborne entity gains 0.6 of downward speed, capped at
   * 15; a grounded one is left as it is. Only vy ever changes.
   */
  function ApplyGravity(b: Body): (r: Body)
    ensures b.onGround ==> r == b
    ensures !b.onGround ==> r == b.(vy := Min(b.vy + GRAVITY, MAX_FALL_SPEED))
    ensures r.vy <= MAX_FALL_SPEED || r.vy == b.vy
  {
    if !b.onGround then b.(vy := Min(b.vy + GRAVITY, MAX_FALL_SPEED)) else b
  }

  /** applyFriction: a grounded entity keeps 0.8 of its horizontal speed. */
  function ApplyFriction(b: Body): (r: Body)
    ensures b.onGround ==> r == b.(vx := FRICTION * b.vx)
    ensures !b.onGround ==> r == b
  {
    if b.onGround then b.(vx := b.vx * FRICTION) else b
  }

  function GravitySteps(b: Body, n: nat): Body
  {
    if n == 0 then b else ApplyGravity(GravitySteps(b, n - 1))
  }

  /** From rest, n airborne gravity steps give a fall speed of min(0.6 n, 15). */
  lemma {:induction false} GravityClosedForm(b: Body, n: nat)
    requires !b.onGround && b.vy == 0.0
    ensures GravitySteps(b, n).vy == Min(GRAVITY * (n as real), MAX_FALL_SPEED)
    ensures GravitySteps(b, n) == b.(vy := GravitySteps(b, n).vy)
  {
    if n > 0 {
      GravityClosedForm(b, n - 1);
    }
  }

  // ---------------------------------------------------------------------
  // Collision side classification

  datatype Side = Top | Bottom | Left | Right

  datatype Collision = Collision(side: Side, overlap: real)

  /** Penetration depth of the entity into the platform through each side. */
  function Overlap(b: Body, p: Platform, s: Side): real
  {
    match s
    case Top => (b.y + b.height) - p.body.y
    case Bottom => (p.body.y + p.body.height) - b.y
    case Left => (b.x + b.width) - p.body.x
    case Right => (p.body.x + p.body.width) - b.x
  }

  function MinOverlap(b: Body, p: Platform): real
  {
    Min(Min(Overlap(b, p, Left), Overlap(b, p, Right)), Min(Overlap(b, p, Top), Overlap(b, p, Bottom)))
  }

  /** The entity moves into the platform through side s. */
  predicate MovingInto(b: Body, s: Side)
  {
    match s
    case Top => b.vy > 0.0
    case Bottom => b.vy < 0.0
    case Left => b.vx > 0.0
    case Right => b.vx < 0.0
  }

  /** Side s may be reported: it has the least overlap and the velocity points into it. */
  predicate Qualifies(b: Body, p: Platform, s: Side)
  {
    Overlap(b, p, s) == MinOverlap(b, p) && MovingInto(b, s)
  }

  /** The order in which the sides are tried: top, bottom, left, right. */
  function Rank(s: Side): nat
  {
    match s case Top => 0 case Bottom => 1 case Left => 2 case Right => 3
  }

  /**
   * checkPlatformCollision: nothing unless the boxes overlap strictly;
   * otherwise the first side, in the order top, bottom, left, right, that
   * has the minimum overlap and matches the velocity's sign, together with
   * its overlap; nothing if no side qualifies.
   */
  function CheckPlatformCollision(b: Body, p: Platform): (r: Option<Collision>)
    ensures !CheckCollision(Bounds(b), Bounds(p.body)) ==> r.None?
    ensures r.Some? <==>
      CheckCollision(Bounds(b), Bounds(p.body)) &&
      (Qualifies(b, p, Top) || Qualifies(b, p, Bottom) || Qualifies(b, p, Left) || Qualifies(b, p, Right))
    ensures r.Some? ==>
      Qualifies(b, p, r.value.side) &&
      r.value.overlap == Overlap(b, p, r.value.side) &&
      forall s: Side :: Rank(s) < Rank(r.value.side) ==> !Qualifies(b, p, s)
  {
    if !CheckCollision(Bounds(b), Bounds(p.body)) then None
    else
      var overlapLeft := Overlap(b, p, Left);
      var overlapRight := Overlap(b, p, Right);
      var overlapTop := Overlap(b, p, Top);
      var overlapBottom := Overlap(b, p, Bottom);
      var minOverlap := MinOverlap(b, p);
      if minOverlap == overlapTop && b.vy > 0.0 then Some(Collision(Top, overlapTop))
      else if minOverlap == overlapBottom && b.vy < 0.0 then Some(Collision(Bottom, overlapBottom))
      else if minOverlap == overlapLeft && b.vx > 0.0 then Some(Collision(Left, overlapLeft))
      else if minOverlap == overlapRight && b.vx < 0.0 then Some(Collision(Right, overlapRight))
      else None
  }

  /** The overlap checkPlatformCollision reports is never larger than any other side's. */
  lemma ReportedOverlapIsLeast(b: Body, p: Platform)
    requires CheckPlatformCollision(b, p).Some?
    ensures forall s: Side :: CheckPlatformCollision(b, p).value.overlap <= Overlap(b, p, s)
  {
    var c := CheckPlatformCollision(b, p).value;
    forall s: Side ensures c.overlap <= Overlap(b, p, s) {
      assert c.overlap == MinOverlap(b, p);
    }
  }

  // ---------------------------------------------------------------------
  // Resolution

  /**
   * resolveCollision: snaps the entity flush against the reported side and
   * stops it on that axis; the other axis is untouched. Only a top
   * resolution puts the entity on the ground.
   */
  function ResolveCollision(b: Body, c: Collision, p: Platform): (r: Body)
    ensures c.side in {Top, Bottom} ==> r.x == b.x && r.vx == b.vx && r.vy == 0.0
    ensures c.side in {Left, Right} ==> r.y == b.y && r.vy == b.vy && r.vx == 0.0
    ensures c.side == Top ==> r.y + r.height == p.body.y && r.onGround
    ensures c.side == Bottom ==> r.y == p.body.y + p.body.height
    ensures c.side == Left ==> r.x + r.width == p.body.x
    ensures c.side == Right ==> r.x == p.body.x + p.body.width
    ensures c.side != Top ==> r.onGround == b.onGround
    ensures r.width == b.width && r.height == b.height && r.active == b.active
  {
    match c.side
    case Top => b.(y := p.body.y - b.height, vy := 0.0, onGround := true)
    case Bottom => b.(y := p.body.y + p.body.height, vy := 0.0)
    case Left => b.(x := p.body.x - b.width, vx := 0.0)
    case Right => b.(x := p.body.x + p.body.width, vx := 0.0)
  }

  /** After any resolution the entity no longer overlaps that platform. */
  lemma ResolveSeparates(b: Body, c: Collision, p: Platform)
    ensures !CheckCollision(Bounds(ResolveCollision(b, c, p)), Bounds(p.body))
  {
    var r := ResolveCollision(b, c, p);
    match c.side
    case Top => assert r.y + r.height == p.body.y;
    case Bottom => assert r.y == p.body.y + p.body.height;
    case Left => assert r.x + r.width == p.body.x;
    case Right => assert r.x == p.body.x + p.body.width;
  }

  /** Resolving what checkPlatformCollision reported moves the entity by exactly the reported overlap, outwards. */
  lemma ResolveMovesByOverlap(b: Body, p: Platform)
    requires CheckPlatformCollision(b, p).Some?
    ensures var c := CheckPlatformCollision(b, p).value;
      var r := ResolveCollision(b, c, p);
      match c.side
      case Top => b.y - r.y == c.overlap && c.overlap > 0.0
      case Bottom => r.y - b.y == c.overlap && c.overlap > 0.0
      case Left => b.x - r.x == c.overlap && c.overlap > 0.0
      case Right => r.x - b.x == c.overlap && c.overlap > 0.0
  {
  }

  // ---------------------------------------------------------------------
  // One physics step

  /**
   * The part of update before collisions: onGround is cleared first, so
   * gravity always applies and friction never does; then the position
   * advances by the new velocity.
   */
  function Integrate(b: Body): (r: Body)
    ensures r.vx == b.vx
    ensures r.vy == Min(b.vy + GRAVITY, MAX_FALL_SPEED)
    ensures r.x == b.x + r.vx && r.y == b.y + r.vy
    ensures !r.onGround && r.width == b.width && r.height == b.height && r.active == b.active
  {
    var e := ApplyFriction(ApplyGravity(b.(onGround := false)));
    e.(x := e.x + e.vx, y := e.y + e.vy)
  }

  function ResolveAgainst(b: Body, p: Platform): Body
  {
    match CheckPlatformCollision(b, p)
    case None => b
    case Some(c) => ResolveCollision(b, c, p)
  }

  /** Platforms are handled one after another in list order, with no second pass. */
  function ResolveAll(b: Body, ps: seq<Platform>): (r: Body)
    ensures r.width == b.width && r.height == b.height && r.active == b.active
    decreases |ps|
  {
    if |ps| == 0 then b else ResolveAgainst(ResolveAll(b, ps[..|ps| - 1]), ps[|ps| - 1])
  }

  /** The hard floor: nothing falls below y = 800. */
  function Floor(b: Body): (r: Body)
    ensures r.y <= WORLD_FLOOR
    ensures b.y > WORLD_FLOOR ==> r == b.(y := WORLD_FLOOR, vy := 0.0, onGround := true)
    ensures b.y <= WORLD_FLOOR ==> r == b
  {
    if b.y > WORLD_FLOOR then b.(y := WORLD_FLOOR, vy := 0.0, onGround := true) else b
  }

  /** PhysicsEngine.update as a function of the entity and the platform list. */
  function Step(b: Body, ps: seq<Platform>): Body
  {
    Floor(ResolveAll(Integrate(b), ps))
  }

  /** PhysicsEngine.update. */
  method Update(b: Body, platforms: seq<Platform>) returns (r: Body)
    ensures r == Step(b, platforms)
  {
    var e := b.(onGround := false);
    e := ApplyGravity(e);
    e := ApplyFriction(e);
    e := e.(x := e.x + e.vx);
    e := e.(y := e.y + e.vy);
    e := ResolvePlatforms(e, platforms);
    if e.y > WORLD_FLOOR {
      e := e.(y := WORLD_FLOOR, vy := 0.0, onGround := true);
    }
    r := e;
  }

  /** The collision pass of update: each platform in list order, once. */
  method ResolvePlatforms(b: Body, platforms: seq<Platform>) returns (r: Body)
    ensures r == ResolveAll(b, platforms)
  {
    r := b;
    var i := 0;
    while i < |platforms|
      invariant 0 <= i <= |platforms|
      invariant r == ResolveAll(b, platforms[..i])
    {
      var collision := CheckPlatformCollision(r, platforms[i]);
      if collision.Some? {
        r := ResolveCollision(r, collision.value, platforms[i]);
      }
      assert platforms[..i + 1][..i] == platforms[..i];
      i := i + 1;
    }
    assert platforms[..|platforms|] == platforms;
  }

  /**
   * After a step the entity is at or above the floor; it stands on the
   * ground only if a top resolution or the floor put it there; friction has
   * not touched its horizontal speed unless a side collision stopped it.
   */
  lemma {:induction false} StepFacts(b: Body, ps: seq<Platform>)
    ensures var r := Step(b, ps);
      r.y <= WORLD_FLOOR &&
      (r.vx == b.vx || r.vx == 0.0) &&
      (ResolveAll(Integrate(b), ps).y > WORLD_FLOOR ==> r.vy == 0.0 && r.onGround)
  {
    ResolveAllVx(Integrate(b), ps);
  }

  lemma {:induction false} ResolveAllVx(b: Body, ps: seq<Platform>)
    ensures ResolveAll(b, ps).vx == b.vx || ResolveAll(b, ps).vx == 0.0
    decreases |ps|
  {
    if |ps| > 0 {
      ResolveAllVx(b, ps[..|ps| - 1]);
    }
  }

  /** An entity only ends a step on the ground through a top resolution or the floor. */
  lemma {:induction false} GroundedOnlyByTopOrFloor(b: Body, ps: seq<Platform>)
    requires !b.onGround
    ensures ResolveAll(b, ps).onGround ==>
      exists k :: 0 <= k < |ps| && CheckPlatformCollision(ResolveAll(b, ps[..k]), ps[k]) == Some(Collision(Top, Overlap(ResolveAll(b, ps[..k]), ps[k], Top)))
    decreases |ps|
  {
    if |ps| > 0 {
      var n := |ps| - 1;
      var prev := ResolveAll(b, ps[..n]);
      assert ps[..n][..n] == ps[..n];
      if ResolveAll(b, ps).onGround && !prev.onGround {
        assert CheckPlatformCollision(prev, ps[n]).Some?;
        assert CheckPlatformCollision(prev, ps[n]).value.side == Top;
      } else if prev.onGround {
        GroundedOnlyByTopOrFloor(b, ps[..n]);
        var k :| 0 <= k < n && CheckPlatformCollision(ResolveAll(b, ps[..n][..k]), ps[..n][k]) == Some(Collision(Top, Overlap(ResolveAll(b, ps[..n][..k]), ps[..n][k], Top)));
        assert ps[..n][..k] == ps[..k];
      }
    }
  }

  /**
   * An entity standing still exactly on a platform's top stays there for
   * the next step: gravity pushes it 0.6 in, the top side is reported, and
   * it is put back flush, grounded and at rest vertically.
   */
  lemma RestingOnPlatform(b: Body, p: Platform)
    requires b.vy == 0.0 && b.vx == 0.0 && b.y + b.height == p.body.y
    requires b.x + b.width - p.body.x >= GRAVITY && p.body.x + p.body.width - b.x >= GRAVITY
    requires b.height > 0.0 && b.height + p.body.height >= 2.0 * GRAVITY
    requires p.body.y <= WORLD_FLOOR
    ensures var r := Step(b, [p]);
      r.y + r.height == p.body.y && r.vy == 0.0 && r.onGround && r.x == b.x
  {
    var e := Integrate(b);
    assert e.y == b.y + GRAVITY && e.vy == GRAVITY && e.x == b.x;
    assert [p][..0] == [];
    assert ResolveAll(e, []) == e;
    assert CheckCollision(Bounds(e), Bounds(p.body));
    assert Overlap(e, p, Top) == GRAVITY;
    assert MinOverlap(e, p) == GRAVITY;
    assert Qualifies(e, p, Top);
    assert CheckPlatformCollision(e, p) == Some(Collision(Top, GRAVITY));
    var r := ResolveCollision(e, Collision(Top, GRAVITY), p);
    assert ResolveAll(e, [p]) == r;
    assert r.y <= WORLD_FLOOR;
  }

  /**
   * The outcome depends on the order of the platform list: an entity falling
   * onto two overlapping platforms whose tops are one unit apart comes to
   * rest on whichever of them is listed first. Once it has landed its
   * vertical speed is zero, so the deeper overlap with the other platform is
   * no longer resolved.
   */
  lemma PlatformOrderMatters()
    ensures var b := Body(0.0, 0.0, 10.0, 10.0, 0.0, 5.0, false, true);
      var low := Platform(NewBody(-100.0, 12.0, 200.0, 10.0), DEFAULT_PLATFORM_COLOR);
      var high := Platform(NewBody(-100.0, 11.0, 200.0, 10.0), DEFAULT_PLATFORM_COLOR);
      Step(b, [low, high]).y == 2.0 && Step(b, [high, low]).y == 1.0
  {
    var b := Body(0.0, 0.0, 10.0, 10.0, 0.0, 5.0, false, true);
    var low := Platform(NewBody(-100.0, 12.0, 200.0, 10.0), DEFAULT_PLATFORM_COLOR);
    var high := Platform(NewBody(-100.0, 11.0, 200.0, 10.0), DEFAULT_PLATFORM_COLOR);
    var e := Integrate(b);
    assert e == Body(0.0, 5.6, 10.0, 10.0, 0.0, 5.6, false, true);
    // low first: lands on it with top overlap 3.6; the high platform then
    // still overlaps by 1.0 on top, but the entity is no longer moving down.
    assert MinOverlap(e, low) == 3.6;
    assert CheckPlatformCollision(e, low) == Some(Collision(Top, 3.6));
    var e1 := ResolveCollision(e, Collision(Top, 3.6), low);
    assert e1 == Body(0.0, 2.0, 10.0, 10.0, 0.0, 0.0, true, true);
    assert MinOverlap(e1, high) == 1.0;
    assert CheckPlatformCollision(e1, high) == None;
    assert [low, high][..1] == [low] && [low][..0] == [];
    assert ResolveAll(e, [low]) == e1;
    assert ResolveAll(e, [low, high]) == e1;
    // high first: lands on it with top overlap 4.6 and clears the low one.
    assert MinOverlap(e, high) == 4.6;
    assert CheckPlatformCollision(e, high) == Some(Collision(Top, 4.6));
    var e2 := ResolveCollision(e, Collision(Top, 4.6), high);
    assert e2 == Body(0.0, 1.0, 10.0, 10.0, 0.0, 0.0, true, true);
    assert CheckPlatformCollision(e2, low) == None;
    assert [high, low][..1] == [high] && [high][..0] == [];
    assert ResolveAll(e, [high]) == e2;
    assert ResolveAll(e, [high, low]) == e2;
  }

  // ---------------------------------------------------------------------
  // Free fall with no platforms

  function Fall(b: Body, n: nat): Body
  {
    if n == 0 then b else Step(Fall(b, n - 1), [])
  }

  /** Distance fallen from rest in n frames: the sum of min(0.6 k, 15) for k = 1..n. */
  function FallDistance(n: nat): (d: real)
    ensures d >= 0.0
  {
    if n == 0 then 0.0 else FallDistance(n - 1) + Min(GRAVITY * (n as real), MAX_FALL_SPEED)
  }

  /**
   * Dropped from rest with no platforms, after n frames (as long as the
   * floor is not reached) the entity falls at min(0.6 n, 15), has dropped
   * FallDistance(n), and has drifted n times its unchanged horizontal speed.
   */
  lemma {:induction false} FreeFall(b: Body, n: nat)
    requires b.vy == 0.0 && b.y + FallDistance(n) <= WORLD_FLOOR
    ensures var f := Fall(b, n);
      f.vy == Min(GRAVITY * (n as real), MAX_FALL_SPEED) &&
      f.y == b.y + FallDistance(n) &&
      f.vx == b.vx && f.x == b.x + (n as real) * b.vx
  {
    FreeDrop(b, n);
    FreeDrift(b, n);
  }

  lemma {:induction false} FreeDrop(b: Body, n: nat)
    requires b.vy == 0.0 && b.y + FallDistance(n) <= WORLD_FLOOR
    ensures Fall(b, n).vy == Min(GRAVITY * (n as real), MAX_FALL_SPEED)
    ensures Fall(b, n).y == b.y + FallDistance(n)
  {
    if n > 0 {
      assert FallDistance(n - 1) <= FallDistance(n);
      FreeDrop(b, n - 1);
      var g := Integrate(Fall(b, n - 1));
      assert g.vy == Min(GRAVITY * (n as real), MAX_FALL_SPEED);
      assert Fall(b, n) == g by {
        assert ResolveAll(g, []) == g;
      }
    }
  }

  /**
   * With no platforms friction never applies (onGround is cleared before it
   * is consulted), so the horizontal speed never changes, floor or not.
   */
  lemma {:induction false} FreeDrift(b: Body, n: nat)
    ensures Fall(b, n).vx == b.vx && Fall(b, n).x == b.x + (n as real) * b.vx
  {
    if n > 0 {
      FreeDrift(b, n - 1);
      var f := Fall(b, n - 1);
      assert ResolveAll(Integrate(f), []) == Integrate(f);
      assert Fall(b, n).x == f.x + b.vx;
      assert (n as real) * b.vx == ((n - 1) as real) * b.vx + b.vx;
    }
  }
}
