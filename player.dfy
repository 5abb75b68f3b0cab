/**
 * The player of Crystal Rush (js/player.js): input-driven acceleration,
 * an edge-triggered jump that is cut short when the button is released,
 * a walking animation, an invincibility window after damage, lives and
 * coins.
 *
 * Keyboard and touch input reach the player as an Input triple. Sounds the
 * player triggers (jump, hurt, power-up) are side effects not modelled here.
 */
module Players {
  import opened Utils
  import opened Entities
  import Physics

  const PLAYER_WIDTH: real := 40.0
  const PLAYER_HEIGHT: real := 50.0
  const SPEED: real := 5.0
  const JUMP_POWER: real := -13.0
  const MAX_SPEED: real := 8.0
  const ANIMATION_SPEED: real := 0.15
  const START_LIVES: int := 3
  const INVINCIBLE_FRAMES: int := 120
  const RESET_X: real := 100.0
  const RESET_Y: real := 300.0

  /** The state of the controls during one frame. */
  datatype Input = Input(left: bool, right: bool, jump: bool)

  datatype PlayerState = PlayerState(
    body: Body,
    facing: int,
    jumping: bool,
    canJump: bool,
    invincible: bool,
    invincibleTimer: int,
    animationFrame: int,
    animationTimer: real,
    lives: int,
    coins: int)

  function NewPlayerState(x: real, y: real): (s: PlayerState)
    ensures s.body == NewBody(x, y, PLAYER_WIDTH, PLAYER_HEIGHT)
    ensures s.facing == 1 && !s.jumping && s.canJump
    ensures !s.invincible && s.invincibleTimer == 0
    ensures s.animationFrame == 0 && s.animationTimer == 0.0
    ensures s.lives == START_LIVES && s.coins == 0
  {
    PlayerState(NewBody(x, y, PLAYER_WIDTH, PLAYER_HEIGHT), 1, false, true, false, 0, 0, 0.0, START_LIVES, 0)
  }

  // ---------------------------------------------------------------------
  // handleInput

  /** Horizontal part of handleInput: left wins over right; each press adds half the speed, up to 8. */
  function Steer(s: PlayerState, input: Input): (r: PlayerState)
    ensures input.left ==> r == s.(body := s.body.(vx := Max(s.body.vx - SPEED * 0.5, -MAX_SPEED)), facing := -1)
    ensures !input.left && input.right ==> r == s.(body := s.body.(vx := Min(s.body.vx + SPEED * 0.5, MAX_SPEED)), facing := 1)
    ensures !input.left && !input.right ==> r == s
  {
    if input.left then
      s.(body := s.body.(vx := Max(s.body.vx - SPEED * 0.5, -MAX_SPEED)), facing := -1)
    else if input.right then
      s.(body := s.body.(vx := Min(s.body.vx + SPEED * 0.5, MAX_SPEED)), facing := 1)
    else s
  }

  /** A jump starts only when the button is held, the player stands on something and the button was released since the last jump. */
  predicate JumpFires(s: PlayerState, input: Input)
  {
    input.jump && s.body.onGround && s.canJump
  }

  /** Vertical part of handleInput: jump, early-release cut, and re-arming. */
  function Jump(s: PlayerState, input: Input): (r: PlayerState)
    ensures r.body.x == s.body.x && r.body.y == s.body.y && r.body.vx == s.body.vx && r.facing == s.facing
    ensures JumpFires(s, input) ==>
      r.body.vy == JUMP_POWER && r.jumping && !r.canJump && !r.body.onGround
    ensures input.jump && !JumpFires(s, input) ==> r == s
    ensures !input.jump ==> r.canJump && r.body.onGround == s.body.onGround
    ensures !input.jump && s.jumping && s.body.vy < 0.0 ==> r.body.vy == s.body.vy * 0.5 && !r.jumping
    ensures !input.jump && !(s.jumping && s.body.vy < 0.0) ==> r.body.vy == s.body.vy && r.jumping == s.jumping
    ensures r.lives == s.lives && r.coins == s.coins && r.invincible == s.invincible && r.invincibleTimer == s.invincibleTimer
  {
    var s1 := if JumpFires(s, input)
      then s.(body := s.body.(vy := JUMP_POWER, onGround := false), jumping := true, canJump := false)
      else s;
    var s2 := if !input.jump && s1.jumping && s1.body.vy < 0.0
      then s1.(body := s1.body.(vy := s1.body.vy * 0.5), jumping := false)
      else s1;
    if !input.jump then s2.(canJump := true) else s2
  }

  /** handleInput touches only the movement state: the body, facing and the jump flags. */
  function HandleInputSpec(s: PlayerState, input: Input): (r: PlayerState)
    ensures r == s.(body := r.body, facing := r.facing, jumping := r.jumping, canJump := r.canJump)
  {
    Jump(Steer(s, input), input)
  }

  /** Within the speed limit before, within it after. */
  lemma HandleInputKeepsSpeedLimit(s: PlayerState, input: Input)
    requires -MAX_SPEED <= s.body.vx <= MAX_SPEED
    ensures -MAX_SPEED <= HandleInputSpec(s, input).body.vx <= MAX_SPEED
  {
  }

  /**
   * Holding jump continuously gives one jump: after a jump has fired, a
   * frame that still holds the button does not fire another, even on the
   * ground; releasing the button for one frame re-arms it.
   */
  lemma JumpIsEdgeTriggered(s: PlayerState, input: Input)
    requires JumpFires(s, input)
    ensures var r := HandleInputSpec(s, input);
      !JumpFires(r.(body := r.body.(onGround := true)), input) &&
      JumpFires(HandleInputSpec(r, Input(input.left, input.right, false)).(body := r.body.(onGround := true)), input)
  {
  }

  // ---------------------------------------------------------------------
  // update: animation and invincibility

  /** The walking animation: frames 0..3 advance while moving faster than 0.5; standing still shows frame 0. */
  function Animate(s: PlayerState, deltaTime: real): (r: PlayerState)
    ensures 0 <= s.animationFrame < 4 ==> 0 <= r.animationFrame < 4
    ensures !(s.body.vx > 0.5 || s.body.vx < -0.5) ==> r == s.(animationFrame := 0)
    ensures (s.body.vx > 0.5 || s.body.vx < -0.5) ==>
      var t := s.animationTimer + deltaTime * ANIMATION_SPEED;
      if t >= 1.0 then r.animationFrame == (s.animationFrame + 1) % 4 && r.animationTimer == 0.0
      else r.animationFrame == s.animationFrame && r.animationTimer == t
    ensures r.body == s.body && r.invincible == s.invincible && r.invincibleTimer == s.invincibleTimer
  {
    if s.body.vx > 0.5 || s.body.vx < -0.5 then
      var t := s.animationTimer + deltaTime * ANIMATION_SPEED;
      if t >= 1.0 then s.(animationFrame := (s.animationFrame + 1) % 4, animationTimer := 0.0)
      else s.(animationTimer := t)
    else s.(animationFrame := 0)
  }

  /** One frame of the invincibility countdown. */
  function TickInvincibility(s: PlayerState): (r: PlayerState)
    ensures s.invincible ==> r.invincibleTimer == s.invincibleTimer - 1 && (r.invincible <==> r.invincibleTimer > 0)
    ensures !s.invincible ==> r == s
    ensures r == s.(invincible := r.invincible, invincibleTimer := r.invincibleTimer)
  {
    if s.invincible then
      var t := s.invincibleTimer - 1;
      s.(invincibleTimer := t, invincible := t > 0)
    else s
  }

  /** Player.update: input, then physics, then animation, then the countdown. */
  function PlayerUpdate(s: PlayerState, deltaTime: real, input: Input, platforms: seq<Platform>): (r: PlayerState)
    ensures 0 <= s.animationFrame < 4 ==> 0 <= r.animationFrame < 4
    ensures r.lives == s.lives && r.coins == s.coins
    ensures r.invincible == TickInvincibility(s).invincible && r.invincibleTimer == TickInvincibility(s).invincibleTimer
    ensures r.body == Physics.Step(HandleInputSpec(s, input).body, platforms)
  {
    var s1 := HandleInputSpec(s, input);
    var s2 := s1.(body := Physics.Step(s1.body, platforms));
    var s3 := Animate(s2, deltaTime);
    assert s3 == s.(body := s3.body, facing := s3.facing, jumping := s3.jumping, canJump := s3.canJump,
                    animationFrame := s3.animationFrame, animationTimer := s3.animationTimer);
    TickInvincibility(s3)
  }

  datatype Frame = Frame(deltaTime: real, input: Input)

  /** The player after a sequence of frames. */
  function RunFrames(s: PlayerState, frames: seq<Frame>, platforms: seq<Platform>): PlayerState
    decreases |frames|
  {
    if |frames| == 0 then s
    else RunFrames(PlayerUpdate(s, frames[0].deltaTime, frames[0].input, platforms), frames[1..], platforms)
  }

  /**
   * While invincible with t frames left, each frame takes one off; the
   * player stays invincible until the t-th frame, which ends it.
   */
  lemma {:induction false} InvincibilityCountdown(s: PlayerState, frames: seq<Frame>, platforms: seq<Platform>)
    requires s.invincible && 0 < s.invincibleTimer && |frames| <= s.invincibleTimer
    ensures var r := RunFrames(s, frames, platforms);
      r.invincibleTimer == s.invincibleTimer - |frames| &&
      (r.invincible <==> |frames| < s.invincibleTimer)
    decreases |frames|
  {
    if |frames| > 0 {
      var s1 := PlayerUpdate(s, frames[0].deltaTime, frames[0].input, platforms);
      if |frames| > 1 {
        InvincibilityCountdown(s1, frames[1..], platforms);
      }
    }
  }

  /** The animation frame stays in 0..3 across any number of frames. */
  lemma {:induction false} AnimationFrameInRange(s: PlayerState, frames: seq<Frame>, platforms: seq<Platform>)
    requires 0 <= s.animationFrame < 4
    ensures 0 <= RunFrames(s, frames, platforms).animationFrame < 4
    decreases |frames|
  {
    if |frames| > 0 {
      AnimationFrameInRange(PlayerUpdate(s, frames[0].deltaTime, frames[0].input, platforms), frames[1..], platforms);
    }
  }

  // ---------------------------------------------------------------------
  // takeDamage, collectCoin, reset

  /**
   * takeDamage: ignored while invincible; otherwise one life is lost, 120
   * frames of invincibility start, the player is knocked up and away from
   * where it faces, and the answer is whether no lives remain.
   */
  function TakeDamageSpec(s: PlayerState): (r: (PlayerState, bool))
    ensures s.invincible ==> r == (s, false)
    ensures !s.invincible ==>
      r.0.lives == s.lives - 1 && r.0.invincible && r.0.invincibleTimer == INVINCIBLE_FRAMES &&
      r.0.body.vy == -8.0 && r.0.body.vx == -(s.facing as real) * 5.0 &&
      (r.1 <==> r.0.lives <= 0)
    ensures r.0.coins == s.coins && r.0.facing == s.facing && r.0.body.x == s.body.x && r.0.body.y == s.body.y
    ensures !s.invincible ==>
      r.0 == s.(lives := r.0.lives, invincible := true, invincibleTimer := INVINCIBLE_FRAMES, body := r.0.body) &&
      r.0.body == s.body.(vx := r.0.body.vx, vy := r.0.body.vy)
  {
    if s.invincible then (s, false)
    else
      var t := s.(lives := s.lives - 1, invincible := true, invincibleTimer := INVINCIBLE_FRAMES,
                  body := s.body.(vy := -8.0, vx := -(s.facing as real) * 5.0));
      (t, t.lives <= 0)
  }

  /**
   * One hit costs exactly one life no matter how often it is repeated
   * within the next 119 frames: the second hit finds the player still
   * invincible.
   */
  lemma {:induction false} OneLifePerWindow(s: PlayerState, frames: seq<Frame>, platforms: seq<Platform>)
    requires !s.invincible && |frames| < INVINCIBLE_FRAMES
    ensures var hit := TakeDamageSpec(s).0;
      var later := RunFrames(hit, frames, platforms);
      TakeDamageSpec(later) == (later, false) && later.lives == s.lives - 1
  {
    var hit := TakeDamageSpec(s).0;
    InvincibilityCountdown(hit, frames, platforms);
    LivesUnchangedByFrames(hit, frames, platforms);
  }

  lemma {:induction false} LivesUnchangedByFrames(s: PlayerState, frames: seq<Frame>, platforms: seq<Platform>)
    ensures RunFrames(s, frames, platforms).lives == s.lives
    ensures RunFrames(s, frames, platforms).coins == s.coins
    decreases |frames|
  {
    if |frames| > 0 {
      LivesUnchangedByFrames(PlayerUpdate(s, frames[0].deltaTime, frames[0].input, platforms), frames[1..], platforms);
    }
  }

  /** collectCoin: one more coin, and one more life when the count reaches a multiple of 100. */
  function CollectCoinSpec(s: PlayerState): (r: PlayerState)
    ensures r.coins == s.coins + 1
    ensures r.lives == (if r.coins % 100 == 0 then s.lives + 1 else s.lives)
    ensures r == s.(coins := r.coins, lives := r.lives)
  {
    var c := s.coins + 1;
    if c % 100 == 0 then s.(coins := c, lives := s.lives + 1) else s.(coins := c)
  }

  function CollectCoins(s: PlayerState, n: nat): PlayerState
  {
    if n == 0 then s else CollectCoinSpec(CollectCoins(s, n - 1))
  }

  /**
   * Collecting n coins from a non-negative count c grants one life per
   * multiple of 100 passed: (c + n) / 100 - c / 100 extra lives.
   */
  lemma {:induction false} CoinLives(s: PlayerState, n: nat)
    requires s.coins >= 0
    ensures CollectCoins(s, n).coins == s.coins + n
    ensures CollectCoins(s, n).lives == s.lives + (s.coins + n) / 100 - s.coins / 100
  {
    if n > 0 {
      CoinLives(s, n - 1);
      var c := s.coins + n;
      if c % 100 == 0 {
        assert c / 100 == (c - 1) / 100 + 1;
      } else {
        assert c / 100 == (c - 1) / 100;
      }
    }
  }

  /** reset: back to (100, 300), at rest and vulnerable; lives, coins and everything else are kept. */
  function ResetSpec(s: PlayerState): (r: PlayerState)
    ensures r.body.x == RESET_X && r.body.y == RESET_Y && r.body.vx == 0.0 && r.body.vy == 0.0
    ensures !r.invincible && r.invincibleTimer == 0
    ensures r.lives == s.lives && r.coins == s.coins && r.facing == s.facing
    ensures r.body.onGround == s.body.onGround && r.body.width == s.body.width && r.body.height == s.body.height
    ensures r == s.(body := r.body, invincible := false, invincibleTimer := 0)
  {
    s.(body := s.body.(x := RESET_X, y := RESET_Y, vx := 0.0, vy := 0.0), invincible := false, invincibleTimer := 0)
  }

  // ---------------------------------------------------------------------
  // The player object

  class Player {
    var body: Body
    var facing: int
    var jumping: bool
    var canJump: bool
    var invincible: bool
    var invincibleTimer: int
    var animationFrame: int
    var animationTimer: real
    var lives: int
    var coins: int

    function Model(): PlayerState
      reads this
    {
      PlayerState(body, facing, jumping, canJump, invincible, invincibleTimer,
                  animationFrame, animationTimer, lives, coins)
    }

    constructor (x: real, y: real)
      ensures Model() == NewPlayerState(x, y)
    {
      body := NewBody(x, y, PLAYER_WIDTH, PLAYER_HEIGHT);
      facing := 1;
      jumping := false;
      canJump := true;
      invincible := false;
      invincibleTimer := 0;
      animationFrame := 0;
      animationTimer := 0.0;
      lives := START_LIVES;
      coins := 0;
    }

    method HandleInput(input: Input)
      modifies this`body, this`facing, this`jumping, this`canJump
      ensures Model() == HandleInputSpec(old(Model()), input)
    {
      if input.left {
        body := body.(vx := Max(body.vx - SPEED * 0.5, -MAX_SPEED));
        facing := -1;
      } else if input.right {
        body := body.(vx := Min(body.vx + SPEED * 0.5, MAX_SPEED));
        facing := 1;
      }
      if input.jump && body.onGround && canJump {
        body := body.(vy := JUMP_POWER);
        jumping := true;
        canJump := false;
        body := body.(onGround := false);
      }
      if !input.jump && jumping && body.vy < 0.0 {
        body := body.(vy := body.vy * 0.5);
        jumping := false;
      }
      if !input.jump {
        canJump := true;
      }
    }

    method Update(deltaTime: real, input: Input, platforms: seq<Platform>)
      modifies this`body, this`facing, this`jumping, this`canJump, this`animationFrame, this`animationTimer, this`invincible, this`invincibleTimer
      ensures Model() == PlayerUpdate(old(Model()), deltaTime, input, platforms)
    {
      HandleInput(input);
      body := Physics.Update(body, platforms);
      Animation(deltaTime);
      Invincibility();
    }

    /** The walk-cycle part of update. */
    method Animation(deltaTime: real)
      modifies this`animationFrame, this`animationTimer
      ensures Model() == Animate(old(Model()), deltaTime)
    {
      if body.vx > 0.5 || body.vx < -0.5 {
        animationTimer := animationTimer + deltaTime * ANIMATION_SPEED;
        if animationTimer >= 1.0 {
          animationFrame := (animationFrame + 1) % 4;
          animationTimer := 0.0;
        }
      } else {
        animationFrame := 0;
      }
    }

    /** The invincibility countdown part of update. */
    method Invincibility()
      modifies this`invincible, this`invincibleTimer
      ensures Model() == TickInvincibility(old(Model()))
    {
      if invincible {
        invincibleTimer := invincibleTimer - 1;
        if invincibleTimer <= 0 {
          invincible := false;
        }
      }
    }

    method TakeDamage() returns (dead: bool)
      modifies this`lives, this`invincible, this`invincibleTimer, this`body
      ensures (Model(), dead) == TakeDamageSpec(old(Model()))
    {
      if invincible {
        return false;
      }
      lives := lives - 1;
      invincible := true;
      invincibleTimer := INVINCIBLE_FRAMES;
      body := body.(vy := -8.0);
      body := body.(vx := -(facing as real) * 5.0);
      dead := lives <= 0;
    }

    method CollectCoin()
      modifies this`coins, this`lives
      ensures Model() == CollectCoinSpec(old(Model()))
    {
      coins := coins + 1;
      if coins % 100 == 0 {
        lives := lives + 1;
      }
    }

    method Reset()
      modifies this`body, this`invincible, this`invincibleTimer
      ensures Model() == ResetSpec(old(Model()))
    {
      body := body.(x := RESET_X, y := RESET_Y);
      body := body.(vx := 0.0, vy := 0.0);
      invincible := false;
      invincibleTimer := 0;
    }
  }
}
