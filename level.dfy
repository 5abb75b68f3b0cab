/**
 * Levels of Crystal Rush (js/level.js): a level is built from a plain data
 * description — size, start and goal positions, time limit, and lists of
 * platforms, coins, crystals and enemies — and updates its collectibles
 * and its living enemies every frame. The level manager loads levels by key
 * from the LEVELS table.
 *
 * Absent fields of the description are None. A JavaScript `||` default also
 * replaces present but falsy values (0, the empty string), and the model
 * does the same.
 */
module Levels {
  import opened Utils
  import opened Entities
  import Physics
  import opened Enemies

  // ---------------------------------------------------------------------
  // Level descriptions

  datatype PlatformData = PlatformData(x: real, y: real, width: real, height: real, color: Option<string>)
  datatype CoinData = CoinData(x: real, y: real)
  datatype CrystalData = CrystalData(x: real, y: real, color: Option<string>)
  datatype EnemyData = EnemyData(kind: string, x: real, y: real)

  datatype LevelData = LevelData(
    name: Option<string>,
    world: Option<int>,
    width: Option<real>,
    height: Option<real>,
    startX: Option<real>,
    startY: Option<real>,
    goalX: Option<real>,
    timeLimit: Option<int>,
    platforms: Option<seq<PlatformData>>,
    coins: Option<seq<CoinData>>,
    crystals: Option<seq<CrystalData>>,
    enemies: Option<seq<EnemyData>>)

  const DEFAULT_WIDTH: real := 3000.0
  const DEFAULT_HEIGHT: real := 600.0
  const DEFAULT_START_X: real := 100.0
  const DEFAULT_START_Y: real := 300.0
  const DEFAULT_GOAL_X: real := 2800.0
  const DEFAULT_NAME: string := "Level 1"
  const DEFAULT_WORLD: int := 1
  const DEFAULT_TIME_LIMIT: int := 300
  /** The goal counts as reached this far before the goal line. */
  const GOAL_MARGIN: real := 50.0

  /** `value || fallback` for a number: a missing or zero value gives the fallback. */
  function OrReal(v: Option<real>, fallback: real): (r: real)
    ensures v.Some? && v.value != 0.0 ==> r == v.value
    ensures v.None? || v.value == 0.0 ==> r == fallback
  {
    if v.Some? && v.value != 0.0 then v.value else fallback
  }

  function OrInt(v: Option<int>, fallback: int): (r: int)
    ensures v.Some? && v.value != 0 ==> r == v.value
    ensures v.None? || v.value == 0 ==> r == fallback
  {
    if v.Some? && v.value != 0 then v.value else fallback
  }

  function OrString(v: Option<string>, fallback: string): (r: string)
    ensures v.Some? && v.value != "" ==> r == v.value
    ensures v.None? || v.value == "" ==> r == fallback
  {
    if v.Some? && v.value != "" then v.value else fallback
  }

  // ---------------------------------------------------------------------
  // Building a level

  /** The state of a built level. */
  datatype LevelState = LevelState(
    width: real,
    height: real,
    startX: real,
    startY: real,
    goalX: real,
    name: string,
    world: int,
    timeLimit: int,
    platforms: seq<Platform>,
    coins: seq<CoinState>,
    crystals: seq<CrystalState>,
    enemies: seq<EnemyState>)

  function MakePlatforms(ds: seq<PlatformData>): (r: seq<Platform>)
    ensures |r| == |ds|
    ensures forall i :: 0 <= i < |ds| ==> r[i] == NewPlatform(ds[i].x, ds[i].y, ds[i].width, ds[i].height, ds[i].color)
  {
    if |ds| == 0 then []
    else MakePlatforms(ds[..|ds| - 1]) + [NewPlatform(ds[|ds| - 1].x, ds[|ds| - 1].y, ds[|ds| - 1].width, ds[|ds| - 1].height, ds[|ds| - 1].color)]
  }

  function MakeCoins(ds: seq<CoinData>): (r: seq<CoinState>)
    ensures |r| == |ds|
    ensures forall i :: 0 <= i < |ds| ==> r[i] == NewCoinState(ds[i].x, ds[i].y)
  {
    if |ds| == 0 then [] else MakeCoins(ds[..|ds| - 1]) + [NewCoinState(ds[|ds| - 1].x, ds[|ds| - 1].y)]
  }

  function MakeCrystals(ds: seq<CrystalData>): (r: seq<CrystalState>)
    ensures |r| == |ds|
    ensures forall i :: 0 <= i < |ds| ==> r[i] == NewCrystalState(ds[i].x, ds[i].y, ds[i].color)
  {
    if |ds| == 0 then [] else MakeCrystals(ds[..|ds| - 1]) + [NewCrystalState(ds[|ds| - 1].x, ds[|ds| - 1].y, ds[|ds| - 1].color)]
  }

  /** The enemy an entry spawns: 'sprite', 'golem' and 'moth' are known; any other type spawns nothing. */
  function SpawnEnemy(d: EnemyData): (r: Option<EnemyState>)
    ensures d.kind == "sprite" ==> r == Some(NewSprite(d.x, d.y))
    ensures d.kind == "golem" ==> r == Some(NewGolem(d.x, d.y))
    ensures d.kind == "moth" ==> r == Some(NewMoth(d.x, d.y))
    ensures r.None? <==> d.kind !in {"sprite", "golem", "moth"}
  {
    if d.kind == "sprite" then Some(NewSprite(d.x, d.y))
    else if d.kind == "golem" then Some(NewGolem(d.x, d.y))
    else if d.kind == "moth" then Some(NewMoth(d.x, d.y))
    else None
  }

  predicate KnownKind(d: EnemyData)
  {
    d.kind in {"sprite", "golem", "moth"}
  }

  /** The enemies of a level: one per known entry, in the order of the entries. */
  function SpawnAll(ds: seq<EnemyData>): (r: seq<EnemyState>)
    ensures |r| <= |ds|
    ensures forall e :: e in r ==> e.kind.Sprite? || e.kind.Golem? || e.kind.Moth?
  {
    if |ds| == 0 then []
    else
      var rest := SpawnAll(ds[..|ds| - 1]);
      match SpawnEnemy(ds[|ds| - 1])
      case Some(e) => rest + [e]
      case None => rest
  }

  /** The number of entries of a known type. */
  function KnownCount(ds: seq<EnemyData>): nat
  {
    if |ds| == 0 then 0 else KnownCount(ds[..|ds| - 1]) + (if KnownKind(ds[|ds| - 1]) then 1 else 0)
  }

  /** Exactly one enemy per entry of a known type: unknown types are dropped, not counted. */
  lemma {:induction false} SpawnAllCount(ds: seq<EnemyData>)
    ensures |SpawnAll(ds)| == KnownCount(ds)
  {
    if |ds| > 0 {
      SpawnAllCount(ds[..|ds| - 1]);
    }
  }

  /** When every entry has a known type, the i-th entry spawns the i-th enemy. */
  lemma {:induction false} SpawnAllKnown(ds: seq<EnemyData>)
    requires forall i :: 0 <= i < |ds| ==> KnownKind(ds[i])
    ensures |SpawnAll(ds)| == |ds|
    ensures forall i :: 0 <= i < |ds| ==> Some(SpawnAll(ds)[i]) == SpawnEnemy(ds[i])
  {
    if |ds| > 0 {
      SpawnAllKnown(ds[..|ds| - 1]);
    }
  }

  function OrEmpty<T>(v: Option<seq<T>>): (r: seq<T>)
    ensures v.Some? ==> r == v.value
    ensures v.None? ==> r == []
  {
    if v.Some? then v.value else []
  }

  /**
   * The Level constructor together with buildLevel: every property falls back
   * to its default when missing or falsy, and the platforms, coins and
   * crystals follow the description's lists one for one.
   */
  function BuildLevel(data: LevelData): (s: LevelState)
    ensures s.width == OrReal(data.width, DEFAULT_WIDTH) && s.height == OrReal(data.height, DEFAULT_HEIGHT)
    ensures s.startX == OrReal(data.startX, DEFAULT_START_X) && s.startY == OrReal(data.startY, DEFAULT_START_Y)
    ensures s.goalX == OrReal(data.goalX, DEFAULT_GOAL_X) && s.timeLimit == OrInt(data.timeLimit, DEFAULT_TIME_LIMIT)
    ensures s.name == OrString(data.name, DEFAULT_NAME) && s.world == OrInt(data.world, DEFAULT_WORLD)
    ensures |s.platforms| == |OrEmpty(data.platforms)| && |s.coins| == |OrEmpty(data.coins)|
    ensures |s.crystals| == |OrEmpty(data.crystals)| && |s.enemies| <= |OrEmpty(data.enemies)|
    ensures forall i :: 0 <= i < |s.coins| ==> s.coins[i].body.active && s.coins[i].body.x == OrEmpty(data.coins)[i].x
  {
    LevelState(
      OrReal(data.width, DEFAULT_WIDTH),
      OrReal(data.height, DEFAULT_HEIGHT),
      OrReal(data.startX, DEFAULT_START_X),
      OrReal(data.startY, DEFAULT_START_Y),
      OrReal(data.goalX, DEFAULT_GOAL_X),
      OrString(data.name, DEFAULT_NAME),
      OrInt(data.world, DEFAULT_WORLD),
      OrInt(data.timeLimit, DEFAULT_TIME_LIMIT),
      MakePlatforms(OrEmpty(data.platforms)),
      MakeCoins(OrEmpty(data.coins)),
      MakeCrystals(OrEmpty(data.crystals)),
      SpawnAll(OrEmpty(data.enemies)))
  }

  /** An empty description gives the default level: 3000 by 600, start (100, 300), goal 2800, 300 seconds, nothing in it. */
  lemma EmptyDescriptionDefaults()
    ensures var s := BuildLevel(LevelData(None, None, None, None, None, None, None, None, None, None, None, None));
      s.width == 3000.0 && s.height == 600.0 && s.startX == 100.0 && s.startY == 300.0 &&
      s.goalX == 2800.0 && s.timeLimit == 300 && s.name == "Level 1" && s.world == 1 &&
      s.platforms == [] && s.coins == [] && s.crystals == [] && s.enemies == []
  {
  }

  // ---------------------------------------------------------------------
  // Per-frame behaviour

  /** checkGoalReached: the player is past 50 before the goal line. */
  function GoalReached(s: LevelState, player: Body): (b: bool)
    ensures b <==> player.x - s.goalX > -GOAL_MARGIN
  {
    player.x > s.goalX - GOAL_MARGIN
  }

  /** Once reached, the goal stays reached for every position farther right. */
  lemma GoalReachedMonotone(s: LevelState, p: Body, q: Body)
    requires GoalReached(s, p) && q.x >= p.x
    ensures GoalReached(s, q)
  {
  }

  function SpinAll(cs: seq<CoinState>, sin: real -> real): (r: seq<CoinState>)
    ensures |r| == |cs| && forall i :: 0 <= i < |cs| ==> r[i] == CoinSpin(cs[i], sin)
  {
    if |cs| == 0 then [] else SpinAll(cs[..|cs| - 1], sin) + [CoinSpin(cs[|cs| - 1], sin)]
  }

  function GlowAll(cs: seq<CrystalState>): (r: seq<CrystalState>)
    ensures |r| == |cs| && forall i :: 0 <= i < |cs| ==> r[i] == Glow(cs[i])
  {
    if |cs| == 0 then [] else GlowAll(cs[..|cs| - 1]) + [Glow(cs[|cs| - 1])]
  }

  /** An enemy's frame in the level: only active enemies move. */
  function EnemyTurn(e: EnemyState, platforms: seq<Platform>, sin: real -> real): (r: EnemyState)
    ensures !e.body.active ==> r == e
    ensures e.body.active ==> r == EnemyUpdate(e, platforms, sin)
    ensures r.body.active == e.body.active
  {
    if e.body.active then EnemyUpdate(e, platforms, sin) else e
  }

  function EnemiesTurn(es: seq<EnemyState>, platforms: seq<Platform>, sin: real -> real): (r: seq<EnemyState>)
    ensures |r| == |es| && forall i :: 0 <= i < |es| ==> r[i] == EnemyTurn(es[i], platforms, sin)
  {
    if |es| == 0 then [] else EnemiesTurn(es[..|es| - 1], platforms, sin) + [EnemyTurn(es[|es| - 1], platforms, sin)]
  }

  /**
   * Level.update: every coin spins and every crystal glows, collected or
   * not; only active enemies update, against the level's platforms.
   */
  function LevelUpdate(s: LevelState, sin: real -> real): LevelState
  {
    s.(coins := SpinAll(s.coins, sin), crystals := GlowAll(s.crystals), enemies := EnemiesTurn(s.enemies, s.platforms, sin))
  }

  /**
   * What a level frame keeps: the level's own fields and the length of each
   * list, every coin's body, and every enemy's liveness; a defeated enemy
   * does not change at all.
   */
  lemma LevelUpdateShape(s: LevelState, sin: real -> real)
    ensures var r := LevelUpdate(s, sin);
      r == s.(coins := r.coins, crystals := r.crystals, enemies := r.enemies) &&
      |r.coins| == |s.coins| && |r.crystals| == |s.crystals| && |r.enemies| == |s.enemies| &&
      (forall i :: 0 <= i < |s.enemies| ==> r.enemies[i].body.active == s.enemies[i].body.active) &&
      (forall i :: 0 <= i < |s.enemies| && !s.enemies[i].body.active ==> r.enemies[i] == s.enemies[i]) &&
      (forall i :: 0 <= i < |s.coins| ==> r.coins[i].body == s.coins[i].body)
  {
  }

  /** Every crystal of a level keeps its glow in range however many frames pass. */
  lemma LevelUpdateKeepsGlow(s: LevelState, sin: real -> real)
    requires forall i :: 0 <= i < |s.crystals| ==> GlowInvariant(s.crystals[i])
    ensures forall i :: 0 <= i < |s.crystals| ==> GlowInvariant(LevelUpdate(s, sin).crystals[i])
  {
  }

  // ---------------------------------------------------------------------
  // The level object

  function CoinModels(cs: seq<Coin>): (r: seq<CoinState>)
    reads cs
    ensures |r| == |cs|
  {
    if |cs| == 0 then [] else CoinModels(cs[..|cs| - 1]) + [cs[|cs| - 1].Model()]
  }

  lemma {:induction false} CoinModelsAt(cs: seq<Coin>, i: int)
    requires 0 <= i < |cs|
    ensures CoinModels(cs)[i] == cs[i].Model()
    decreases |cs|
  {
    if i < |cs| - 1 {
      CoinModelsAt(cs[..|cs| - 1], i);
    }
  }

  function CrystalModels(cs: seq<Crystal>): (r: seq<CrystalState>)
    reads cs
    ensures |r| == |cs|
  {
    if |cs| == 0 then [] else CrystalModels(cs[..|cs| - 1]) + [cs[|cs| - 1].Model()]
  }

  lemma {:induction false} CrystalModelsAt(cs: seq<Crystal>, i: int)
    requires 0 <= i < |cs|
    ensures CrystalModels(cs)[i] == cs[i].Model()
    decreases |cs|
  {
    if i < |cs| - 1 {
      CrystalModelsAt(cs[..|cs| - 1], i);
    }
  }

  function EnemyModels(es: seq<Enemy>): (r: seq<EnemyState>)
    reads es
    ensures |r| == |es|
  {
    if |es| == 0 then [] else EnemyModels(es[..|es| - 1]) + [es[|es| - 1].Model()]
  }

  lemma {:induction false} EnemyModelsAt(es: seq<Enemy>, i: int)
    requires 0 <= i < |es|
    ensures EnemyModels(es)[i] == es[i].Model()
    decreases |es|
  {
    if i < |es| - 1 {
      EnemyModelsAt(es[..|es| - 1], i);
    }
  }

  /** The list's models are exactly the given states when each object models its own. */
  lemma CoinModelsEqual(cs: seq<Coin>, target: seq<CoinState>)
    requires |cs| == |target| && forall k :: 0 <= k < |cs| ==> cs[k].Model() == target[k]
    ensures CoinModels(cs) == target
  {
    forall k | 0 <= k < |cs| ensures CoinModels(cs)[k] == target[k] {
      CoinModelsAt(cs, k);
    }
  }

  /** The list's models are exactly the given states when each object models its own. */
  lemma CrystalModelsEqual(cs: seq<Crystal>, target: seq<CrystalState>)
    requires |cs| == |target| && forall k :: 0 <= k < |cs| ==> cs[k].Model() == target[k]
    ensures CrystalModels(cs) == target
  {
    forall k | 0 <= k < |cs| ensures CrystalModels(cs)[k] == target[k] {
      CrystalModelsAt(cs, k);
    }
  }

  /** The list's models are exactly the given states when each object models its own. */
  lemma EnemyModelsEqual(es: seq<Enemy>, target: seq<EnemyState>)
    requires |es| == |target| && forall k :: 0 <= k < |es| ==> es[k].Model() == target[k]
    ensures EnemyModels(es) == target
  {
    forall k | 0 <= k < |es| ensures EnemyModels(es)[k] == target[k] {
      EnemyModelsAt(es, k);
    }
  }

  // A list whose objects keep their models keeps its model.

  twostate lemma CoinModelsKept(cs: seq<Coin>)
    requires forall k :: 0 <= k < |cs| ==> cs[k].Model() == old(cs[k].Model())
    ensures CoinModels(cs) == old(CoinModels(cs))
    decreases |cs|
  {
    if |cs| > 0 {
      CoinModelsKept(cs[..|cs| - 1]);
    }
  }

  twostate lemma CrystalModelsKept(cs: seq<Crystal>)
    requires forall k :: 0 <= k < |cs| ==> cs[k].Model() == old(cs[k].Model())
    ensures CrystalModels(cs) == old(CrystalModels(cs))
    decreases |cs|
  {
    if |cs| > 0 {
      CrystalModelsKept(cs[..|cs| - 1]);
    }
  }

  twostate lemma EnemyModelsKept(es: seq<Enemy>)
    requires forall k :: 0 <= k < |es| ==> es[k].Model() == old(es[k].Model())
    ensures EnemyModels(es) == old(EnemyModels(es))
    decreases |es|
  {
    if |es| > 0 {
      EnemyModelsKept(es[..|es| - 1]);
    }
  }

  lemma {:induction false} CoinModelsAppend(a: seq<Coin>, b: seq<Coin>)
    ensures CoinModels(a + b) == CoinModels(a) + CoinModels(b)
    decreases |b|
  {
    if |b| == 0 {
      assert a + b == a;
    } else {
      assert (a + b)[..|a + b| - 1] == a + b[..|b| - 1];
      CoinModelsAppend(a, b[..|b| - 1]);
    }
  }

  lemma {:induction false} CrystalModelsAppend(a: seq<Crystal>, b: seq<Crystal>)
    ensures CrystalModels(a + b) == CrystalModels(a) + CrystalModels(b)
    decreases |b|
  {
    if |b| == 0 {
      assert a + b == a;
    } else {
      assert (a + b)[..|a + b| - 1] == a + b[..|b| - 1];
      CrystalModelsAppend(a, b[..|b| - 1]);
    }
  }

  lemma {:induction false} EnemyModelsAppend(a: seq<Enemy>, b: seq<Enemy>)
    ensures EnemyModels(a + b) == EnemyModels(a) + EnemyModels(b)
    decreases |b|
  {
    if |b| == 0 {
      assert a + b == a;
    } else {
      assert (a + b)[..|a + b| - 1] == a + b[..|b| - 1];
      EnemyModelsAppend(a, b[..|b| - 1]);
    }
  }

  /** buildLevel: the platforms, coins, crystals and enemies of a description, each list in order. */
  method BuildContents(data: LevelData) returns (ps: seq<Platform>, cs: seq<Coin>, ks: seq<Crystal>, es: seq<Enemy>)
    ensures ps == MakePlatforms(OrEmpty(data.platforms))
    ensures Distinct(cs) && CoinModels(cs) == MakeCoins(OrEmpty(data.coins))
    ensures Distinct(ks) && CrystalModels(ks) == MakeCrystals(OrEmpty(data.crystals))
    ensures Distinct(es) && EnemyModels(es) == SpawnAll(OrEmpty(data.enemies))
  {
    ps := NewPlatforms(OrEmpty(data.platforms));
    cs := NewCoins(OrEmpty(data.coins));
    ks := NewCrystals(OrEmpty(data.crystals));
    es := NewEnemies(OrEmpty(data.enemies));
  }


  /** buildLevel, platforms: one platform per entry, in order. */
  method NewPlatforms(ds: seq<PlatformData>) returns (ps: seq<Platform>)
    ensures ps == MakePlatforms(ds)
  {
    ps := [];
    var i := 0;
    while i < |ds|
      invariant 0 <= i <= |ds|
      invariant ps == MakePlatforms(ds[..i])
    {
      ps := ps + [NewPlatform(ds[i].x, ds[i].y, ds[i].width, ds[i].height, ds[i].color)];
      assert ds[..i + 1][..i] == ds[..i];
      i := i + 1;
    }
    assert ds[..|ds|] == ds;
  }

  lemma CoinModelsSnoc(cs: seq<Coin>, c: Coin)
    ensures CoinModels(cs + [c]) == CoinModels(cs) + [c.Model()]
  {
    assert (cs + [c])[..|cs|] == cs;
  }

  lemma CrystalModelsSnoc(cs: seq<Crystal>, c: Crystal)
    ensures CrystalModels(cs + [c]) == CrystalModels(cs) + [c.Model()]
  {
    assert (cs + [c])[..|cs|] == cs;
  }

  lemma EnemyModelsSnoc(es: seq<Enemy>, e: Enemy)
    ensures EnemyModels(es + [e]) == EnemyModels(es) + [e.Model()]
  {
    assert (es + [e])[..|es|] == es;
  }

  lemma MakeCoinsSnoc(ds: seq<CoinData>, i: int)
    requires 0 <= i < |ds|
    ensures MakeCoins(ds[..i + 1]) == MakeCoins(ds[..i]) + [NewCoinState(ds[i].x, ds[i].y)]
  {
    assert ds[..i + 1][..i] == ds[..i];
  }

  lemma MakeCrystalsSnoc(ds: seq<CrystalData>, i: int)
    requires 0 <= i < |ds|
    ensures MakeCrystals(ds[..i + 1]) == MakeCrystals(ds[..i]) + [NewCrystalState(ds[i].x, ds[i].y, ds[i].color)]
  {
    assert ds[..i + 1][..i] == ds[..i];
  }

  lemma SpawnAllSnoc(ds: seq<EnemyData>, i: int)
    requires 0 <= i < |ds|
    ensures SpawnEnemy(ds[i]).Some? ==> SpawnAll(ds[..i + 1]) == SpawnAll(ds[..i]) + [SpawnEnemy(ds[i]).value]
    ensures SpawnEnemy(ds[i]).None? ==> SpawnAll(ds[..i + 1]) == SpawnAll(ds[..i])
  {
    assert ds[..i + 1][..i] == ds[..i];
  }

  /** One forEach step of buildLevel's coins: a new coin appended to the list. */
  method AddCoin(cs: seq<Coin>, d: CoinData) returns (r: seq<Coin>)
    requires Distinct(cs)
    ensures Distinct(r) && |r| == |cs| + 1 && r == cs + [r[|cs|]]
    ensures CoinModels(r) == old(CoinModels(cs)) + [NewCoinState(d.x, d.y)]
  {
    ghost var before := CoinModels(cs);
    var c := new Coin(d.x, d.y);
    assert CoinModels(cs) == before;
    DistinctSnoc(cs, c);
    CoinModelsSnoc(cs, c);
    r := cs + [c];
  }

  /** The coins of a coin list, created one by one in order. */
  method NewCoins(ds: seq<CoinData>) returns (cs: seq<Coin>)
    ensures Distinct(cs)
    ensures CoinModels(cs) == MakeCoins(ds)
  {
    cs := [];
    var i := 0;
    while i < |ds|
      invariant 0 <= i <= |ds|
      invariant Distinct(cs)
      invariant CoinModels(cs) == MakeCoins(ds[..i])
    {
      MakeCoinsSnoc(ds, i);
      cs := AddCoin(cs, ds[i]);
      i := i + 1;
    }
    assert ds[..|ds|] == ds;
  }

  /** One forEach step of buildLevel's crystals: a new crystal appended to the list. */
  method AddCrystal(cs: seq<Crystal>, d: CrystalData) returns (r: seq<Crystal>)
    requires Distinct(cs)
    ensures Distinct(r) && |r| == |cs| + 1 && r == cs + [r[|cs|]]
    ensures CrystalModels(r) == old(CrystalModels(cs)) + [NewCrystalState(d.x, d.y, d.color)]
  {
    ghost var before := CrystalModels(cs);
    var c := new Crystal(d.x, d.y, d.color);
    assert CrystalModels(cs) == before;
    DistinctSnoc(cs, c);
    CrystalModelsSnoc(cs, c);
    r := cs + [c];
  }

  /** The crystals of a crystal list, created one by one in order. */
  method NewCrystals(ds: seq<CrystalData>) returns (cs: seq<Crystal>)
    ensures Distinct(cs)
    ensures CrystalModels(cs) == MakeCrystals(ds)
  {
    cs := [];
    var i := 0;
    while i < |ds|
      invariant 0 <= i <= |ds|
      invariant Distinct(cs)
      invariant CrystalModels(cs) == MakeCrystals(ds[..i])
    {
      MakeCrystalsSnoc(ds, i);
      cs := AddCrystal(cs, ds[i]);
      i := i + 1;
    }
    assert ds[..|ds|] == ds;
  }

  /** The switch on an enemy entry's type: a new enemy of that kind, or none for an unknown type. */
  method NewEnemy(d: EnemyData) returns (e: Enemy?)
    ensures e == null <==> SpawnEnemy(d).None?
    ensures e != null ==> fresh(e) && e.Model() == SpawnEnemy(d).value
  {
    e := null;
    if d.kind == "sprite" {
      e := new Enemy.ForestSprite(d.x, d.y);
    } else if d.kind == "golem" {
      e := new Enemy.RockGolem(d.x, d.y);
    } else if d.kind == "moth" {
      e := new Enemy.VoidMoth(d.x, d.y);
    }
  }

  /** One forEach step of buildLevel's enemies, for an entry of a known type: the new enemy appended to the list. */
  method AddEnemy(es: seq<Enemy>, d: EnemyData) returns (r: seq<Enemy>)
    requires Distinct(es) && SpawnEnemy(d).Some?
    ensures Distinct(r) && |r| == |es| + 1 && r == es + [r[|es|]]
    ensures EnemyModels(r) == old(EnemyModels(es)) + [SpawnEnemy(d).value]
  {
    ghost var before := EnemyModels(es);
    var e := NewEnemy(d);
    assert EnemyModels(es) == before;
    DistinctSnoc<Enemy>(es, e);
    EnemyModelsSnoc(es, e);
    r := es + [e];
  }

  /** The enemies of an enemy list: the switch on the type, skipping unknown types. */
  method NewEnemies(ds: seq<EnemyData>) returns (es: seq<Enemy>)
    ensures Distinct(es)
    ensures EnemyModels(es) == SpawnAll(ds)
  {
    es := [];
    var i := 0;
    while i < |ds|
      invariant 0 <= i <= |ds|
      invariant Distinct(es)
      invariant EnemyModels(es) == SpawnAll(ds[..i])
    {
      var d := ds[i];
      SpawnAllSnoc(ds, i);
      if SpawnEnemy(d).Some? {
        es := AddEnemy(es, d);
      }
      i := i + 1;
    }
    assert ds[..|ds|] == ds;
  }

  /** The coin loop of Level.update, element by element. */
  method SpinCoins(coins: seq<Coin>, sin: real -> real)
    requires Distinct(coins)
    modifies coins
    ensures forall k :: 0 <= k < |coins| ==> coins[k].Model() == CoinSpin(old(coins[k].Model()), sin)
  {
    var i := 0;
    while i < |coins|
      invariant 0 <= i <= |coins|
      invariant forall k :: 0 <= k < |coins| ==> coins[k].Model() == if k < i then CoinSpin(old(coins[k].Model()), sin) else old(coins[k].Model())
    {
      forall k | 0 <= k < |coins| && k != i ensures coins[k] != coins[i] {
        DistinctApart(coins, k, i);
      }
      coins[i].Update(sin);
      i := i + 1;
    }
  }

  /** The crystal loop of Level.update. */
  method GlowCrystals(crystals: seq<Crystal>)
    requires Distinct(crystals)
    modifies crystals
    ensures forall k :: 0 <= k < |crystals| ==> crystals[k].Model() == Glow(old(crystals[k].Model()))
  {
    var i := 0;
    while i < |crystals|
      invariant 0 <= i <= |crystals|
      invariant forall k :: 0 <= k < |crystals| ==> crystals[k].Model() == if k < i then Glow(old(crystals[k].Model())) else old(crystals[k].Model())
    {
      forall k | 0 <= k < |crystals| && k != i ensures crystals[k] != crystals[i] {
        DistinctApart(crystals, k, i);
      }
      crystals[i].Update();
      i := i + 1;
    }
  }

  /** The enemy loop of Level.update: inactive enemies are skipped. */
  method TurnEnemies(enemies: seq<Enemy>, platforms: seq<Platform>, sin: real -> real)
    requires Distinct(enemies)
    modifies enemies
    ensures forall k :: 0 <= k < |enemies| ==> enemies[k].Model() == EnemyTurn(old(enemies[k].Model()), platforms, sin)
  {
    var i := 0;
    while i < |enemies|
      invariant 0 <= i <= |enemies|
      invariant forall k :: 0 <= k < |enemies| ==> enemies[k].Model() == if k < i then EnemyTurn(old(enemies[k].Model()), platforms, sin) else old(enemies[k].Model())
    {
      forall k | 0 <= k < |enemies| && k != i ensures enemies[k] != enemies[i] {
        DistinctApart(enemies, k, i);
      }
      if enemies[i].body.active {
        enemies[i].Update(platforms, sin);
      }
      i := i + 1;
    }
  }

  class Level {
    const width: real
    const height: real
    const startX: real
    const startY: real
    const goalX: real
    const name: string
    const world: int
    const timeLimit: int
    const platforms: seq<Platform>
    const coins: seq<Coin>
    const crystals: seq<Crystal>
    const enemies: seq<Enemy>

    /** No object appears twice in the level's lists. */
    predicate Valid()
    {
      Distinct(coins) && Distinct(crystals) && Distinct(enemies)
    }

    function Model(): LevelState
      reads coins, crystals, enemies
    {
      LevelState(width, height, startX, startY, goalX, name, world, timeLimit,
                 platforms, CoinModels(coins), CrystalModels(crystals), EnemyModels(enemies))
    }

    /** The Level constructor: scalar fields from the description or their defaults, then buildLevel. */
    constructor (data: LevelData)
      ensures Valid() && Model() == BuildLevel(data)
    {
      width := OrReal(data.width, DEFAULT_WIDTH);
      height := OrReal(data.height, DEFAULT_HEIGHT);
      startX := OrReal(data.startX, DEFAULT_START_X);
      startY := OrReal(data.startY, DEFAULT_START_Y);
      goalX := OrReal(data.goalX, DEFAULT_GOAL_X);
      name := OrString(data.name, DEFAULT_NAME);
      world := OrInt(data.world, DEFAULT_WORLD);
      timeLimit := OrInt(data.timeLimit, DEFAULT_TIME_LIMIT);
      var ps, cs, ks, es := BuildContents(data);
      platforms := ps;
      coins := cs;
      crystals := ks;
      enemies := es;
    }

    /** Level.update; Math.sin is passed in as sin. */
    method Update(sin: real -> real)
      requires Valid()
      modifies coins, crystals, enemies
      ensures Model() == LevelUpdate(old(Model()), sin)
    {
      UpdateCoins(sin);
      UpdateCrystals();
      UpdateEnemies(sin);
    }

    /** Every coin spins, collected or not. */
    method UpdateCoins(sin: real -> real)
      requires Distinct(coins)
      modifies coins
      ensures CoinModels(coins) == SpinAll(old(CoinModels(coins)), sin)
      ensures CrystalModels(crystals) == old(CrystalModels(crystals)) && EnemyModels(enemies) == old(EnemyModels(enemies))
    {
      ghost var s0 := CoinModels(coins);
      forall k | 0 <= k < |coins| ensures coins[k].Model() == s0[k] {
        CoinModelsAt(coins, k);
      }
      SpinCoins(coins, sin);
      CoinModelsEqual(coins, SpinAll(s0, sin));
      CrystalModelsKept(crystals);
      EnemyModelsKept(enemies);
    }

    /** Every crystal glows, collected or not. */
    method UpdateCrystals()
      requires Distinct(crystals)
      modifies crystals
      ensures CrystalModels(crystals) == GlowAll(old(CrystalModels(crystals)))
      ensures CoinModels(coins) == old(CoinModels(coins)) && EnemyModels(enemies) == old(EnemyModels(enemies))
    {
      ghost var s0 := CrystalModels(crystals);
      forall k | 0 <= k < |crystals| ensures crystals[k].Model() == s0[k] {
        CrystalModelsAt(crystals, k);
      }
      GlowCrystals(crystals);
      CrystalModelsEqual(crystals, GlowAll(s0));
      CoinModelsKept(coins);
      EnemyModelsKept(enemies);
    }

    /** Only active enemies update, against the level's platforms. */
    method UpdateEnemies(sin: real -> real)
      requires Distinct(enemies)
      modifies enemies
      ensures EnemyModels(enemies) == EnemiesTurn(old(EnemyModels(enemies)), platforms, sin)
      ensures CoinModels(coins) == old(CoinModels(coins)) && CrystalModels(crystals) == old(CrystalModels(crystals))
    {
      ghost var s0 := EnemyModels(enemies);
      forall k | 0 <= k < |enemies| ensures enemies[k].Model() == s0[k] {
        EnemyModelsAt(enemies, k);
      }
      TurnEnemies(enemies, platforms, sin);
      EnemyModelsEqual(enemies, EnemiesTurn(s0, platforms, sin));
      CoinModelsKept(coins);
      CrystalModelsKept(crystals);
    }

    function CheckGoalReached(player: Body): (b: bool)
      reads this, coins, crystals, enemies
      ensures b == GoalReached(Model(), player)
    {
      player.x > goalX - GOAL_MARGIN
    }
  }

  // ---------------------------------------------------------------------
  // The level table and the level manager

  const WORLD1_LEVEL1: LevelData := LevelData(
    Some("Goldene Wiesen - Level 1"), Some(1), Some(3000.0), Some(600.0),
    Some(100.0), Some(300.0), Some(2800.0), Some(300),
    Some([
      PlatformData(0.0, 500.0, 800.0, 100.0, Some("#8B7355")),
      PlatformData(900.0, 500.0, 300.0, 100.0, Some("#8B7355")),
      PlatformData(1300.0, 500.0, 400.0, 100.0, Some("#8B7355")),
      PlatformData(1800.0, 500.0, 500.0, 100.0, Some("#8B7355")),
      PlatformData(2400.0, 500.0, 600.0, 100.0, Some("#8B7355")),
      PlatformData(300.0, 400.0, 120.0, 20.0, Some("#9B8B6E")),
      PlatformData(500.0, 350.0, 120.0, 20.0, Some("#9B8B6E")),
      PlatformData(700.0, 300.0, 120.0, 20.0, Some("#9B8B6E")),
      PlatformData(1000.0, 380.0, 100.0, 20.0, Some("#9B8B6E")),
      PlatformData(1150.0, 320.0, 100.0, 20.0, Some("#9B8B6E")),
      PlatformData(1500.0, 350.0, 150.0, 20.0, Some("#9B8B6E")),
      PlatformData(1700.0, 280.0, 120.0, 20.0, Some("#9B8B6E")),
      PlatformData(2000.0, 400.0, 100.0, 20.0, Some("#9B8B6E")),
      PlatformData(2150.0, 350.0, 100.0, 20.0, Some("#9B8B6E")),
      PlatformData(2300.0, 300.0, 100.0, 20.0, Some("#9B8B6E"))
    ]),
    Some([
      CoinData(200.0, 450.0), CoinData(240.0, 450.0), CoinData(280.0, 450.0),
      CoinData(950.0, 450.0), CoinData(990.0, 450.0), CoinData(1030.0, 450.0),
      CoinData(1400.0, 450.0), CoinData(1440.0, 450.0), CoinData(1480.0, 450.0),
      CoinData(340.0, 360.0), CoinData(380.0, 360.0),
      CoinData(540.0, 310.0), CoinData(580.0, 310.0),
      CoinData(740.0, 260.0), CoinData(780.0, 260.0),
      CoinData(1030.0, 340.0), CoinData(1070.0, 340.0),
      CoinData(1540.0, 310.0), CoinData(1580.0, 310.0),
      CoinData(1740.0, 240.0), CoinData(1780.0, 240.0),
      CoinData(2040.0, 360.0), CoinData(2080.0, 360.0),
      CoinData(2190.0, 310.0), CoinData(2230.0, 310.0),
      CoinData(2340.0, 260.0), CoinData(2380.0, 260.0),
      CoinData(450.0, 250.0),
      CoinData(1200.0, 220.0),
      CoinData(1900.0, 280.0)
    ]),
    Some([
      CrystalData(600.0, 200.0, Some("#00CED1")),
      CrystalData(1600.0, 250.0, Some("#FF69B4")),
      CrystalData(2500.0, 400.0, Some("#FFD700"))
    ]),
    Some([
      EnemyData("sprite", 400.0, 450.0),
      EnemyData("sprite", 1100.0, 450.0),
      EnemyData("golem", 1400.0, 450.0),
      EnemyData("sprite", 1900.0, 450.0),
      EnemyData("moth", 1200.0, 250.0),
      EnemyData("moth", 2200.0, 280.0)
    ]))

  /** The level table: one level so far. */
  const LEVELS: map<string, LevelData> := map["world1_level1" := WORLD1_LEVEL1]

  /** The first level has all six of its enemies, its 30 coins and 3 crystals, and 300 seconds. */
  lemma FirstLevelContents()
    ensures var s := BuildLevel(LEVELS["world1_level1"]);
      |s.platforms| == 15 && |s.coins| == 30 && |s.crystals| == 3 && |s.enemies| == 6 &&
      s.timeLimit == 300 && s.goalX == 2800.0 && s.height == 600.0
  {
    var ds := OrEmpty(WORLD1_LEVEL1.enemies);
    assert |ds| == 6;
    forall i | 0 <= i < 6 ensures KnownKind(ds[i]) {
    }
    SpawnAllKnown(ds);
  }

  /** A level none of whose objects changed keeps its model. */
  twostate lemma LevelModelKept(l: Level)
    requires unchanged(l.coins) && unchanged(l.crystals) && unchanged(l.enemies)
    ensures l.Model() == old(l.Model())
  {
    CoinModelsKept(l.coins);
    CrystalModelsKept(l.crystals);
    EnemyModelsKept(l.enemies);
  }


  class LevelManager {
    /** The level table the manager loads from (the global LEVELS). */
    const table: map<string, LevelData>
    var currentLevel: Level?
    var currentLevelKey: Option<string>

    constructor ()
      ensures table == LEVELS && currentLevel == null && currentLevelKey == None
    {
      table := LEVELS;
      currentLevel := null;
      currentLevelKey := None;
    }

    /**
     * loadLevel: a known key builds a fresh level from the table and makes it
     * current; an unknown key gives null and leaves the manager as it was.
     */
    method LoadLevel(key: string) returns (level: Level?)
      modifies this`currentLevel, this`currentLevelKey
      ensures key !in table ==> level == null && currentLevel == old(currentLevel) && currentLevelKey == old(currentLevelKey)
      ensures key in table ==>
        level != null && fresh(level) && level.Valid() && level.Model() == BuildLevel(table[key]) &&
        currentLevel == level && currentLevelKey == Some(key)
    {
      if key in table {
        currentLevelKey := Some(key);
        var l := new Level(table[key]);
        label built:
        currentLevel := l;
        LevelModelKept@built(l);
        return l;
      }
      return null;
    }

    /** getNextLevel: there is only one level so far, so the next level is the current one again. */
    function GetNextLevel(): (key: Option<string>)
      reads this
      ensures key == currentLevelKey
    {
      currentLevelKey
    }
  }
}
