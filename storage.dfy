/**
 * Saved progress of Crystal Rush (js/storage.js): the save record, what
 * finishing a level does to it, resetting it and migrating an old record.
 * The browser's localStorage slot is a field of GameStorage that holds the
 * parsed save record or nothing; whether the browser lets the page use
 * storage at all is fixed when the object is made. Clock readings
 * (`new Date().toISOString()`) are passed in as `now`.
 */
module Storage {
  import opened Utils

  const VERSION: string := "1.1.0"

  datatype Settings = Settings(soundEnabled: bool, musicEnabled: bool, touchControlsEnabled: bool)

  datatype Progress = Progress(unlockedWorlds: seq<int>, unlockedLevels: seq<string>,
                               completedLevels: seq<string>, collectedCrystals: int, totalCoins: int)

  datatype Highscore = Highscore(score: int, time: int, coins: int)

  datatype Stats = Stats(totalPlaytime: int, totalDeaths: int, totalJumps: int, enemiesDefeated: int,
                         firstPlayDate: Option<string>, lastPlayDate: Option<string>)

  /** A save record as JSON.parse gives it back: any top-level key may be missing. */
  datatype SaveData = SaveData(version: Option<string>, settings: Option<Settings>, progress: Option<Progress>,
                               highscores: Option<map<string, Highscore>>, stats: Option<Stats>)

  /** Every top-level key is present. */
  predicate Complete(d: SaveData)
  {
    d.version.Some? && d.settings.Some? && d.progress.Some? && d.highscores.Some? && d.stats.Some?
  }

  const DEFAULT_SETTINGS: Settings := Settings(true, true, true)

  /** World 1 and its first level unlocked, nothing completed. */
  const DEFAULT_PROGRESS: Progress := Progress([1], ["world1_level1"], [], 0, 0)

  const NO_SCORE: Highscore := Highscore(0, 0, 0)

  const DEFAULT_HIGHSCORES: map<string, Highscore> := map[
    "world1_level1" := NO_SCORE, "world1_level2" := NO_SCORE, "world1_level3" := NO_SCORE, "world1_level4" := NO_SCORE,
    "world2_level1" := NO_SCORE, "world2_level2" := NO_SCORE, "world2_level3" := NO_SCORE, "world2_level4" := NO_SCORE,
    "world3_level1" := NO_SCORE, "world3_level2" := NO_SCORE, "world3_level3" := NO_SCORE, "world3_level4" := NO_SCORE]

  const DEFAULT_STATS: Stats := Stats(0, 0, 0, 0, None, None)

  /** The record a new player starts with (defaultData). */
  const DEFAULT_DATA: SaveData :=
    SaveData(Some(VERSION), Some(DEFAULT_SETTINGS), Some(DEFAULT_PROGRESS), Some(DEFAULT_HIGHSCORES), Some(DEFAULT_STATS))

  // ---------------------------------------------------------------------
  // Level identifiers: `world<W>_level<L>` and the regular expressions that read them

  function LevelId(w: nat, l: nat): string
  {
    "world" + NatToString(w) + "_level" + NatToString(l)
  }

  /** Index just past the run of decimal digits that starts at i (a greedy `\d+`). */
  function DigitRun(s: string, i: nat): (e: nat)
    requires i <= |s|
    ensures i <= e <= |s| && AllDigits(s[i..e]) && (e == |s| || !IsDigit(s[e]))
    decreases |s| - i
  {
    if i < |s| && IsDigit(s[i]) then
      var e := DigitRun(s, i + 1);
      assert s[i..e] == [s[i]] + s[i + 1..e];
      e
    else i
  }

  predicate TagAt(s: string, i: nat, tag: string)
  {
    i + |tag| <= |s| && s[i..i + |tag|] == tag
  }

  /** `tag(\d+)` tried at position i: the value of the digits and the index where they end. */
  function NumberAfterTag(s: string, i: nat, tag: string): (r: Option<(nat, nat)>)
    ensures r.Some? ==> TagAt(s, i, tag) && i + |tag| < r.value.1 <= |s|
  {
    var j := i + |tag|;
    if TagAt(s, i, tag) && j < |s| && IsDigit(s[j]) then
      var e := DigitRun(s, j);
      Some((DigitsValue(s[j..e]), e))
    else None
  }

  /** `world(\d+)_level(\d+)` tried at position i: world and level number. */
  function LevelIdAt(s: string, i: nat): Option<(nat, nat)>
  {
    match NumberAfterTag(s, i, "world")
    case None => None
    case Some((w, e)) =>
      match NumberAfterTag(s, e, "_level")
      case None => None
      case Some((l, _)) => Some((w, l))
  }

  /** The leftmost match of `world(\d+)_level(\d+)` at or after position i. */
  function FindLevelId(s: string, i: nat): Option<(nat, nat)>
    decreases |s| - i
  {
    if i >= |s| then None
    else if LevelIdAt(s, i).Some? then LevelIdAt(s, i)
    else FindLevelId(s, i + 1)
  }

  /** `currentLevelId.match(/world(\d+)_level(\d+)/)`, read with parseInt. */
  function ParseLevelId(s: string): Option<(nat, nat)>
  {
    FindLevelId(s, 0)
  }

  /** The number of the leftmost match of `tag(\d+)` at or after position i. */
  function FindNumber(s: string, tag: string, i: nat): Option<nat>
    decreases |s| - i
  {
    if i >= |s| then None
    else match NumberAfterTag(s, i, tag)
      case Some((n, _)) => Some(n)
      case None => FindNumber(s, tag, i + 1)
  }

  /** (world, level) pairs in play order. */
  predicate Before(a: (nat, nat), b: (nat, nat))
  {
    a.0 < b.0 || (a.0 == b.0 && a.1 < b.1)
  }

  /**
   * getNextLevel: the following level of the same world, or level 1 of the
   * next world after a fourth level, or nothing after world 3 or for an
   * identifier that does not match.
   */
  function GetNextLevel(id: string): (r: Option<string>)
    ensures ParseLevelId(id).None? ==> r.None?
    ensures ParseLevelId(id).Some? ==>
      var (w, l) := ParseLevelId(id).value;
      var next := if l < 4 then Some((w, l + 1)) else if w < 3 then Some((w + 1, 1)) else None;
      (r.None? <==> next.None?) &&
      (next.Some? ==>
        Before((w, l), next.value) && r == Some(LevelId(next.value.0, next.value.1)) && ParseLevelId(r.value) == next)
  {
    match ParseLevelId(id)
    case None => None
    case Some((w, l)) =>
      if l < 4 then
        LevelIdRoundTrip(w, l + 1);
        Some(LevelId(w, l + 1))
      else if w < 3 then
        LevelIdRoundTrip(w + 1, 1);
        Some(LevelId(w + 1, 1))
      else None
  }

  lemma {:induction false} DigitRunEnds(s: string, i: nat, e: nat)
    requires i <= e <= |s| && AllDigits(s[i..e]) && (e == |s| || !IsDigit(s[e]))
    ensures DigitRun(s, i) == e
    decreases e - i
  {
    if i < e {
      assert IsDigit(s[i..e][0]);
      assert s[i + 1..e] == s[i..e][1..];
      DigitRunEnds(s, i + 1, e);
    }
  }

  /** A tag followed by the decimal rendering of n (and then no digit) reads back as n. */
  lemma NumberAfterTagReads(s: string, pre: string, tag: string, n: nat, post: string)
    requires s == pre + tag + NatToString(n) + post
    requires |post| == 0 || !IsDigit(post[0])
    ensures NumberAfterTag(s, |pre|, tag) == Some((n, |pre| + |tag| + |NatToString(n)|))
  {
    var j := |pre| + |tag|;
    var e := j + |NatToString(n)|;
    assert s[|pre|..j] == tag;
    assert s[j..e] == NatToString(n);
    assert IsDigit(s[j]) by { assert s[j] == NatToString(n)[0]; }
    DigitRunEnds(s, j, e);
    NatToStringRoundTrip(n);
  }

  /** No position before p starts a match of `tag(\d+)`: the search moves on to p. */
  lemma {:induction false} FindNumberSkips(s: string, tag: string, i: nat, p: nat)
    requires i <= p < |s|
    requires forall j :: i <= j < p ==> NumberAfterTag(s, j, tag).None?
    ensures FindNumber(s, tag, i) == FindNumber(s, tag, p)
    decreases p - i
  {
    if i < p {
      FindNumberSkips(s, tag, i + 1, p);
    }
  }

  /** The identifier of (w, l) reads back as (w, l) by each of the three regular expressions. */
  lemma LevelIdRoundTrip(w: nat, l: nat)
    ensures ParseLevelId(LevelId(w, l)) == Some((w, l))
    ensures FindNumber(LevelId(w, l), "world", 0) == Some(w)
    ensures FindNumber(LevelId(w, l), "level", 0) == Some(l)
  {
    var W, L := NatToString(w), NatToString(l);
    var s := LevelId(w, l);
    NumberAfterTagReads(s, "", "world", w, "_level" + L);
    NumberAfterTagReads(s, "world" + W, "_level", l, "");
    assert LevelIdAt(s, 0) == Some((w, l));
    LevelNumberOfLevelId(s, W, L, l);
  }

  /** The leftmost `level(\d+)` of an identifier is the one after the underscore. */
  lemma LevelNumberOfLevelId(s: string, W: string, L: string, l: nat)
    requires L == NatToString(l) && |W| >= 1 && AllDigits(W) && s == "world" + W + "_level" + L
    ensures FindNumber(s, "level", 0) == Some(l)
  {
    var e := 5 + |W|;
    NumberAfterTagReads(s, "world" + W + "_", "level", l, "");
    assert s[..5] == "world" && s[5..e] == W && s[e] == '_';
    forall j | 0 <= j < e + 1
      ensures NumberAfterTag(s, j, "level").None?
    {
      NoLevelTagBefore(s, W, j);
    }
    FindNumberSkips(s, "level", 0, e + 1);
  }

  /** In `world<W>_...` no `level` starts at or before the underscore. */
  lemma NoLevelTagBefore(s: string, W: string, j: nat)
    requires AllDigits(W) && |s| > 5 + |W| && s[..5] == "world" && s[5..5 + |W|] == W && s[5 + |W|] == '_'
    requires j <= 5 + |W|
    ensures NumberAfterTag(s, j, "level").None?
  {
    if j == 3 {
      assert s[4] == s[..5][4];
      Mismatch(s, j, "level", 1);
    } else if j < 5 {
      assert s[j] == s[..5][j];
      Mismatch(s, j, "level", 0);
    } else if j < 5 + |W| {
      assert s[j] == s[5..5 + |W|][j - 5];
      Mismatch(s, j, "level", 0);
    } else {
      Mismatch(s, j, "level", 0);
    }
  }

  /** A character that differs from the tag rules out a match at that position. */
  lemma Mismatch(s: string, i: nat, tag: string, k: nat)
    requires k < |tag| && i + k < |s| && s[i + k] != tag[k]
    ensures NumberAfterTag(s, i, tag).None?
  {
  }

  /** The twelve levels in play order: world 1 levels 1 to 4, then world 2, then world 3. */
  function CampaignId(k: nat): string
    requires k < 12
  {
    LevelId(k / 4 + 1, k % 4 + 1)
  }

  /** getNextLevel walks the twelve levels in play order and stops after the last. */
  lemma CampaignOrder(k: nat)
    requires k < 12
    ensures k < 11 ==> GetNextLevel(CampaignId(k)) == Some(CampaignId(k + 1))
    ensures k == 11 ==> GetNextLevel(CampaignId(k)) == None
  {
    var w, l := k / 4 + 1, k % 4 + 1;
    LevelIdRoundTrip(w, l);
    if l < 4 {
      assert (k + 1) / 4 + 1 == w && (k + 1) % 4 + 1 == l + 1;
    } else if w < 3 {
      assert (k + 1) / 4 + 1 == w + 1 && (k + 1) % 4 + 1 == 1;
    }
  }

  // ---------------------------------------------------------------------
  // Finishing a level (updateProgress)

  /** `if (!list.includes(x)) list.push(x)` */
  function AddOnce<T(==,!new)>(s: seq<T>, x: T): (r: seq<T>)
    ensures x in r && |s| <= |r| <= |s| + 1 && r[..|s|] == s
    ensures forall y :: y in r <==> y in s || y == x
  {
    if x in s then s else s + [x]
  }

  /** In a list without repetitions every element occurs once. */
  lemma {:induction false} DistinctOnce<T>(s: seq<T>, x: T)
    requires Distinct(s)
    ensures multiset(s)[x] == if x in s then 1 else 0
    decreases |s|
  {
    if |s| > 0 {
      var n := |s| - 1;
      DistinctOnce(s[..n], x);
      assert s == s[..n] + [s[n]];
    }
  }

  /** Adding once to a list without repetitions keeps it so, and the element is then in it exactly once. */
  lemma AddOnceDistinct<T(!new)>(s: seq<T>, x: T)
    requires Distinct(s)
    ensures Distinct(AddOnce(s, x)) && multiset(AddOnce(s, x))[x] == 1
  {
    if x !in s {
      DistinctSnoc(s, x);
    }
    DistinctOnce(AddOnce(s, x), x);
  }

  /**
   * The highscore table after finishing level id: the new result replaces
   * the entry when there is none or the new score is strictly higher, and
   * is dropped otherwise; no other entry changes.
   */
  function BestScores(hs: map<string, Highscore>, id: string, score: int, time: int, coins: int): (r: map<string, Highscore>)
    ensures r.Keys == hs.Keys + {id}
    ensures forall k :: k in hs && k != id ==> r[k] == hs[k]
    ensures id !in hs || score > hs[id].score ==> r[id] == Highscore(score, time, coins)
    ensures id in hs && score <= hs[id].score ==> r[id] == hs[id]
  {
    if id !in hs || score > hs[id].score then hs[id := Highscore(score, time, coins)] else hs
  }

  /** The table keeps the best score: never below the new score, never below the one it had. */
  lemma BestScoreNeverDrops(hs: map<string, Highscore>, id: string, score: int, time: int, coins: int)
    ensures var r := BestScores(hs, id, score, time, coins);
      r[id].score >= score && (id in hs ==> r[id].score >= hs[id].score)
      && (r[id].score == score || r[id] == hs[id])
  {
  }

  /**
   * The progress part after finishing level id, numbered (w, l) by the two
   * separate regular expressions: the level is completed, the next level
   * unlocked, world w + 1 unlocked after a fourth level (with no upper
   * bound), and the coins added to the total.
   */
  function ProgressAfter(pr: Progress, id: string, w: nat, l: nat, coins: int): (r: Progress)
    ensures r.totalCoins == pr.totalCoins + coins && r.collectedCrystals == pr.collectedCrystals
    ensures forall x :: x in r.completedLevels <==> x in pr.completedLevels || x == id
    ensures forall x :: x in r.unlockedLevels <==> x in pr.unlockedLevels || Some(x) == GetNextLevel(id)
    ensures forall v :: v in r.unlockedWorlds <==> v in pr.unlockedWorlds || (l == 4 && v == w + 1)
    ensures pr.completedLevels <= r.completedLevels
    ensures pr.unlockedLevels <= r.unlockedLevels
    ensures pr.unlockedWorlds <= r.unlockedWorlds
  {
    var next := GetNextLevel(id);
    Progress(
      if l == 4 then AddOnce(pr.unlockedWorlds, w + 1) else pr.unlockedWorlds,
      if next.Some? then AddOnce(pr.unlockedLevels, next.value) else pr.unlockedLevels,
      AddOnce(pr.completedLevels, id),
      pr.collectedCrystals,
      pr.totalCoins + coins)
  }

  /** Lists free of repetitions stay so; the finished level is listed once, the next level at most once. */
  lemma ProgressAfterDistinct(pr: Progress, id: string, w: nat, l: nat, coins: int)
    requires Distinct(pr.unlockedWorlds) && Distinct(pr.unlockedLevels) && Distinct(pr.completedLevels)
    ensures var r := ProgressAfter(pr, id, w, l, coins);
      Distinct(r.unlockedWorlds) && Distinct(r.unlockedLevels) && Distinct(r.completedLevels)
      && multiset(r.completedLevels)[id] == 1
      && (GetNextLevel(id).Some? ==> multiset(r.unlockedLevels)[GetNextLevel(id).value] == 1)
      && (l == 4 ==> multiset(r.unlockedWorlds)[w + 1] == 1)
  {
    AddOnceDistinct(pr.completedLevels, id);
    AddOnceDistinct(pr.unlockedWorlds, w + 1);
    if GetNextLevel(id).Some? {
      AddOnceDistinct(pr.unlockedLevels, GetNextLevel(id).value);
    }
  }

  /** The play dates: the last one is now; the first one is set only if it was missing. */
  function StatsAfter(st: Stats, now: string): (r: Stats)
    ensures r.lastPlayDate == Some(now) && r.firstPlayDate.Some?
    ensures st.firstPlayDate.Some? ==> r.firstPlayDate == st.firstPlayDate
    ensures r.(firstPlayDate := st.firstPlayDate, lastPlayDate := st.lastPlayDate) == st
  {
    var s := st.(lastPlayDate := Some(now));
    if s.firstPlayDate.None? then s.(firstPlayDate := Some(now)) else s
  }

  /**
   * updateProgress on a loaded record: None where the source throws (a
   * missing highscores, progress or stats key, or an identifier without
   * `world<digits>` or `level<digits>`), otherwise the updated record.
   */
  function RecordCompletion(d: SaveData, id: string, score: int, time: int, coins: int, now: string): (r: Option<SaveData>)
    ensures r.Some? <==> d.highscores.Some? && d.progress.Some? && d.stats.Some?
                         && FindNumber(id, "world", 0).Some? && FindNumber(id, "level", 0).Some?
    ensures r.Some? ==> r.value.version == d.version && r.value.settings == d.settings
                        && r.value.highscores.Some? && r.value.progress.Some? && r.value.stats.Some?
  {
    var w, l := FindNumber(id, "world", 0), FindNumber(id, "level", 0);
    if d.highscores.None? || d.progress.None? || d.stats.None? || w.None? || l.None? then None
    else Some(d.(highscores := Some(BestScores(d.highscores.value, id, score, time, coins)),
                 progress := Some(ProgressAfter(d.progress.value, id, w.value, l.value, coins)),
                 stats := Some(StatsAfter(d.stats.value, now))))
  }

  /** `data && data.progress.unlockedLevels.includes(levelId)`; None where reading progress throws. */
  function LevelUnlocked(loaded: Option<SaveData>, id: string): Option<bool>
  {
    if loaded.None? then Some(false)
    else if loaded.value.progress.None? then None
    else Some(id in loaded.value.progress.value.unlockedLevels)
  }

  /** `data && data.progress.unlockedWorlds.includes(worldNum)` */
  function WorldUnlocked(loaded: Option<SaveData>, world: int): Option<bool>
  {
    if loaded.None? then Some(false)
    else if loaded.value.progress.None? then None
    else Some(world in loaded.value.progress.value.unlockedWorlds)
  }

  /** After finishing a level its successor is unlocked and the level is recorded as completed. */
  lemma CompletionUnlocksNext(d: SaveData, id: string, score: int, time: int, coins: int, now: string)
    requires RecordCompletion(d, id, score, time, coins, now).Some?
    ensures var r := RecordCompletion(d, id, score, time, coins, now).value;
      id in r.progress.value.completedLevels
      && (GetNextLevel(id).Some? ==> LevelUnlocked(Some(r), GetNextLevel(id).value) == Some(true))
      && r.progress.value.totalCoins == d.progress.value.totalCoins + coins
  {
  }

  /** Finishing world 3 level 4 unlocks a world 4 although no level follows it. */
  lemma LastLevelUnlocksWorldFour(d: SaveData, score: int, time: int, coins: int, now: string)
    requires d.highscores.Some? && d.progress.Some? && d.stats.Some?
    ensures GetNextLevel(LevelId(3, 4)) == None
    ensures var r := RecordCompletion(d, LevelId(3, 4), score, time, coins, now);
      r.Some? && WorldUnlocked(r, 4) == Some(true)
  {
    LevelIdRoundTrip(3, 4);
  }

  // ---------------------------------------------------------------------
  // Resetting and migrating

  /** `this.load() || this.defaultData` */
  function LoadedOrDefault(loaded: Option<SaveData>): (d: SaveData)
    ensures loaded.None? ==> d == DEFAULT_DATA
  {
    if loaded.Some? then loaded.value else DEFAULT_DATA
  }

  /** resetProgress: a copy of the defaults carrying over the old settings (absent when the old record had none). */
  function ResetRecord(d: SaveData): (r: SaveData)
    ensures r.settings == d.settings
    ensures r.(settings := DEFAULT_DATA.settings) == DEFAULT_DATA
  {
    DEFAULT_DATA.(settings := d.settings)
  }

  /** After a reset only the first level and the first world are unlocked. */
  lemma ResetLocksAllButFirst(d: SaveData, id: string, world: int)
    ensures LevelUnlocked(Some(ResetRecord(d)), id) == Some(id == "world1_level1")
    ensures WorldUnlocked(Some(ResetRecord(d)), world) == Some(world == 1)
  {
  }

  /** The top-level keys of defaultData, in the order Object.keys lists them. */
  datatype Key = VersionKey | SettingsKey | ProgressKey | HighscoresKey | StatsKey

  const KEYS: seq<Key> := [VersionKey, SettingsKey, ProgressKey, HighscoresKey, StatsKey]

  /** `data[key]` is present. */
  predicate Has(d: SaveData, k: Key)
  {
    match k
    case VersionKey => d.version.Some?
    case SettingsKey => d.settings.Some?
    case ProgressKey => d.progress.Some?
    case HighscoresKey => d.highscores.Some?
    case StatsKey => d.stats.Some?
  }

  /** `data[key] = this.defaultData[key]` */
  function FillKey(d: SaveData, k: Key): SaveData
  {
    match k
    case VersionKey => d.(version := DEFAULT_DATA.version)
    case SettingsKey => d.(settings := DEFAULT_DATA.settings)
    case ProgressKey => d.(progress := DEFAULT_DATA.progress)
    case HighscoresKey => d.(highscores := DEFAULT_DATA.highscores)
    case StatsKey => d.(stats := DEFAULT_DATA.stats)
  }

  /** The forEach over keys: each missing key, in order, takes its default. */
  function FillKeys(d: SaveData, ks: seq<Key>): SaveData
    decreases |ks|
  {
    if |ks| == 0 then d
    else
      var e := FillKeys(d, ks[..|ks| - 1]);
      if Has(e, ks[|ks| - 1]) then e else FillKey(e, ks[|ks| - 1])
  }

  /** `!data.version || data.version !== this.defaultData.version` */
  predicate NeedsMigration(d: SaveData)
  {
    d.version != Some(VERSION)
  }

  function Or<T>(o: Option<T>, dflt: T): T
  {
    if o.Some? then o.value else dflt
  }

  /**
   * What migrating an outdated record leaves: every key it had kept as it
   * was, every missing key from the defaults, and the current version.
   */
  function Filled(d: SaveData): (r: SaveData)
    ensures Complete(r) && r.version == Some(VERSION)
    ensures d.settings.Some? ==> r.settings == d.settings
    ensures d.progress.Some? ==> r.progress == d.progress
    ensures d.highscores.Some? ==> r.highscores == d.highscores
    ensures d.stats.Some? ==> r.stats == d.stats
  {
    SaveData(Some(VERSION), Some(Or(d.settings, DEFAULT_SETTINGS)), Some(Or(d.progress, DEFAULT_PROGRESS)),
             Some(Or(d.highscores, DEFAULT_HIGHSCORES)), Some(Or(d.stats, DEFAULT_STATS)))
  }

  /** migrate as a whole: an outdated record is filled, a current one left as it is. */
  function Migrated(d: SaveData): SaveData
  {
    if NeedsMigration(d) then Filled(d) else d
  }

  /** The key-by-key loop followed by setting the version gives the filled record. */
  lemma FillKeysFills(d: SaveData)
    ensures FillKeys(d, KEYS).(version := Some(VERSION)) == Filled(d)
  {
    var k1 := [VersionKey];
    var k2 := k1 + [SettingsKey];
    var k3 := k2 + [ProgressKey];
    var k4 := k3 + [HighscoresKey];
    assert KEYS == k4 + [StatsKey];
    assert k1[..0] == [] && k2[..1] == k1 && k3[..2] == k2 && k4[..3] == k3 && (k4 + [StatsKey])[..4] == k4;
    var e1 := FillKeys(d, k1);
    assert e1.(version := d.version) == d;
    var e2 := FillKeys(d, k2);
    assert e2 == e1.(settings := Some(Or(d.settings, DEFAULT_SETTINGS)));
    var e3 := FillKeys(d, k3);
    assert e3 == e2.(progress := Some(Or(d.progress, DEFAULT_PROGRESS)));
    var e4 := FillKeys(d, k4);
    assert e4 == e3.(highscores := Some(Or(d.highscores, DEFAULT_HIGHSCORES)));
  }

  /** Migrating twice is migrating once, and a migrated record needs no further migration. */
  lemma MigrateIdempotent(d: SaveData)
    ensures !NeedsMigration(Migrated(d)) && Migrated(Migrated(d)) == Migrated(d)
  {
  }

  /** A record already at the current version is never repaired, even when keys are missing. */
  lemma CurrentVersionNotRepaired()
    ensures var d := DEFAULT_DATA.(progress := None); !Complete(Migrated(d))
  {
  }

  // ---------------------------------------------------------------------
  // The shared defaults object, as written

  /**
   * The page's state when the defaults object is counted in it:
   * `this.load() || this.defaultData` hands out that very object when
   * nothing is saved, and updateProgress then changes it in place.
   */
  datatype Memory = Memory(slot: Option<SaveData>, defaults: SaveData)

  /** updateProgress as written, storage available: with no saved record the defaults object becomes the saved record. */
  function CompletionAsWritten(m: Memory, id: string, score: int, time: int, coins: int, now: string): (r: Memory)
    ensures m.slot.Some? ==> r.defaults == m.defaults
    ensures m.slot.None? ==> r.slot == RecordCompletion(m.defaults, id, score, time, coins, now) || r == m
    ensures m.slot.None? && r.slot.Some? ==> r.defaults == r.slot.value
  {
    var data := if m.slot.Some? then m.slot.value else m.defaults;
    match RecordCompletion(data, id, score, time, coins, now)
    case None => m
    case Some(d) => Memory(Some(d), if m.slot.None? then d else m.defaults)
  }

  /** resetProgress as written: a copy of whatever the defaults object holds by now. */
  function ResetAsWritten(m: Memory): (r: Memory)
    ensures r.defaults == m.defaults && r.slot.Some? && r.slot.value.progress == m.defaults.progress
  {
    var data := if m.slot.Some? then m.slot.value else m.defaults;
    Memory(Some(m.defaults.(settings := data.settings)), m.defaults)
  }

  /**
   * After clearAll, finishing world 1 level 1 and then resetting still
   * lists the level as completed, where ResetRecord gives the defaults.
   */
  lemma ResetAfterClearKeepsProgress()
    ensures var m := CompletionAsWritten(Memory(None, DEFAULT_DATA), LevelId(1, 1), 100, 60, 5, "now");
      var z := ResetAsWritten(m);
      m.slot.Some? && z.slot.Some? && z.slot.value.progress.Some?
      && LevelId(1, 1) in z.slot.value.progress.value.completedLevels
      && z.slot.value != ResetRecord(m.slot.value)
  {
    LevelIdRoundTrip(1, 1);
  }

  // ---------------------------------------------------------------------
  // The steps of updateProgress, in place on the loaded record's parts

  /** Update highscore if better. */
  method RecordHighscore(hs: map<string, Highscore>, levelId: string, score: int, time: int, coins: int)
    returns (r: map<string, Highscore>)
    ensures r == BestScores(hs, levelId, score, time, coins)
  {
    r := hs;
    if levelId !in r || score > r[levelId].score {
      r := r[levelId := Highscore(score, time, coins)];
    }
  }

  /** Mark the level completed, unlock the next level and, after a fourth level, the next world; add the coins. */
  method AdvanceProgress(pr: Progress, levelId: string, worldNum: nat, levelNum: nat, coins: int) returns (r: Progress)
    ensures r == ProgressAfter(pr, levelId, worldNum, levelNum, coins)
  {
    var completed := pr.completedLevels;
    if levelId !in completed {
      completed := completed + [levelId];
    }
    var unlocked := pr.unlockedLevels;
    var next := GetNextLevel(levelId);
    if next.Some? && next.value !in unlocked {
      unlocked := unlocked + [next.value];
    }
    var worlds := pr.unlockedWorlds;
    if levelNum == 4 && worldNum + 1 !in worlds {
      worlds := worlds + [worldNum + 1];
    }
    assert completed == AddOnce(pr.completedLevels, levelId);
    assert unlocked == if next.Some? then AddOnce(pr.unlockedLevels, next.value) else pr.unlockedLevels;
    assert worlds == if levelNum == 4 then AddOnce(pr.unlockedWorlds, worldNum + 1) else pr.unlockedWorlds;
    r := Progress(worlds, unlocked, completed, pr.collectedCrystals, pr.totalCoins + coins);
  }

  /** Set the last play date, and the first one when it is missing. */
  method StampDates(st: Stats, now: string) returns (r: Stats)
    ensures r == StatsAfter(st, now)
  {
    r := st.(lastPlayDate := Some(now));
    if r.firstPlayDate.None? {
      r := r.(firstPlayDate := Some(now));
    }
  }

  // ---------------------------------------------------------------------
  // The storage object

  class GameStorage {
    /** isAvailable(): whether the browser lets the page use localStorage. */
    const available: bool
    /** The parsed content of the 'crystalRush' entry; None when there is none. */
    var slot: Option<SaveData>

    /** The browser's storage as the page finds it. */
    constructor (available: bool, stored: Option<SaveData>)
      ensures this.available == available && slot == stored
    {
      this.available := available;
      slot := stored;
    }

    method IsAvailable() returns (b: bool)
      ensures b == available
    {
      b := available;
    }

    /** load(): nothing when storage cannot be read. */
    method Load() returns (d: Option<SaveData>)
      ensures d == if available then slot else None
    {
      if available {
        d := slot;
      } else {
        d := None;
      }
    }

    /** save(data): false, and nothing written, when storage cannot be written. */
    method Save(data: SaveData) returns (ok: bool)
      modifies this`slot
      ensures ok == available
      ensures slot == if available then Some(data) else old(slot)
    {
      if available {
        slot := Some(data);
      }
      ok := available;
    }

    /** init(): a new player gets the defaults, a returning one has the record migrated. */
    method Init() returns (ok: bool)
      modifies this`slot
      ensures ok == available
      ensures slot == if !available then old(slot)
                      else if old(slot).None? then Some(DEFAULT_DATA)
                      else Some(Migrated(old(slot).value))
    {
      var usable := IsAvailable();
      if !usable {
        return false;
      }
      var data := Load();
      if data.None? {
        var saved := Save(DEFAULT_DATA);
      } else {
        Migrate(data.value);
      }
      return true;
    }

    /** migrate(data): an outdated record gets every missing key from the defaults and the current version, and is saved. */
    method Migrate(data: SaveData)
      modifies this`slot
      ensures slot == if NeedsMigration(data) && available then Some(Filled(data)) else old(slot)
    {
      if data.version.None? || data.version.value != VERSION {
        var d := data;
        var i := 0;
        while i < |KEYS|
          invariant 0 <= i <= |KEYS|
          invariant d == FillKeys(data, KEYS[..i])
        {
          if !Has(d, KEYS[i]) {
            d := FillKey(d, KEYS[i]);
          }
          assert KEYS[..i + 1][..i] == KEYS[..i];
          i := i + 1;
        }
        assert KEYS[..i] == KEYS;
        d := d.(version := Some(VERSION));
        FillKeysFills(data);
        var saved := Save(d);
      }
    }

    /** updateProgress: the record after finishing a level, saved when the update goes through. */
    method UpdateProgress(levelId: string, score: int, time: int, coins: int, now: string) returns (r: Option<SaveData>)
      modifies this`slot
      ensures r == RecordCompletion(LoadedOrDefault(if available then old(slot) else None), levelId, score, time, coins, now)
      ensures slot == if available && r.Some? then r else old(slot)
    {
      var loaded := Load();
      var data := LoadedOrDefault(loaded);
      if data.highscores.None? || data.progress.None? {
        return None;
      }
      var hs := RecordHighscore(data.highscores.value, levelId, score, time, coins);
      var worldNum := FindNumber(levelId, "world", 0);
      var levelNum := FindNumber(levelId, "level", 0);
      if worldNum.None? || levelNum.None? {
        return None;
      }
      var pr := AdvanceProgress(data.progress.value, levelId, worldNum.value, levelNum.value, coins);
      if data.stats.None? {
        return None;
      }
      var st := StampDates(data.stats.value, now);
      var result := data.(highscores := Some(hs), progress := Some(pr), stats := Some(st));
      var saved := Save(result);
      r := Some(result);
    }

    /** isLevelUnlocked */
    method IsLevelUnlocked(levelId: string) returns (r: Option<bool>)
      ensures r == LevelUnlocked(if available then slot else None, levelId)
    {
      var data := Load();
      r := LevelUnlocked(data, levelId);
    }

    /** isWorldUnlocked */
    method IsWorldUnlocked(world: int) returns (r: Option<bool>)
      ensures r == WorldUnlocked(if available then slot else None, world)
    {
      var data := Load();
      r := WorldUnlocked(data, world);
    }

    /** resetProgress: a fresh copy of the defaults keeping the old settings. */
    method ResetProgress()
      modifies this`slot
      ensures slot == if available then Some(ResetRecord(LoadedOrDefault(old(slot)))) else old(slot)
    {
      var loaded := Load();
      var data := LoadedOrDefault(loaded);
      var blank := DEFAULT_DATA.(settings := data.settings);
      var saved := Save(blank);
    }

    /** clearAll: removes the entry. */
    method ClearAll()
      modifies this`slot
      ensures slot == if available then None else old(slot)
    {
      if available {
        slot := None;
      }
    }
  }
}
