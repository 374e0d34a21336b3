/**
 * The progression engine of one minigame type (`MinigameManager`): the current
 * level pointer, the unlocked-level list, the per-level records, the star rule,
 * the totals and the progress summary, persisted under `"<type>_progress"`.
 *
 * Times are integer milliseconds; a performance time of 0 stands both for 0 and
 * for an absent time, which the source treats alike (both are falsy).
 * `bestTime`'s `Infinity` (and the `null` it becomes once stored) is `None`.
 */
module Minigame {
  import opened Wrappers
  import SequenceLevels

  /** An ISO date string produced by the host clock; only stored, never inspected. */
  type IsoTime = string

  /** The `performanceData` argument of `completeCurrentLevel`. */
  datatype Performance = Performance(timeMs: int, attempts: int)

  /** One entry of `progress.levels`. */
  datatype LevelRecord = LevelRecord(
    completed: bool,
    stars: int,
    bestTime: Option<int>,
    attempts: int,
    completedAt: Option<IsoTime>)

  /** The progress object of one minigame type. */
  datatype Progress = Progress(
    unlockedLevels: seq<int>,
    levels: map<int, LevelRecord>,
    totalStars: int,
    totalPoints: int,
    firstPlayedAt: IsoTime,
    lastPlayedAt: IsoTime)

  /** A parsed stored object: each top-level field may be missing. */
  datatype SavedProgress = SavedProgress(
    unlockedLevels: Option<seq<int>>,
    levels: Option<map<int, LevelRecord>>,
    totalStars: Option<int>,
    totalPoints: Option<int>,
    firstPlayedAt: Option<IsoTime>,
    lastPlayedAt: Option<IsoTime>)

  /** What a storage slot holds: a JSON object, or text that `JSON.parse` rejects. */
  datatype Stored = Json(saved: SavedProgress) | Unparsable

  datatype ManagerError =
    | UnknownMinigameType(minigameType: string)
    | CorruptSave
    | MissingLevelData(level: int)

  /** The object `completeCurrentLevel` returns. */
  datatype Completion = Completion(hasNextLevel: bool, stars: int, totalStars: int, unlockedNextLevel: bool)

  /** The object `getMinigameProgress` returns. */
  datatype Summary = Summary(
    completedLevels: int,
    totalLevels: int,
    completionPercentage: int,
    totalStars: int,
    maxStars: int,
    totalPoints: int,
    isCompleted: bool)

  function Max(a: int, b: int): int { if a < b then b else a }
  function Min(a: int, b: int): int { if a < b then a else b }

  // ---------------------------------------------------------------- catalog

  /** `getLevelData` and `getConfig`: only `"sequence"` is known. */
  function CatalogFor(minigameType: string): (r: Result<(map<int, SequenceLevels.LevelDef>, int), ManagerError>)
    ensures r.Success? <==> minigameType == "sequence"
    ensures r.Success? ==> r.value == (SequenceLevels.Levels(), SequenceLevels.TotalLevels())
    ensures r.Failure? ==> r.error == UnknownMinigameType(minigameType)
  {
    if minigameType == "sequence" then Success((SequenceLevels.Levels(), SequenceLevels.TotalLevels()))
    else Failure(UnknownMinigameType(minigameType))
  }

  // ---------------------------------------------------------------- stars

  /** The speed star: `time && time <= levelData.maxTime * 0.7`, with time in ms. */
  predicate SpeedStar(perf: Performance, level: Option<SequenceLevels.LevelDef>) {
    perf.timeMs != 0 && level.Some? && 10 * perf.timeMs <= 7000 * level.value.maxTime
  }

  /**
   * `calculateStars`. `None` is the TypeError thrown when the level has no
   * definition and the time is truthy (`levelData.maxTime` of `undefined`).
   */
  function CalculateStars(perf: Performance, level: Option<SequenceLevels.LevelDef>): (r: Option<int>)
    ensures r.None? <==> level.None? && perf.timeMs != 0
    ensures r.Some? ==> 1 <= r.value <= 3
    ensures r.Some? ==> (r.value == 3 <==> SpeedStar(perf, level) && perf.attempts == 1)
    ensures r.Some? ==> (r.value == 1 <==> !SpeedStar(perf, level) && perf.attempts != 1)
  {
    if level.None? && perf.timeMs != 0 then None
    else
      var stars := 1 + (if SpeedStar(perf, level) then 1 else 0) + (if perf.attempts == 1 then 1 else 0);
      Some(Min(stars, 3))
  }

  /** A time of 0 (or an absent one) never earns the speed star. */
  lemma NoSpeedStarWithoutTime(attempts: int, level: SequenceLevels.LevelDef)
    ensures CalculateStars(Performance(0, attempts), Some(level)) == Some(if attempts == 1 then 2 else 1)
  {
  }

  // ---------------------------------------------------------------- records

  /** `x || Infinity` for a time: 0 and absent both become `Infinity` (`None`). */
  function OrInfinity(t: Option<int>): Option<int> {
    if t == Some(0) then None else t
  }

  /** `Math.min` where `None` is `Infinity`. */
  function MinTime(a: Option<int>, b: Option<int>): Option<int> {
    match (a, b)
    case (None, _) => b
    case (_, None) => a
    case (Some(x), Some(y)) => Some(Min(x, y))
  }

  function Get(levels: map<int, LevelRecord>, n: int): Option<LevelRecord> {
    if n in levels then Some(levels[n]) else None
  }

  /** The record written by `completeCurrentLevel` over the previous one, if any. */
  function MergeRecord(prev: Option<LevelRecord>, stars: int, timeMs: int, now: IsoTime): (r: LevelRecord)
    ensures r.completed && r.completedAt == Some(now)
    ensures r.stars >= stars
    ensures prev.Some? ==> r.stars >= prev.value.stars
    ensures stars >= 0 ==> r.stars == stars || (prev.Some? && r.stars == prev.value.stars)
    ensures r.attempts == (if prev.Some? then prev.value.attempts else 0) + 1
    ensures timeMs != 0 ==> r.bestTime.Some? && r.bestTime.value <= timeMs
    ensures prev.Some? && OrInfinity(prev.value.bestTime).Some? ==>
              r.bestTime.Some? && r.bestTime.value <= prev.value.bestTime.value
    ensures r.bestTime.Some? ==> r.bestTime == Some(timeMs) || (prev.Some? && r.bestTime == prev.value.bestTime)
    ensures r.bestTime != Some(0)
  {
    var oldStars := if prev.Some? then prev.value.stars else 0;
    var oldBest := if prev.Some? then OrInfinity(prev.value.bestTime) else None;
    var oldAttempts := if prev.Some? then prev.value.attempts else 0;
    LevelRecord(true, Max(stars, oldStars), MinTime(OrInfinity(Some(timeMs)), oldBest), oldAttempts + 1, Some(now))
  }

  // ---------------------------------------------------------------- unlocking

  /** No element occurs twice. */
  predicate NoDup(s: seq<int>) {
    forall i, j :: 0 <= i < j < |s| ==> s[i] != s[j]
  }

  /** `[...new Set(s)]`: the first occurrence of every element, in order. */
  function Dedup(s: seq<int>): seq<int> {
    if s == [] then []
    else
      var d := Dedup(s[..|s| - 1]);
      if s[|s| - 1] in d then d else d + [s[|s| - 1]]
  }

  lemma {:induction false} DedupProperties(s: seq<int>)
    ensures NoDup(Dedup(s))
    ensures forall x :: x in Dedup(s) <==> x in s
    ensures NoDup(s) ==> Dedup(s) == s
  {
    if s != [] {
      var init := s[..|s| - 1];
      DedupProperties(init);
      assert forall x :: x in s <==> x in init || x == s[|s| - 1];
      if NoDup(s) {
        assert NoDup(init);
        assert s[|s| - 1] !in init;
        assert s == init + [s[|s| - 1]];
      }
    }
  }

  /** Lines 68-71: add `next` to the unlocked list when it is at most `total`. */
  function UnlockNext(unlocked: seq<int>, next: int, total: int): seq<int> {
    if next <= total then Dedup(unlocked + [next]) else unlocked
  }

  /**
   * The unlocked list only grows; it gains `next` exactly when `next <= total`,
   * and nothing else; a duplicate-free list stays duplicate-free, keeps its order
   * and gains `next` at its end only if it was missing.
   */
  lemma {:induction false} UnlockNextGrows(unlocked: seq<int>, next: int, total: int)
    ensures forall x :: x in unlocked ==> x in UnlockNext(unlocked, next, total)
    ensures next in UnlockNext(unlocked, next, total) <==> next <= total || next in unlocked
    ensures forall x :: x in UnlockNext(unlocked, next, total) ==> x in unlocked || x == next
    ensures NoDup(unlocked) ==> NoDup(UnlockNext(unlocked, next, total))
    ensures NoDup(unlocked) ==>
              UnlockNext(unlocked, next, total) ==
                (if next <= total && next !in unlocked then unlocked + [next] else unlocked)
  {
    if next <= total {
      var s := unlocked + [next];
      DedupProperties(s);
      assert forall x :: x in s <==> x in unlocked || x == next;
      if NoDup(unlocked) {
        DedupProperties(unlocked);
        if next !in unlocked {
          assert NoDup(s);
        } else {
          assert Dedup(unlocked) == unlocked;
          assert s[..|s| - 1] == unlocked;
        }
      }
    }
  }

  // ---------------------------------------------------------------- totals

  lemma NonEmptyHasKey(levels: map<int, LevelRecord>)
    requires |levels| != 0
    ensures exists k :: k in levels
  {
    if forall k :: k !in levels {
      assert false;
    }
  }

  /** The record `SumStars` takes out first. */
  ghost function PickKey(levels: map<int, LevelRecord>): (k: int)
    requires |levels| != 0
    ensures k in levels
  {
    NonEmptyHasKey(levels);
    var k :| k in levels;
    k
  }

  /** The sum of `stars` over all records (the `reduce` at lines 74-75). */
  ghost function SumStars(levels: map<int, LevelRecord>): int
    decreases |levels|
  {
    if |levels| == 0 then 0
    else
      var k := PickKey(levels);
      assert (levels - {k}).Keys == levels.Keys - {k};
      levels[k].stars + SumStars(levels - {k})
  }

  /** Any record can be taken out of the sum first. */
  lemma {:induction false} SumStarsRemove(levels: map<int, LevelRecord>, k: int)
    requires k in levels
    ensures SumStars(levels) == levels[k].stars + SumStars(levels - {k})
    decreases |levels|
  {
    var j := PickKey(levels);
    if j != k {
      var lj, lk := levels - {j}, levels - {k};
      assert lj.Keys == levels.Keys - {j};
      assert lk.Keys == levels.Keys - {k};
      SumStarsRemove(lj, k);
      SumStarsRemove(lk, j);
      assert lj - {k} == lk - {j};
      assert lj[k] == levels[k] && lk[j] == levels[j];
    }
  }

  /** The total is at most three stars per record when every record holds at most three. */
  lemma {:induction false} SumStarsBounds(levels: map<int, LevelRecord>)
    requires forall k :: k in levels ==> 0 <= levels[k].stars <= 3
    ensures 0 <= SumStars(levels) <= 3 * |levels|
    decreases |levels|
  {
    if |levels| != 0 {
      NonEmptyHasKey(levels);
      var k :| k in levels;
      SumStarsRemove(levels, k);
      assert (levels - {k}).Keys == levels.Keys - {k};
      SumStarsBounds(levels - {k});
    }
  }

  /** Replacing one record by one with at least as many stars never lowers the total. */
  lemma SumStarsUpdate(levels: map<int, LevelRecord>, k: int, r: LevelRecord)
    requires k in levels ==> r.stars >= levels[k].stars
    requires k !in levels ==> r.stars >= 0
    ensures SumStars(levels[k := r]) == r.stars + SumStars(levels - {k})
    ensures SumStars(levels[k := r]) >= SumStars(levels)
  {
    var u := levels[k := r];
    SumStarsRemove(u, k);
    assert u - {k} == levels - {k};
    if k in levels {
      SumStarsRemove(levels, k);
    } else {
      assert levels - {k} == levels;
    }
  }

  /** The loop behind `Object.values(levels).reduce(...)`. */
  method ComputeTotalStars(levels: map<int, LevelRecord>) returns (total: int)
    ensures total == SumStars(levels)
  {
    total := 0;
    var rest := levels;
    while |rest| != 0
      invariant total + SumStars(rest) == SumStars(levels)
      decreases |rest|
    {
      NonEmptyHasKey(rest);
      var k :| k in rest;
      SumStarsRemove(rest, k);
      total := total + rest[k].stars;
      assert (rest - {k}).Keys == rest.Keys - {k};
      rest := rest - {k};
    }
  }

  // ---------------------------------------------------------------- completion

  /**
   * Lines 58-75: the record for `level`, the unlock of `level + 1` and the
   * recomputed `totalStars`; `totalPoints` and the save come after.
   */
  ghost function Recorded(p: Progress, level: int, stars: int, timeMs: int, total: int, now: IsoTime): Progress {
    var lv := p.levels[level := MergeRecord(Get(p.levels, level), stars, timeMs, now)];
    p.(levels := lv, unlockedLevels := UnlockNext(p.unlockedLevels, level + 1, total), totalStars := SumStars(lv))
  }

  /**
   * Replaying a level never regresses it: stored stars do not drop, the stored
   * best time does not rise, the attempt count grows by one, the unlocked list
   * only grows and the star total does not drop.
   */
  lemma RecordedNeverRegresses(p: Progress, level: int, stars: int, timeMs: int, total: int, now: IsoTime)
    requires 1 <= stars <= 3
    requires forall k :: k in p.levels ==> 0 <= p.levels[k].stars
    ensures var q := Recorded(p, level, stars, timeMs, total, now);
      && level in q.levels && q.levels[level].completed
      && (level in p.levels ==> q.levels[level].stars >= p.levels[level].stars)
      && (level in p.levels ==> q.levels[level].attempts == p.levels[level].attempts + 1)
      && (level in p.levels && OrInfinity(p.levels[level].bestTime).Some? ==>
            q.levels[level].bestTime.Some? && q.levels[level].bestTime.value <= p.levels[level].bestTime.value)
      && (forall x :: x in p.unlockedLevels ==> x in q.unlockedLevels)
      && q.totalStars >= SumStars(p.levels)
      && q.levels.Keys == p.levels.Keys + {level}
  {
    var r := MergeRecord(Get(p.levels, level), stars, timeMs, now);
    SumStarsUpdate(p.levels, level, r);
    UnlockNextGrows(p.unlockedLevels, level + 1, total);
  }

  // ---------------------------------------------------------------- persistence

  function ProgressKey(minigameType: string): string {
    minigameType + "_progress"
  }

  /** The `defaultProgress` object of `loadProgress`. */
  function DefaultProgress(now: IsoTime): Progress {
    Progress([1], map[], 0, 0, now, now)
  }

  /** `{ ...defaults, ...saved }`: the fields the saved object has override the defaults. */
  function Overlay(d: Progress, s: SavedProgress): Progress {
    Progress(
      s.unlockedLevels.GetOr(d.unlockedLevels),
      s.levels.GetOr(d.levels),
      s.totalStars.GetOr(d.totalStars),
      s.totalPoints.GetOr(d.totalPoints),
      s.firstPlayedAt.GetOr(d.firstPlayedAt),
      s.lastPlayedAt.GetOr(d.lastPlayedAt))
  }

  /** What `JSON.stringify(this.progress)` saves: every field present. */
  function Snapshot(p: Progress): SavedProgress {
    SavedProgress(Some(p.unlockedLevels), Some(p.levels), Some(p.totalStars),
                  Some(p.totalPoints), Some(p.firstPlayedAt), Some(p.lastPlayedAt))
  }

  /** `loadProgress`; `None` is the exception `JSON.parse` throws on a corrupt slot. */
  function LoadProgress(storage: map<string, Stored>, minigameType: string, now: IsoTime): (r: Option<Progress>)
    ensures ProgressKey(minigameType) !in storage ==> r == Some(DefaultProgress(now))
    ensures ProgressKey(minigameType) in storage && storage[ProgressKey(minigameType)].Unparsable? ==> r.None?
  {
    var key := ProgressKey(minigameType);
    if key !in storage then Some(DefaultProgress(now))
    else match storage[key]
      case Unparsable => None
      case Json(saved) => Some(Overlay(DefaultProgress(now), saved))
  }

  /** Loading what was saved gives the saved progress back, whatever the clock says. */
  lemma LoadAfterSave(storage: map<string, Stored>, minigameType: string, p: Progress, now: IsoTime)
    ensures LoadProgress(storage[ProgressKey(minigameType) := Json(Snapshot(p))], minigameType, now) == Some(p)
  {
  }

  /** A saved object's fields override the defaults, and missing ones fall back to them. */
  lemma LoadOverridesDefaults(storage: map<string, Stored>, minigameType: string, now: IsoTime)
    requires ProgressKey(minigameType) in storage && storage[ProgressKey(minigameType)].Json?
    ensures var s := storage[ProgressKey(minigameType)].saved;
      var r := LoadProgress(storage, minigameType, now);
      && r.Some?
      && r.value.unlockedLevels == (if s.unlockedLevels.Some? then s.unlockedLevels.value else [1])
      && r.value.levels == (if s.levels.Some? then s.levels.value else map[])
      && r.value.totalStars == (if s.totalStars.Some? then s.totalStars.value else 0)
      && r.value.totalPoints == (if s.totalPoints.Some? then s.totalPoints.value else 0)
  {
  }

  // ---------------------------------------------------------------- summary

  /** `Math.round(completed / total * 100)` for a positive total. */
  function RoundedPercent(completed: int, total: int): (r: int)
    requires total > 0
    ensures 2 * total * r <= 200 * completed + total < 2 * total * (r + 1)
  {
    (200 * completed + total) / (2 * total)
  }

  /**
   * What `completeCurrentLevel` leaves behind on a manager of `minigameType`
   * whose current level is `level`: from progress `p0` and storage `s0` to
   * `p1` and `s1`, answering `r`.
   */
  ghost predicate CompletionEffect(minigameType: string, level: int, total: int, perf: Performance, now: IsoTime,
                                   p0: Progress, s0: map<string, Stored>, p1: Progress, s1: map<string, Stored>,
                                   r: Result<Completion, ManagerError>)
  {
    var def := SequenceLevels.Lookup(level);
    var stars := CalculateStars(perf, def);
    && (stars.None? ==> p1 == p0 && s1 == s0)
    && (stars.Some? && def.None? ==>
          p1 == Recorded(p0, level, stars.value, perf.timeMs, total, now) && s1 == s0)
    && (def.None? ==> r == Failure(MissingLevelData(level)))
    && (def.Some? ==>
          && stars.Some?
          && p1 == Recorded(p0, level, stars.value, perf.timeMs, total, now)
                     .(totalPoints := p0.totalPoints + def.value.points * stars.value, lastPlayedAt := now)
          && s1 == s0[ProgressKey(minigameType) := Json(Snapshot(p1))]
          && r == Success(Completion(level < total, stars.value, p1.totalStars, level + 1 <= total)))
  }

  // ---------------------------------------------------------------- the manager

  class MinigameManager {
    const minigameType: string
    const levelData: map<int, SequenceLevels.LevelDef>
    const totalLevels: int
    var currentLevel: int
    var progress: Progress
    /** The `localStorage` entries this manager reads and writes. */
    var storage: map<string, Stored>

    /** The manager was built for the sequence minigame, the only type its constructor accepts. */
    ghost predicate Valid()
      reads this
    {
      && minigameType == "sequence"
      && levelData == SequenceLevels.Levels()
      && totalLevels == SequenceLevels.TotalLevels()
    }

    constructor Make(p: Progress, stored: map<string, Stored>)
      ensures Valid()
      ensures currentLevel == 1 && progress == p && storage == stored
    {
      minigameType := "sequence";
      levelData := SequenceLevels.Levels();
      totalLevels := SequenceLevels.TotalLevels();
      currentLevel := 1;
      progress := p;
      storage := stored;
    }

    /**
     * `new MinigameManager(minigameType)`: throws for an unknown type, and
     * throws when the stored progress cannot be parsed.
     */
    static method Create(minigameType: string, stored: map<string, Stored>, now: IsoTime)
      returns (r: Result<MinigameManager, ManagerError>)
      ensures minigameType != "sequence" ==> r == Failure(UnknownMinigameType(minigameType))
      ensures minigameType == "sequence" && LoadProgress(stored, minigameType, now).None? ==>
                r == Failure(CorruptSave)
      ensures minigameType == "sequence" && LoadProgress(stored, minigameType, now).Some? ==> r.Success?
      ensures r.Success? ==>
                && fresh(r.value) && r.value.Valid()
                && r.value.currentLevel == 1 && r.value.storage == stored
                && Some(r.value.progress) == LoadProgress(stored, minigameType, now)
    {
      var catalog := CatalogFor(minigameType);
      if catalog.Failure? {
        return Failure(catalog.error);
      }
      var loaded := LoadProgress(stored, minigameType, now);
      if loaded.None? {
        return Failure(CorruptSave);
      }
      var m := new MinigameManager.Make(loaded.value, stored);
      r := Success(m);
    }

    /** `getCurrentLevelData`: `undefined` (`None`) for a level without a definition. */
    function GetCurrentLevelData(): (r: Option<SequenceLevels.LevelDef>)
      reads this
      requires Valid()
      ensures r == SequenceLevels.Lookup(currentLevel)
    {
      if currentLevel in levelData then Some(levelData[currentLevel]) else None
    }

    /** `isLevelUnlocked`: `unlockedLevels.includes(n)`. */
    predicate IsLevelUnlocked(n: int): (r: bool)
      reads this
      ensures r <==> exists i :: 0 <= i < |progress.unlockedLevels| && progress.unlockedLevels[i] == n
      ensures progress.unlockedLevels == [1] ==> (r <==> n == 1)
    {
      n in progress.unlockedLevels
    }

    /**
     * `hasNextLevel`: compares with the number of catalog entries, not with
     * the catalog keys, so on level 2 it answers true although level 3 has
     * no definition.
     */
    predicate HasNextLevel(): (r: bool)
      reads this
      ensures Valid() ==> (r <==> currentLevel < 6)
      ensures Valid() && currentLevel == 2 ==> r && SequenceLevels.Lookup(currentLevel + 1).None?
    {
      SequenceLevels.CatalogKeys();
      currentLevel < totalLevels
    }

    /** `setCurrentLevel`: moves only to an unlocked level. */
    method SetCurrentLevel(n: int) returns (ok: bool)
      modifies this`currentLevel
      ensures ok <==> n in progress.unlockedLevels
      ensures currentLevel == if ok then n else old(currentLevel)
    {
      ok := IsLevelUnlocked(n);
      if ok {
        currentLevel := n;
      }
    }

    /** `goToNextLevel`: `None` stands for the `false` it returns on the last level. */
    method GoToNextLevel() returns (r: Option<int>)
      modifies this`currentLevel
      ensures old(currentLevel) < totalLevels ==> currentLevel == old(currentLevel) + 1 && r == Some(currentLevel)
      ensures old(currentLevel) >= totalLevels ==> currentLevel == old(currentLevel) && r.None?
    {
      if HasNextLevel() {
        currentLevel := currentLevel + 1;
        return Some(currentLevel);
      }
      return None;
    }

    /** `goToPreviousLevel`. */
    method GoToPreviousLevel() returns (r: Option<int>)
      modifies this`currentLevel
      ensures old(currentLevel) > 1 ==> currentLevel == old(currentLevel) - 1 && r == Some(currentLevel)
      ensures old(currentLevel) <= 1 ==> currentLevel == old(currentLevel) && r.None?
    {
      if currentLevel > 1 {
        currentLevel := currentLevel - 1;
        return Some(currentLevel);
      }
      return None;
    }

    /** `getLevelProgress`: the stored record, or the empty one. */
    function GetLevelProgress(n: int): (r: LevelRecord)
      reads this
      ensures n in progress.levels ==> r == progress.levels[n]
      ensures n !in progress.levels ==> !r.completed && r.stars == 0 && r.bestTime.None? && r.attempts == 0
    {
      if n in progress.levels then progress.levels[n] else LevelRecord(false, 0, None, 0, None)
    }

    /** `getMinigameProgress`. */
    function GetMinigameProgress(): (s: Summary)
      reads this
      requires Valid()
      ensures s.completedLevels == |progress.levels| && s.totalLevels == 6
      ensures 12 * s.completionPercentage <= 200 * s.completedLevels + 6 < 12 * (s.completionPercentage + 1)
      ensures s.maxStars == 18
      ensures s.totalStars == progress.totalStars && s.totalPoints == progress.totalPoints
      ensures s.isCompleted <==> |progress.levels| == 6
    {
      SequenceLevels.CatalogKeys();
      var completed := |progress.levels|;
      Summary(completed, totalLevels, RoundedPercent(completed, totalLevels), progress.totalStars,
              totalLevels * 3, progress.totalPoints, completed == totalLevels)
    }

    /** `saveProgress`. */
    method SaveProgress(now: IsoTime)
      modifies this`progress, this`storage
      ensures progress == old(progress).(lastPlayedAt := now)
      ensures storage == old(storage)[ProgressKey(minigameType) := Json(Snapshot(progress))]
    {
      progress := progress.(lastPlayedAt := now);
      storage := storage[ProgressKey(minigameType) := Json(Snapshot(progress))];
    }

    /** `resetProgress`: drop the stored key and start again from the defaults. */
    method ResetProgress(now: IsoTime)
      modifies this`progress, this`storage
      ensures storage == old(storage) - {ProgressKey(minigameType)}
      ensures progress == DefaultProgress(now)
    {
      storage := storage - {ProgressKey(minigameType)};
      var loaded := LoadProgress(storage, minigameType, now);
      progress := loaded.value;
    }

    /**
     * `completeCurrentLevel`. When the current level has no definition the
     * source throws: before any change if the time is truthy, otherwise after
     * the record, the unlock and the star total were written but before the
     * points and the save.
     */
    method CompleteCurrentLevel(perf: Performance, now: IsoTime) returns (r: Result<Completion, ManagerError>)
      requires Valid()
      modifies this`progress, this`storage
      ensures CompletionEffect(minigameType, currentLevel, totalLevels, perf, now, old(progress), old(storage),
                               progress, storage, r)
    {
      ghost var before := progress;
      var def := GetCurrentLevelData();
      var stars := CalculateStars(perf, def);
      if stars.None? {
        return Failure(MissingLevelData(currentLevel));
      }
      var record := MergeRecord(Get(progress.levels, currentLevel), stars.value, perf.timeMs, now);
      progress := progress.(levels := progress.levels[currentLevel := record]);
      var nextLevel := currentLevel + 1;
      if nextLevel <= totalLevels {
        progress := progress.(unlockedLevels := Dedup(progress.unlockedLevels + [nextLevel]));
      }
      assert progress.unlockedLevels == UnlockNext(before.unlockedLevels, nextLevel, totalLevels);
      var total := ComputeTotalStars(progress.levels);
      progress := progress.(totalStars := total);
      assert progress == Recorded(before, currentLevel, stars.value, perf.timeMs, totalLevels, now);
      if def.None? {
        return Failure(MissingLevelData(currentLevel));
      }
      progress := progress.(totalPoints := progress.totalPoints + def.value.points * stars.value);
      SaveProgress(now);
      r := Success(Completion(HasNextLevel(), stars.value, progress.totalStars, nextLevel <= totalLevels));
    }
  }
}
