/**
 * The `pointerdown` handler of the next-level button in `CongratulationsScene`:
 * it completes the current level a second time, then moves on to the next
 * level or, on the last one, to the minigame-completed scene.
 *
 * The registry values `currentMinigameManager`, `levelTime` (ms here) and
 * `levelAttempts` are passed in explicitly.
 */
module Congratulations {
  import opened Wrappers
  import SequenceLevels
  import Minigame
  import SequenceGame

  /** Where the handler sends the game. */
  datatype Transition =
    | NoManager                                          // no manager in the registry: nothing happens
    | Crashed(error: Minigame.ManagerError)              // `completeCurrentLevel` threw
    | NextLevel(level: int)                              // `SequenceGameScene` with `{ level }`
    | MinigameCompleted(minigameType: string, progress: Minigame.Summary)

  /** `levelTime || 60` (seconds), in ms. */
  function TimeOrDefault(levelTime: Option<int>): (t: int)
    ensures levelTime.Some? && levelTime.value != 0 ==> t == levelTime.value
    ensures levelTime.None? || levelTime == Some(0) ==> t == 60000
  {
    if levelTime.None? || levelTime == Some(0) then 60000 else levelTime.value
  }

  /** `levelAttempts || 1`. */
  function AttemptsOrDefault(levelAttempts: Option<int>): (a: int)
    ensures levelAttempts.Some? && levelAttempts.value != 0 ==> a == levelAttempts.value
    ensures levelAttempts.None? || levelAttempts == Some(0) ==> a == 1
  {
    if levelAttempts.None? || levelAttempts == Some(0) then 1 else levelAttempts.value
  }

  method OnNextPressed(manager: Minigame.MinigameManager?, levelTime: Option<int>, levelAttempts: Option<int>,
                       stamp: Minigame.IsoTime)
    returns (t: Transition)
    requires manager != null ==> manager.Valid()
    modifies manager
    ensures manager == null ==> t == NoManager
    ensures manager != null ==>
      var perf := Minigame.Performance(TimeOrDefault(levelTime), AttemptsOrDefault(levelAttempts));
      var def := SequenceLevels.Lookup(old(manager.currentLevel));
      var stars := Minigame.CalculateStars(perf, def);
      && (def.None? ==> t == Crashed(Minigame.MissingLevelData(old(manager.currentLevel))) &&
                          manager.currentLevel == old(manager.currentLevel) &&
                          manager.progress == old(manager.progress) && manager.storage == old(manager.storage))
      && (def.Some? ==>
            && stars.Some?
            && manager.progress ==
                 Minigame.Recorded(old(manager.progress), old(manager.currentLevel), stars.value, perf.timeMs,
                                   manager.totalLevels, stamp)
                   .(totalPoints := old(manager.progress.totalPoints) + def.value.points * stars.value,
                     lastPlayedAt := stamp)
            && manager.storage == old(manager.storage)[Minigame.ProgressKey(manager.minigameType) :=
                                                         Minigame.Json(Minigame.Snapshot(manager.progress))]
            && (old(manager.currentLevel) < manager.totalLevels ==>
                  manager.currentLevel == old(manager.currentLevel) + 1 && t == NextLevel(manager.currentLevel))
            && (old(manager.currentLevel) >= manager.totalLevels ==>
                  manager.currentLevel == old(manager.currentLevel) &&
                  t == MinigameCompleted(manager.minigameType, manager.GetMinigameProgress())))
  {
    if manager == null {
      return NoManager;
    }
    var perf := Minigame.Performance(TimeOrDefault(levelTime), AttemptsOrDefault(levelAttempts));
    var completion := manager.CompleteCurrentLevel(perf, stamp);
    if completion.Failure? {
      return Crashed(completion.error);
    }
    if completion.value.hasNextLevel {
      var next := manager.GoToNextLevel();
      t := NextLevel(next.value);
    } else {
      t := MinigameCompleted(manager.minigameType, manager.GetMinigameProgress());
    }
  }

  /**
   * One win of a level is recorded twice: once by the correct drop and once by
   * this handler, so the stored attempt count of the level grows by two.
   */
  method WinAndContinue(scene: SequenceGame.SequenceGameScene, win: int, now: int, stamp: Minigame.IsoTime)
    returns (t: Transition)
    requires 0 <= win < |scene.options| && scene.options[win].isCorrect && !scene.levelCompleted
    requires scene.manager.Valid()
    requires SequenceLevels.Lookup(scene.manager.currentLevel).Some?
    modifies scene, scene.manager
    ensures var level := old(scene.manager.currentLevel);
      && level in scene.manager.progress.levels
      && scene.manager.progress.levels[level].attempts ==
           (if level in old(scene.manager.progress.levels) then old(scene.manager.progress.levels[level].attempts) else 0) + 2
      && (level < scene.manager.totalLevels ==> t == NextLevel(level + 1))
  {
    var m := scene.manager;
    var level := m.currentLevel;
    var before := m.progress;
    var outcome := scene.HandleDropAttempt(win, true, true, now, stamp);
    ghost var stars := Minigame.CalculateStars(Minigame.Performance(outcome.timeMs, outcome.attempts),
                                               SequenceLevels.Lookup(level)).value;
    assert m.progress.levels[level] == Minigame.MergeRecord(Minigame.Get(before.levels, level), stars, outcome.timeMs, stamp);
    t := OnNextPressed(m, Some(outcome.timeMs), Some(outcome.attempts), stamp);
  }
}
