/**
 * The puzzle-attempt state machine of the sequence minigame (`SequenceGameScene`):
 * the attempt counter, the one-way `levelCompleted` flag, the correctness tags
 * of the draggable options and the completion guard.
 *
 * The pixel test `distance < 50` is the boolean `near`; the scene and camera
 * validity checks are the boolean `alive`; the Phaser clock is `now` in ms.
 */
module SequenceGame {
  import opened Wrappers
  import SequenceLevels
  import Minigame

  /** A draggable option container: its number and its hidden `isCorrect` tag. */
  datatype OptionTile = OptionTile(number: int, isCorrect: bool)

  /** What one drop did. */
  datatype DropOutcome =
    | AlreadyCompleted                 // ignored: the level was completed before
    | Cancelled                        // ignored: the scene or camera was gone
    | Missed                           // far from the target: back to the start position
    | Wrong                            // near the target with a wrong number
    | Correct(timeMs: int, attempts: int, result: Result<Minigame.Completion, Minigame.ManagerError>)

  /** `createAvailableOptions`: one tile per option, correct iff it is the missing number. */
  method TagOptions(level: SequenceLevels.LevelDef) returns (tiles: seq<OptionTile>)
    ensures |tiles| == |level.availableOptions|
    ensures forall i :: 0 <= i < |tiles| ==>
              tiles[i].number == level.availableOptions[i] &&
              (tiles[i].isCorrect <==> level.availableOptions[i] == level.missingNumber)
  {
    tiles := [];
    var options := level.availableOptions;
    for i := 0 to |options|
      invariant |tiles| == i
      invariant forall j :: 0 <= j < i ==>
                  tiles[j].number == options[j] && (tiles[j].isCorrect <==> options[j] == level.missingNumber)
    {
      tiles := tiles + [OptionTile(options[i], options[i] == level.missingNumber)];
    }
  }

  /** Number of tiles tagged correct. */
  function CorrectCount(tiles: seq<OptionTile>): nat {
    if tiles == [] then 0 else (if tiles[0].isCorrect then 1 else 0) + CorrectCount(tiles[1..])
  }

  lemma {:induction false} CorrectCountIsCount(tiles: seq<OptionTile>, options: seq<int>, missing: int)
    requires |tiles| == |options|
    requires forall i :: 0 <= i < |tiles| ==> (tiles[i].isCorrect <==> options[i] == missing)
    ensures CorrectCount(tiles) == SequenceLevels.Count(missing, options)
  {
    if tiles != [] {
      CorrectCountIsCount(tiles[1..], options[1..], missing);
    }
  }

  /** For every catalog level the tagging marks exactly one option correct. */
  lemma ExactlyOneCorrectTile(n: int, tiles: seq<OptionTile>)
    requires n in SequenceLevels.Levels()
    requires var level := SequenceLevels.Levels()[n];
      |tiles| == |level.availableOptions| &&
      forall i :: 0 <= i < |tiles| ==> (tiles[i].isCorrect <==> level.availableOptions[i] == level.missingNumber)
    ensures CorrectCount(tiles) == 1
  {
    var level := SequenceLevels.Levels()[n];
    SequenceLevels.CatalogWellFormed(n);
    CorrectCountIsCount(tiles, level.availableOptions, level.missingNumber);
  }

  class SequenceGameScene {
    var manager: Minigame.MinigameManager
    var targetLevel: int
    var levelData: Option<SequenceLevels.LevelDef>
    var startTime: Option<int>
    var attempts: int
    var levelCompleted: bool
    var options: seq<OptionTile>

    /** Phaser builds the scene once; `init` runs on every start. */
    constructor (m: Minigame.MinigameManager)
      ensures manager == m && !levelCompleted && attempts == 0 && options == []
    {
      manager := m;
      targetLevel := 1;
      levelData := None;
      startTime := None;
      attempts := 0;
      levelCompleted := false;
      options := [];
    }

    /**
     * `init`: the target level is `data.level || 1`; the result of
     * `setCurrentLevel` is ignored, so for a locked target the level data is
     * that of the manager's previous current level.
     */
    method Init(m: Minigame.MinigameManager, level: Option<int>)
      requires m.Valid()
      modifies this, m`currentLevel
      ensures manager == m && m.Valid()
      ensures targetLevel == if level.None? || level == Some(0) then 1 else level.value
      ensures m.currentLevel == if targetLevel in m.progress.unlockedLevels then targetLevel else old(m.currentLevel)
      ensures levelData == SequenceLevels.Lookup(m.currentLevel)
      ensures startTime.None? && attempts == 0 && !levelCompleted && options == old(options)
    {
      manager := m;
      targetLevel := if level.None? || level == Some(0) then 1 else level.value;
      var _ := m.SetCurrentLevel(targetLevel);
      levelData := m.GetCurrentLevelData();
      startTime := None;
      attempts := 0;
      levelCompleted := false;
    }

    /**
     * `create`: the clock starts, then the sequence and the options are built;
     * destructuring the level data throws when there is none (`ok` false).
     */
    method Create(now: int) returns (ok: bool)
      modifies this`startTime, this`options
      ensures startTime == Some(now)
      ensures ok <==> levelData.Some?
      ensures ok ==> |options| == |levelData.value.availableOptions| &&
                     forall i :: 0 <= i < |options| ==>
                       options[i].number == levelData.value.availableOptions[i] &&
                       (options[i].isCorrect <==> options[i].number == levelData.value.missingNumber)
      ensures !ok ==> options == old(options)
    {
      startTime := Some(now);
      if levelData.None? {
        return false;
      }
      options := TagOptions(levelData.value);
      ok := true;
    }

    /** The `dragstart` handler: ignored once the level is completed. */
    method DragStart(alive: bool) returns (started: bool)
      ensures started <==> alive && !levelCompleted
    {
      started := alive && !levelCompleted;
    }

    /** The `drag` handler: also ignored for NaN coordinates. */
    method Drag(alive: bool, coordinatesValid: bool) returns (moved: bool)
      ensures moved ==> !levelCompleted
      ensures moved <==> alive && !levelCompleted && coordinatesValid
    {
      moved := alive && !levelCompleted && coordinatesValid;
    }

    /** `handleCorrectAnswer`: complete once, then hand `{time, attempts}` to the manager. */
    method HandleCorrectAnswer(now: int, stamp: Minigame.IsoTime) returns (outcome: DropOutcome)
      requires manager.Valid()
      modifies this`levelCompleted, manager`progress, manager`storage
      ensures levelCompleted
      ensures outcome.Correct? && outcome.attempts == attempts
      ensures outcome.timeMs == now - startTime.GetOr(0)
      ensures Minigame.CompletionEffect(manager.minigameType, manager.currentLevel, manager.totalLevels,
                                        Minigame.Performance(outcome.timeMs, attempts), stamp,
                                        old(manager.progress), old(manager.storage), manager.progress, manager.storage,
                                        outcome.result)
    {
      levelCompleted := true;
      var completionTime := now - startTime.GetOr(0);
      var result := manager.CompleteCurrentLevel(Minigame.Performance(completionTime, attempts), stamp);
      outcome := Correct(completionTime, attempts, result);
    }

    /** `handleDropAttempt` for the option at `index`. */
    method HandleDropAttempt(index: int, near: bool, alive: bool, now: int, stamp: Minigame.IsoTime)
      returns (outcome: DropOutcome)
      requires 0 <= index < |options|
      requires manager.Valid()
      modifies this`attempts, this`levelCompleted, manager`progress, manager`storage
      ensures old(levelCompleted) ==>
                outcome == AlreadyCompleted && attempts == old(attempts) && levelCompleted &&
                manager.progress == old(manager.progress) && manager.storage == old(manager.storage)
      ensures !old(levelCompleted) && !alive ==>
                outcome == Cancelled && attempts == old(attempts) && !levelCompleted &&
                manager.progress == old(manager.progress) && manager.storage == old(manager.storage)
      ensures !old(levelCompleted) && alive ==> attempts == old(attempts) + 1
      ensures !old(levelCompleted) && alive && !(near && options[index].isCorrect) ==>
                !levelCompleted && outcome == (if near then Wrong else Missed) &&
                manager.progress == old(manager.progress) && manager.storage == old(manager.storage)
      ensures !old(levelCompleted) && alive && near && options[index].isCorrect ==>
                levelCompleted && outcome.Correct? && outcome.attempts == attempts &&
                outcome.timeMs == now - startTime.GetOr(0) &&
                Minigame.CompletionEffect(manager.minigameType, manager.currentLevel, manager.totalLevels,
                                          Minigame.Performance(outcome.timeMs, attempts), stamp,
                                          old(manager.progress), old(manager.storage), manager.progress,
                                          manager.storage, outcome.result)
      ensures outcome.Correct? <==> !old(levelCompleted) && levelCompleted
    {
      if levelCompleted {
        return AlreadyCompleted;
      }
      if !alive {
        return Cancelled;
      }
      attempts := attempts + 1;
      if near {
        if options[index].isCorrect {
          outcome := HandleCorrectAnswer(now, stamp);
        } else {
          outcome := Wrong;
        }
      } else {
        outcome := Missed;
      }
    }

    /** The `dragend` handler: when the scene is still alive it hands the drop on. */
    method DragEnd(index: int, near: bool, alive: bool, now: int, stamp: Minigame.IsoTime)
      returns (outcome: DropOutcome)
      requires 0 <= index < |options|
      requires manager.Valid()
      modifies this`attempts, this`levelCompleted, manager`progress, manager`storage
      ensures !alive ==>
                outcome == Cancelled && attempts == old(attempts) && levelCompleted == old(levelCompleted) &&
                manager.progress == old(manager.progress) && manager.storage == old(manager.storage)
      ensures alive && old(levelCompleted) ==>
                outcome == AlreadyCompleted && attempts == old(attempts) && levelCompleted &&
                manager.progress == old(manager.progress) && manager.storage == old(manager.storage)
      ensures alive && !old(levelCompleted) ==> attempts == old(attempts) + 1
      ensures alive && !old(levelCompleted) && !(near && options[index].isCorrect) ==>
                !levelCompleted && outcome == (if near then Wrong else Missed) &&
                manager.progress == old(manager.progress) && manager.storage == old(manager.storage)
      ensures alive && !old(levelCompleted) && near && options[index].isCorrect ==>
                levelCompleted && outcome.Correct? && outcome.attempts == attempts &&
                outcome.timeMs == now - startTime.GetOr(0) &&
                Minigame.CompletionEffect(manager.minigameType, manager.currentLevel, manager.totalLevels,
                                          Minigame.Performance(outcome.timeMs, attempts), stamp,
                                          old(manager.progress), old(manager.storage), manager.progress,
                                          manager.storage, outcome.result)
      ensures outcome.Correct? <==> alive && !old(levelCompleted) && levelCompleted
    {
      if !alive {
        return Cancelled;
      }
      outcome := HandleDropAttempt(index, near, alive, now, stamp);
    }
  }

  /**
   * The completion guard: after a correct near drop, any further drop leaves
   * the attempt count and the manager untouched and is reported as ignored,
   * and no tile can be picked up or moved any more.
   */
  method WinThenDropAgain(scene: SequenceGameScene, win: int, other: int, near: bool, now: int, stamp: Minigame.IsoTime)
    returns (started: bool, moved: bool)
    requires 0 <= win < |scene.options| && 0 <= other < |scene.options|
    requires scene.options[win].isCorrect && !scene.levelCompleted
    requires scene.manager.Valid()
    modifies scene, scene.manager
    ensures scene.levelCompleted && scene.attempts == old(scene.attempts) + 1
    ensures !started && !moved
  {
    var first := scene.HandleDropAttempt(win, true, true, now, stamp);
    assert first.Correct?;
    var attemptsAfterWin := scene.attempts;
    var progressAfterWin := scene.manager.progress;
    var second := scene.HandleDropAttempt(other, near, true, now, stamp);
    assert second == AlreadyCompleted;
    assert scene.attempts == attemptsAfterWin && scene.manager.progress == progressAfterWin;
    started := scene.DragStart(true);
    moved := scene.Drag(true, true);
  }
}
