# Sequence minigame core, modelled in Dafny

This project models the game logic of a Phaser educational game in which a
child completes number sequences ("1, 2, ?, 4, 5") by dragging the missing
number into place. Rendering, tweens and sound are left out; what remains is
modelled and proved:

- **Progression engine** (`module Minigame`, class `MinigameManager`): the
  current-level pointer, the unlocked-level list that only grows, the
  per-level records merged by maximum stars and minimum best time, the
  1..3 star rule, the star and point totals, the progress summary, and
  loading, saving and resetting the progress in `localStorage`.
- **Level catalog** (`module SequenceLevels`): the six level definitions and
  `totalLevels`, with their invariants. The catalog keys are
  `{1, 2, 6, 11, 16, 21}` while `totalLevels` is 6, so levels 3, 4 and 5 have no
  definition and every lookup is partial.
- **Puzzle scene** (`module SequenceGame`, class `SequenceGameScene`): the
  attempt counter, the one-way `levelCompleted` flag, the tagging of the
  correct option, the drag guards and the completion guard.
- **Congratulations button** (`module Congratulations`): the second
  completion of the same win, then the next level or the completed screen.
- **Scene persistence** (`module ScenePersistence`): the one resumable-scene
  slot with its 24-hour time-to-live, clear-on-stale and clear-on-corrupt,
  the scene validity check and the allow-list of persisted scenes.
- **Level menu** (`module LevelMenu`): the first-visit flag of the guide
  character and its reset helpers, the configuration merge, the 5x5 grid
  and `startLevel`.
- **Dialog queue** (`module CuyGuide`): one dialog on screen, a FIFO queue of
  waiting dialogs, the hide completion and the dialog-position table.
- **Background music** (`module Audio`): the mute, playing and
  user-interaction flags, the persisted mute flag and the singleton.

Conventions used throughout:

- Time is an integer number of milliseconds. The source's `time` is in
  seconds, so `time <= maxTime * 0.7` becomes `10 * ms <= 7000 * maxTime`.
  A time of 0 and an absent time are both falsy in the source and coincide.
- `Infinity` (and the `null` it becomes in JSON) for `bestTime` is `None`.
- ISO date strings are opaque `string` values passed in as `now` or `stamp`.
- `localStorage` is a Dafny value per component: a `map<string, Stored>` for
  the progress, one `Option` slot for the saved scene, a string map for the
  level menu, an `Option<bool>` for the mute flag. Their keys are disjoint.
- A thrown exception is an error value (`Failure`, `None`, `Crashed`,
  `threw`) together with exactly the state changes made before the throw.
- The Phaser registry and `MinigameManager.getInstance` (which the manager
  does not define) are replaced by explicit parameters.

`loadProgress` (`src/managers/MinigameManager.js:155-167`) has no `try`/`catch`
around `JSON.parse`, so a corrupt save makes the manager's constructor throw
(`Minigame.MinigameManager.Create` returns `Failure(CorruptSave)`).

## Model

| member | source | states |
|---|---|---|
| SequenceLevels.Lookup | src/minigames/sequence/levels/sequenceLevels.js:1-107 | a level is found exactly for the numbers 1, 2, 6, 11, 16 and 21; the entry found is that key's definition and is well formed |
| SequenceLevels.Filled | src/minigames/sequence/levels/sequenceLevels.js:5-6 | filling the blank keeps the sequence length |
| SequenceLevels.FiveSlotWellFormed | src/minigames/sequence/levels/sequenceLevels.js:5-8 | a five-slot entry with one blank, three distinct options holding the answer and equal steps is well formed |
| SequenceLevels.CatalogWellFormed | src/minigames/sequence/levels/sequenceLevels.js:3-107 | every entry has exactly one blank, at `targetPosition`; its answer occurs exactly once among the options; the filled sequence has a constant step; `maxTime` and `points` are positive |
| SequenceLevels.CatalogKeys | src/minigames/sequence/levels/sequenceLevels.js:117 | the keys are {1,2,6,11,16,21}, `totalLevels` is 6, and level 3 is within `totalLevels` yet has no definition |
| SequenceLevels.RequiredStarsIncrease | src/minigames/sequence/levels/sequenceLevels.js:15-106 | `requiredStars` strictly increases with the level number |
| Minigame.CatalogFor | src/managers/MinigameManager.js:13-35 | only "sequence" has a catalog; any other type is the unknown-type error |
| Minigame.CalculateStars | src/managers/MinigameManager.js:88-102 | stars are 1..3; 3 exactly with the speed star and a first-try win; 1 exactly with neither; it throws exactly when the level is undefined and the time is truthy |
| Minigame.NoSpeedStarWithoutTime | src/managers/MinigameManager.js:92 | a time of 0 or an absent time earns no speed star |
| Minigame.MergeRecord | src/managers/MinigameManager.js:58-65 | the new record is completed, keeps the larger star count, the smaller non-zero best time, and counts one more completion |
| Minigame.DedupProperties | src/managers/MinigameManager.js:70 | `[...new Set(s)]` has no duplicates, the same elements, and leaves a duplicate-free list as it is |
| Minigame.UnlockNextGrows | src/managers/MinigameManager.js:68-71 | the unlocked list only grows, gains the next level exactly when it is at most `totalLevels`, gains nothing else, and stays duplicate-free |
| Minigame.SumStarsRemove | src/managers/MinigameManager.js:74-75 | the star total can take any record out first, so it is independent of the key order |
| Minigame.SumStarsBounds | src/managers/MinigameManager.js:74-75 | the star total lies between 0 and three stars per record |
| Minigame.SumStarsUpdate | src/managers/MinigameManager.js:58-75 | replacing a record by one with no fewer stars never lowers the total |
| Minigame.ComputeTotalStars | src/managers/MinigameManager.js:74-75 | the reduce loop computes the sum of stored stars |
| Minigame.RecordedNeverRegresses | src/managers/MinigameManager.js:58-75 | a replay never lowers stored stars or raises the best time, adds one completion, keeps every unlocked level and never lowers the star total |
| Minigame.LoadProgress | src/managers/MinigameManager.js:155-167 | no stored key gives the defaults; an unparsable slot throws |
| Minigame.LoadAfterSave | src/managers/MinigameManager.js:166-171 | loading what `saveProgress` wrote gives the same progress back |
| Minigame.LoadOverridesDefaults | src/managers/MinigameManager.js:157-166 | each field of the saved object overrides the default; missing fields are `[1]`, empty levels and zero totals |
| Minigame.RoundedPercent | src/managers/MinigameManager.js:141-146 | the percentage is 100·completed/total rounded half up |
| Minigame.MinigameManager.Create | src/managers/MinigameManager.js:4-10 | an unknown type throws; a corrupt save throws; for "sequence" with a readable save it succeeds, at level 1, with the loaded progress |
| Minigame.MinigameManager.GetCurrentLevelData | src/managers/MinigameManager.js:38-40 | the current level's definition, or nothing when it has none |
| Minigame.MinigameManager.IsLevelUnlocked | src/managers/MinigameManager.js:126-128 | true exactly when the level occurs in the unlocked list; with the initial list `[1]` only level 1 is unlocked |
| Minigame.MinigameManager.HasNextLevel | src/managers/MinigameManager.js:121-123 | true exactly below the 6 catalog entries, so on level 2 it is true although level 3 has no definition |
| Minigame.MinigameManager.SetCurrentLevel | src/managers/MinigameManager.js:42-48 | moves to the level and answers true exactly when it is unlocked; otherwise nothing changes |
| Minigame.MinigameManager.GoToNextLevel | src/managers/MinigameManager.js:105-111 | increments and returns the new level exactly when `currentLevel < totalLevels`, without an unlock check |
| Minigame.MinigameManager.GoToPreviousLevel | src/managers/MinigameManager.js:113-119 | decrements exactly when `currentLevel > 1` |
| Minigame.MinigameManager.GetLevelProgress | src/managers/MinigameManager.js:130-137 | the stored record, or an uncompleted record with no stars, no best time and no attempts |
| Minigame.MinigameManager.GetMinigameProgress | src/managers/MinigameManager.js:139-152 | completed = number of records, total 6, rounded percentage, 18 max stars, completed exactly when all 6 have records |
| Minigame.MinigameManager.SaveProgress | src/managers/MinigameManager.js:169-172 | stamps `lastPlayedAt` and writes the whole progress under `<type>_progress` |
| Minigame.MinigameManager.ResetProgress | src/managers/MinigameManager.js:174-177 | removes the stored key and restores the defaults |
| Minigame.MinigameManager.CompleteCurrentLevel | src/managers/MinigameManager.js:51-86 | writes the merged record, unlocks the next level, recomputes the star total, adds this completion's points and saves; reports `hasNextLevel` and the unlock comparison; for an undefined level it fails with exactly the partial changes the source makes |
| SequenceGame.TagOptions | src/minigames/sequence/scenes/SequenceGameScene.js:237-258 | one tile per option, in order, correct exactly when its number is the missing one |
| SequenceGame.CorrectCountIsCount | src/minigames/sequence/scenes/SequenceGameScene.js:251-252 | the number of correct tiles is the number of occurrences of the answer among the options |
| SequenceGame.ExactlyOneCorrectTile | src/minigames/sequence/scenes/SequenceGameScene.js:251-256 | for every catalog level exactly one option is tagged correct |
| SequenceGame.SequenceGameScene.Init | src/minigames/sequence/scenes/SequenceGameScene.js:13-38 | target is `data.level` or 1; a locked target leaves the previous level; counters reset, flag cleared, clock unset |
| SequenceGame.SequenceGameScene.Create | src/minigames/sequence/scenes/SequenceGameScene.js:83-103 | the clock starts; the options are built exactly when the level has data |
| SequenceGame.SequenceGameScene.DragStart | src/minigames/sequence/scenes/SequenceGameScene.js:332-339 | a drag starts exactly when the scene is alive and the level not completed; after a win none starts (`WinThenDropAgain`) |
| SequenceGame.SequenceGameScene.Drag | src/minigames/sequence/scenes/SequenceGameScene.js:358-371 | a drag moves only when alive, not completed and the coordinates are numbers; after a win nothing moves (`WinThenDropAgain`) |
| SequenceGame.SequenceGameScene.HandleCorrectAnswer | src/minigames/sequence/scenes/SequenceGameScene.js:451-478 | sets the flag and completes the level once with the elapsed time and the attempt count; the manager's progress and storage are what `completeCurrentLevel` leaves (`Minigame.CompletionEffect`), including its failure on a level without data |
| SequenceGame.SequenceGameScene.HandleDropAttempt | src/minigames/sequence/scenes/SequenceGameScene.js:415-448 | a completed level ignores the drop; a processed drop adds one attempt, far or near; a far drop is `Missed` and a near wrong one `Wrong`, neither touching the manager; only a near correct drop completes, with the manager's new progress and storage |
| SequenceGame.SequenceGameScene.DragEnd | src/minigames/sequence/scenes/SequenceGameScene.js:374-386 | a dead scene ignores the drop; otherwise as `handleDropAttempt`: ignored after a win, one more attempt, `Missed` or `Wrong` with the manager untouched, or the completion with the manager's new progress and storage |
| SequenceGame.WinThenDropAgain | src/minigames/sequence/scenes/SequenceGameScene.js:332-420 | after a win no further drop changes the attempts or the progress, and no drag starts or moves |
| Congratulations.TimeOrDefault | src/scenes/CongratulationsScene.js:110 | `levelTime`, or 60 seconds when it is falsy |
| Congratulations.AttemptsOrDefault | src/scenes/CongratulationsScene.js:111 | `levelAttempts`, or 1 when it is falsy |
| Congratulations.OnNextPressed | src/scenes/CongratulationsScene.js:98-133 | no manager: nothing happens; a level without data crashes with no change; otherwise the level is completed again and saved, then the next level is started when there is one, else the completed screen with the summary |
| Congratulations.WinAndContinue | src/scenes/CongratulationsScene.js:109-124 | one win records two completions of the level, then moves to the next level |
| ScenePersistence.ReadSlot | src/managers/ScenePersistenceManager.js:33-54 | a state is returned exactly for a parsable slot no older than 24 hours, and the slot stays; otherwise null and the slot is cleared |
| ScenePersistence.ReadAfterSave | src/managers/ScenePersistenceManager.js:14-47 | reading within the maximum age after a save returns the same key, time and data |
| ScenePersistence.MaxAgeBoundary | src/managers/ScenePersistenceManager.js:40-45 | an age of exactly 24 hours is kept, one millisecond more is cleared |
| ScenePersistence.ReadIsStable | src/managers/ScenePersistenceManager.js:33-54 | a second read at the same time returns what the first did |
| ScenePersistence.IsValidScene | src/managers/ScenePersistenceManager.js:100-106 | "MainMenuScene" is always valid; any other key exactly when it is in the list; with the default empty list only "MainMenuScene" |
| ScenePersistence.SavedSceneValidIffRegistered | src/managers/ScenePersistenceManager.js:100-128 | a scene the tracker saves is valid exactly when it is registered, since "MainMenuScene" is never saved |
| ScenePersistence.IntermediateScenesNotPersisted | src/managers/ScenePersistenceManager.js:116-128 | seven keys are persisted; menus and result screens are not |
| ScenePersistence.SceneSlot.SaveCurrentScene | src/managers/ScenePersistenceManager.js:14-27 | the slot holds the key, the current time and the data |
| ScenePersistence.SceneSlot.GetSavedSceneState | src/managers/ScenePersistenceManager.js:33-54 | the result and the slot are those of `ReadSlot` |
| ScenePersistence.SceneSlot.ClearSavedScene | src/managers/ScenePersistenceManager.js:59-66 | the slot is empty |
| ScenePersistence.SceneSlot.HasSavedScene | src/managers/ScenePersistenceManager.js:72-74 | true exactly when a read returns a state |
| ScenePersistence.SceneSlot.GetSavedSceneKey | src/managers/ScenePersistenceManager.js:80-83 | the state's key, or null |
| ScenePersistence.SceneSlot.GetSavedSceneData | src/managers/ScenePersistenceManager.js:89-92 | the state's data, or null |
| ScenePersistence.SceneSlot.OnSceneStart | src/managers/ScenePersistenceManager.js:114-129 | only the allow-listed scenes are saved, with null data |
| LevelMenu.VisitedKey | src/scenes/LevelMenuScene.js:26 | every visited key starts with `cuyguide_` |
| LevelMenu.Visit | src/scenes/LevelMenuScene.js:25-36 | the guide shows exactly when the key is not "true"; afterwards the key is "true" and no other key changes |
| LevelMenu.ShowsOnlyOnce | src/scenes/LevelMenuScene.js:25-36 | the second visit of a type never shows the guide, and another type's answer is unaffected |
| LevelMenu.ForgetVisit | src/scenes/LevelMenuScene.js:42-45 | only that type's key is removed |
| LevelMenu.ForgetAllVisits | src/scenes/LevelMenuScene.js:50-54 | exactly the keys starting with `cuyguide_` are removed, every other entry is kept, and no visited key of any type remains |
| LevelMenu.ResetShowsAgain | src/scenes/LevelMenuScene.js:42-54 | after either reset the next visit shows the guide again; the full reset removes exactly the `cuyguide_` keys |
| LevelMenu.ShouldShowCuyGuide | src/scenes/LevelMenuScene.js:25-36 | result and storage are those of `Visit` |
| LevelMenu.ResetCuyGuideTracking | src/scenes/LevelMenuScene.js:42-45 | storage loses that type's key only |
| LevelMenu.ResetAllCuyGuideTracking | src/scenes/LevelMenuScene.js:50-54 | storage loses every `cuyguide_` key and keeps every other entry |
| LevelMenu.Defaults | src/scenes/LevelMenuScene.js:68-76 | the defaults are the sequence minigame and its scene, a full grid of 25 buttons, and the guide exactly on a first visit |
| LevelMenu.Merge | src/scenes/LevelMenuScene.js:67-77 | with no caller fields the defaults; each field is the caller's when passed, else the default |
| LevelMenu.MergeProperties | src/scenes/LevelMenuScene.js:67-77 | no caller fields give the defaults; each caller field overrides its default |
| LevelMenu.MergeIdempotent | src/scenes/LevelMenuScene.js:67-77 | spreading the same config again changes nothing; a config passing every field ignores the defaults |
| LevelMenu.GridPosition | src/scenes/LevelMenuScene.js:157-169 | column `(L-1)%5`, row `(L-1) div 5`, 80 px apart from (240, 150) |
| LevelMenu.GridPositionInjective | src/scenes/LevelMenuScene.js:164-172 | different levels get different positions, all inside the grid for levels 1..25 |
| LevelMenu.ButtonCount | src/scenes/LevelMenuScene.js:162-164 | `min(totalLevels, 25)` buttons, none for a non-positive total |
| LevelMenu.LevelMenuScene.Init | src/scenes/LevelMenuScene.js:67-78 | the visit is checked and marked for the caller's type even when the caller passes `showCuyGuide`; caller fields win |
| LevelMenu.LevelMenuScene.CreateLevelGrid | src/scenes/LevelMenuScene.js:156-176 | button i is level i+1 at its grid position, interactive exactly when unlocked |
| LevelMenu.LevelMenuScene.StartLevel | src/scenes/LevelMenuScene.js:256-266 | sets the current level when unlocked, saves the target scene with `{level}` and starts it |
| LevelMenu.LevelMenuScene.PressButton | src/scenes/LevelMenuScene.js:213-237 | only an interactive button starts its level |
| LevelMenu.PressThenResume | src/scenes/LevelMenuScene.js:256-266 | a reload within a day resumes the pressed level |
| CuyGuide.GetDialogPosition | src/shared/components/CuyGuide.js:157-176 | left (-120,-50), right (120,-50), top (0,-120), bottom (0,120), anything else as right |
| CuyGuide.PositionsDistinct | src/shared/components/CuyGuide.js:157-176 | the four sides are four different places; an unknown side is the right one |
| CuyGuide.Shown | src/shared/components/CuyGuide.js:196-205 | a queued entry is shown with its text, and with its button exactly when it is a button entry |
| CuyGuide.ButtonTextOr | src/shared/components/CuyGuide.js:211-215 | `buttonText`, or "Continuar" when it is missing or empty |
| CuyGuide.Queued | src/shared/components/CuyGuide.js:208-221 | each sequence item becomes a button entry with its defaulted button text |
| CuyGuide.CuyGuide.ShowDialog | src/shared/components/CuyGuide.js:54-69 | while a dialog is active it only queues; otherwise it shows and schedules an auto-hide exactly for a positive duration |
| CuyGuide.CuyGuide.ShowDialogWithButton | src/shared/components/CuyGuide.js:72-80 | while a dialog is active it only queues; otherwise it shows |
| CuyGuide.CuyGuide.HideDialog | src/shared/components/CuyGuide.js:178-194 | without a dialog nothing happens; otherwise a hide starts |
| CuyGuide.CuyGuide.ProcessQueue | src/shared/components/CuyGuide.js:196-205 | the head of the queue is removed and shown; an auto-hide is scheduled exactly for a plain head with a positive duration |
| CuyGuide.CuyGuide.FinishHide | src/shared/components/CuyGuide.js:187-192 | the dialog is dropped and the next queued one shown, first in first out, reporting whether it hides itself; without a dialog it throws with no change |
| CuyGuide.CuyGuide.PressButton | src/shared/components/CuyGuide.js:112-115 | the button hides the dialog and runs its callback |
| CuyGuide.CuyGuide.ShowDialogSequence | src/shared/components/CuyGuide.js:208-221 | the first item is shown when nothing is active and the rest wait in order |
| CuyGuide.CuyGuide.ClearDialogs | src/shared/components/CuyGuide.js:234-237 | the queue is empty before the hide |
| CuyGuide.ClearThenFinish | src/shared/components/CuyGuide.js:234-237 | clearing and finishing the hide leaves the guide idle |
| CuyGuide.ShownInOrder | src/shared/components/CuyGuide.js:54-69 | a dialog shown while another is active appears once the first is hidden, and hides itself after the default duration |
| Audio.LoadMuteState | src/managers/AudioManager.js:26-29 | an absent flag means not muted |
| Audio.AudioManager.constructor | src/managers/AudioManager.js:9-13 | no music, not playing, no interaction, the loaded mute flag |
| Audio.AudioManager.SaveMuteState | src/managers/AudioManager.js:32-34 | the stored flag is the mute flag |
| Audio.AudioManager.InitMusic | src/managers/AudioManager.js:48-67 | the music is created at most once and plays only after an interaction, unmuted |
| Audio.AudioManager.Play | src/managers/AudioManager.js:70-79 | plays exactly when the music exists and is unmuted |
| Audio.AudioManager.Pause | src/managers/AudioManager.js:82-91 | nothing plays afterwards |
| Audio.AudioManager.Stop | src/managers/AudioManager.js:94-103 | nothing plays afterwards |
| Audio.AudioManager.ToggleMute | src/managers/AudioManager.js:106-117 | flips, persists and returns the flag; muting stops the music, unmuting plays it after an interaction |
| Audio.AudioManager.SetUserInteracted | src/managers/AudioManager.js:120-125 | records the interaction and plays when unmuted and silent |
| Audio.AudioManager.GetState | src/managers/AudioManager.js:128-135 | the snapshot of the flags; it never reports playing while muted; the volume is 0.2 |
| Audio.AudioRuntime.Construct | src/managers/AudioManager.js:4-16 | a second construction returns the existing instance |
| Audio.AudioRuntime.GetInstance | src/managers/AudioManager.js:18-23 | creates the instance at most once |
| Audio.OneInstance | src/managers/AudioManager.js:4-23 | every request yields the same manager |
| Audio.ToggleTwice | src/managers/AudioManager.js:106-117 | toggling twice restores and persists the flag |

## Left out

- Drawing, tweens, sound effects, delayed calls and scene start/stop are not modelled; delayed callbacks are explicit methods (`FinishHide`, a later `HideDialog`).
- The Phaser registry (`gameManager`, `currentMinigameManager`, `levelTime`, `levelAttempts`, `currentLevel`) is replaced by parameters.
- `MinigameManager.getInstance` is called by the puzzle scene and the level menu but not defined by the manager, so those calls throw in the source; the model passes the manager in instead.
- The puzzle scene's `init` listens to `minigameManager.events`, which the manager does not have; that listener is not modelled.
- JSON text and `localStorage` are in-memory values; only the progress JSON and the scene JSON can be unparsable. Non-boolean text under `bgMusicMuted` is not modelled.
- Floating point: times are integer milliseconds and the percentage is exact rounding of a rational.
- Minigame.CalculateStars: the speed-star test `time <= maxTime * 0.7` is exact in the model, while the source multiplies in floating point: `45 * 0.7` is `31.499999999999996`, so a time of exactly 31.5 s on level 11 earns the speed star in the model but not in the source (of the catalog's `maxTime` values only 45 is affected).
- Display fields of the levels (`title`, `description`, `hints`, `backgroundColor`) are not modelled; `id` and `category` are carried as plain strings and never inspected. The config's `categories` and `rewards`, and the sequence cells' layout are not modelled.
- Exceptions from the Phaser sound object inside `play`, `pause` and `stop` are not modelled.
- `handleWrongAnswer` and `returnToInitialPosition` only animate; their outcome is `Wrong` or `Missed` with no state change.
- `loadAudio`, `onSceneChange`, `setCuyPosition`, `setCuyScale` and `destroy` only touch Phaser objects.
- Audio.AudioManager.Play: the invariant that music plays only after a user interaction is kept by every caller in the game but not by a direct `play()` call, which the source allows; `Play` states it only when the interaction already happened.
- The older `SequenceScene.js` with the same scene key is not part of this model; the game loads `SequenceGameScene.js`.
