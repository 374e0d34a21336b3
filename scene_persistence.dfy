/**
 * `ScenePersistenceManager`: one storage slot (`game_current_scene`) holding
 * the scene to resume after a reload, with a 24-hour time-to-live.
 *
 * The slot is a field of `SceneSlot`; `Date.now()` is the parameter `now` (ms).
 */
module ScenePersistence {
  import opened Wrappers

  /** 24 hours in milliseconds. */
  const MaxAge: int := 24 * 60 * 60 * 1000

  /** The only scene data the game saves: `{ level }` from the level menu. */
  datatype SceneData = LevelPayload(level: int)

  /** `{ sceneKey, timestamp, sceneData }`; `sceneData` None is `null`. */
  datatype SceneState = SceneState(sceneKey: string, timestamp: int, sceneData: Option<SceneData>)

  /** The slot's text: a saved state, or text `JSON.parse` rejects. */
  datatype Stored = Json(state: SceneState) | Unparsable

  /**
   * `getSavedSceneState` as a value: the state it returns and the slot it
   * leaves behind. A stale or unparsable slot is cleared.
   */
  function ReadSlot(slot: Option<Stored>, now: int): (r: (Option<SceneState>, Option<Stored>))
    ensures r.0.Some? <==> slot.Some? && slot.value.Json? && now - slot.value.state.timestamp <= MaxAge
    ensures r.0.Some? ==> slot == Some(Json(r.0.value)) && r.1 == slot
    ensures r.0.None? ==> r.1 == None
  {
    match slot
    case None => (None, None)
    case Some(Unparsable) => (None, None)
    case Some(Json(state)) =>
      if now - state.timestamp > MaxAge then (None, None) else (Some(state), slot)
  }

  /** Reading right after a save, within the maximum age, gives back what was saved. */
  lemma ReadAfterSave(key: string, data: Option<SceneData>, savedAt: int, now: int)
    requires now - savedAt <= MaxAge
    ensures var slot := Some(Json(SceneState(key, savedAt, data)));
      ReadSlot(slot, now) == (Some(SceneState(key, savedAt, data)), slot)
  {
  }

  /** An age of exactly 24 hours is still fresh; one millisecond more is stale. */
  lemma MaxAgeBoundary(state: SceneState)
    ensures ReadSlot(Some(Json(state)), state.timestamp + MaxAge).0 == Some(state)
    ensures ReadSlot(Some(Json(state)), state.timestamp + MaxAge + 1) == (None, None)
  {
  }

  /** A read never brings back a cleared slot, and a second read at the same time agrees with the first. */
  lemma ReadIsStable(slot: Option<Stored>, now: int)
    ensures ReadSlot(ReadSlot(slot, now).1, now) == ReadSlot(slot, now)
  {
  }

  /**
   * `isValidScene`: `MainMenuScene` is always accepted (the fallback),
   * otherwise the key must be registered; the list defaults to `[]`.
   */
  predicate IsValidScene(sceneKey: string, registeredScenes: seq<string>): (r: bool)
    ensures sceneKey == "MainMenuScene" ==> r
    ensures sceneKey != "MainMenuScene" ==>
              (r <==> exists i :: 0 <= i < |registeredScenes| && registeredScenes[i] == sceneKey)
    ensures registeredScenes == [] ==> (r <==> sceneKey == "MainMenuScene")
  {
    sceneKey == "MainMenuScene" || sceneKey in registeredScenes
  }

  /** The scene keys the auto-tracker saves on `scene.start`. */
  function PersistentScenes(): seq<string> {
    ["SequenceGameScene", "LevelMenuScene", "NumbersLevelMenuScene", "AdditionsLevelMenuScene",
     "SubtractionsLevelMenuScene", "LogicTowerLevelMenuScene", "EnglishWorldLevelMenuScene"]
  }

  predicate ShouldPersist(sceneKey: string) {
    sceneKey in PersistentScenes()
  }

  /** Menus, the intro and result scenes are intermediate navigation and are never saved. */
  lemma IntermediateScenesNotPersisted()
    ensures |PersistentScenes()| == 7
    ensures !ShouldPersist("MainMenuScene") && !ShouldPersist("MathMenuScene")
    ensures !ShouldPersist("CongratulationsScene") && !ShouldPersist("MinigameCompletedScene")
    ensures ShouldPersist("SequenceGameScene") && ShouldPersist("LevelMenuScene")
  {
  }

  /**
   * `MainMenuScene` is never saved, so the fallback never decides for a saved
   * scene: a saved scene is valid exactly when it is registered.
   */
  lemma SavedSceneValidIffRegistered(sceneKey: string, registeredScenes: seq<string>)
    requires ShouldPersist(sceneKey)
    ensures IsValidScene(sceneKey, registeredScenes) <==> sceneKey in registeredScenes
    ensures !IsValidScene(sceneKey, [])
  {
    IntermediateScenesNotPersisted();
  }

  /** The `game_current_scene` slot of `localStorage`. */
  class SceneSlot {
    var slot: Option<Stored>

    constructor (initial: Option<Stored>)
      ensures slot == initial
    {
      slot := initial;
    }

    /** `saveCurrentScene`: overwrite the slot. */
    method SaveCurrentScene(sceneKey: string, sceneData: Option<SceneData>, now: int)
      modifies this
      ensures slot == Some(Json(SceneState(sceneKey, now, sceneData)))
    {
      slot := Some(Json(SceneState(sceneKey, now, sceneData)));
    }

    /** `getSavedSceneState`: returns the state or null; clears a stale or corrupt slot. */
    method GetSavedSceneState(now: int) returns (state: Option<SceneState>)
      modifies this
      ensures (state, slot) == ReadSlot(old(slot), now)
    {
      match slot
      case None =>
        state := None;
      case Some(Unparsable) =>
        ClearSavedScene();
        state := None;
      case Some(Json(s)) =>
        if now - s.timestamp > MaxAge {
          ClearSavedScene();
          state := None;
        } else {
          state := Some(s);
        }
    }

    /** `clearSavedScene`: remove the slot. */
    method ClearSavedScene()
      modifies this
      ensures slot == None
    {
      slot := None;
    }

    method HasSavedScene(now: int) returns (has: bool)
      modifies this
      ensures has <==> ReadSlot(old(slot), now).0.Some?
      ensures slot == ReadSlot(old(slot), now).1
    {
      var state := GetSavedSceneState(now);
      has := state.Some?;
    }

    method GetSavedSceneKey(now: int) returns (key: Option<string>)
      modifies this
      ensures var (state, after) := ReadSlot(old(slot), now);
        slot == after && (key.Some? <==> state.Some?) && (state.Some? ==> key.value == state.value.sceneKey)
    {
      var state := GetSavedSceneState(now);
      key := if state.Some? then Some(state.value.sceneKey) else None;
    }

    /** `getSavedSceneData`: null both without a state and for a state saved without data. */
    method GetSavedSceneData(now: int) returns (data: Option<SceneData>)
      modifies this
      ensures var (state, after) := ReadSlot(old(slot), now);
        slot == after && data == (if state.Some? then state.value.sceneData else None)
    {
      var state := GetSavedSceneState(now);
      data := if state.Some? then state.value.sceneData else None;
    }

    /** The `scene.start` listener of `setupAutoTracking`: save the allow-listed scenes with null data. */
    method OnSceneStart(sceneKey: string, now: int)
      modifies this
      ensures ShouldPersist(sceneKey) ==> slot == Some(Json(SceneState(sceneKey, now, None)))
      ensures !ShouldPersist(sceneKey) ==> slot == old(slot)
    {
      if sceneKey in PersistentScenes() {
        SaveCurrentScene(sceneKey, None, now);
      }
    }
  }
}
