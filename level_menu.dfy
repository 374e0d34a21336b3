/**
 * The logic of `LevelMenuScene`: the first-visit flag of the guide character
 * and its reset helpers, the configuration merge of `init`, the 5x5 level
 * grid and `startLevel`, which records the scene to resume.
 *
 * `localStorage` is the string map of `LocalStorage`; the scene-persistence
 * slot and the manager are passed in, since `MinigameManager.getInstance`
 * is not defined by the manager.
 */
module LevelMenu {
  import opened Wrappers
  import Minigame
  import ScenePersistence

  /** `localStorage` as a map from keys to string values. */
  class LocalStorage {
    var items: map<string, string>

    constructor (initial: map<string, string>)
      ensures items == initial
    {
      items := initial;
    }
  }

  // ---------------------------------------------------------------- first-visit flag

  const GuidePrefix: string := "cuyguide_"

  /** `cuyguide_${minigameType}_visited`; a missing type renders as `undefined`. */
  function VisitedKey(minigameType: Option<string>): (k: string)
    ensures GuidePrefix <= k
  {
    GuidePrefix + (if minigameType.Some? then minigameType.value else "undefined") + "_visited"
  }

  /** What `shouldShowCuyGuide` returns and the storage it leaves. */
  function Visit(items: map<string, string>, minigameType: Option<string>): (r: (bool, map<string, string>))
    ensures var key := VisitedKey(minigameType);
      && (r.0 <==> !(key in items && items[key] == "true"))
      && key in r.1 && r.1[key] == "true"
      && r.1.Keys == items.Keys + {key}
      && (forall k :: k in items && k != key ==> r.1[k] == items[k])
  {
    var key := VisitedKey(minigameType);
    if key in items && items[key] == "true" then (false, items) else (true, items[key := "true"])
  }

  /** The guide shows on the first visit of a type and on no later one. */
  lemma {:induction false} ShowsOnlyOnce(items: map<string, string>, minigameType: Option<string>, other: Option<string>)
    ensures var after := Visit(items, minigameType).1;
      && !Visit(after, minigameType).0
      && Visit(after, minigameType).1 == after
      && (VisitedKey(other) != VisitedKey(minigameType) ==> Visit(after, other).0 == Visit(items, other).0)
  {
  }

  /** `resetCuyGuideTracking`: the key of one type only. */
  function ForgetVisit(items: map<string, string>, minigameType: Option<string>): (r: map<string, string>)
    ensures VisitedKey(minigameType) !in r
    ensures forall k :: k in r <==> k in items && k != VisitedKey(minigameType)
    ensures forall k :: k in r ==> r[k] == items[k]
  {
    items - {VisitedKey(minigameType)}
  }

  /** `resetAllCuyGuideTracking` as a value: every `cuyguide_` key goes, nothing else. */
  function ForgetAllVisits(items: map<string, string>): (r: map<string, string>)
    ensures forall k :: k in r <==> k in items && !(GuidePrefix <= k)
    ensures forall k :: k in r ==> r[k] == items[k]
    ensures forall t :: VisitedKey(t) !in r
  {
    map k | k in items && !(GuidePrefix <= k) :: items[k]
  }

  /** After a reset, one type's or all of them, the next visit shows the guide again. */
  lemma ResetShowsAgain(items: map<string, string>, minigameType: Option<string>, other: Option<string>)
    ensures Visit(ForgetVisit(items, minigameType), minigameType).0
    ensures Visit(ForgetAllVisits(items), other).0
    ensures forall k :: k in ForgetAllVisits(items) <==> k in items && !(GuidePrefix <= k)
  {
    var key := VisitedKey(other);
    assert key !in ForgetAllVisits(items);
  }

  /** `shouldShowCuyGuide`. */
  method ShouldShowCuyGuide(storage: LocalStorage, minigameType: Option<string>) returns (show: bool)
    modifies storage
    ensures (show, storage.items) == Visit(old(storage.items), minigameType)
  {
    var key := VisitedKey(minigameType);
    var hasVisited := key in storage.items && storage.items[key] == "true";
    if !hasVisited {
      storage.items := storage.items[key := "true"];
      return true;
    }
    return false;
  }

  /** `resetCuyGuideTracking`. */
  method ResetCuyGuideTracking(storage: LocalStorage, minigameType: Option<string>)
    modifies storage
    ensures storage.items == ForgetVisit(old(storage.items), minigameType)
  {
    storage.items := storage.items - {VisitedKey(minigameType)};
  }

  /** `resetAllCuyGuideTracking`: collect the matching keys, then remove them one by one. */
  method ResetAllCuyGuideTracking(storage: LocalStorage)
    modifies storage
    ensures storage.items == ForgetAllVisits(old(storage.items))
  {
    var keys := set k | k in storage.items && GuidePrefix <= k;
    ghost var removed: set<string> := {};
    while keys != {}
      invariant keys !! removed
      invariant keys + removed == set k | k in old(storage.items) && GuidePrefix <= k
      invariant storage.items == map k | k in old(storage.items) && k !in removed :: old(storage.items)[k]
      decreases keys
    {
      var key :| key in keys;
      storage.items := storage.items - {key};
      keys := keys - {key};
      removed := removed + {key};
    }
  }

  // ---------------------------------------------------------------- init

  /** The fields a caller may pass to `init`; `None` means the field is absent. */
  datatype MenuOverrides = MenuOverrides(
    title: Option<string>,
    minigameType: Option<string>,
    targetScene: Option<string>,
    totalLevels: Option<int>,
    cuyMessage: Option<string>,
    backTargetScene: Option<string>,
    showCuyGuide: Option<bool>)

  datatype MenuConfig = MenuConfig(
    title: string,
    minigameType: string,
    targetScene: string,
    totalLevels: int,
    cuyMessage: string,
    backTargetScene: string,
    showCuyGuide: bool)

  /** The defaults of `init`: the sequence minigame, a full grid of 25, the guide on a first visit. */
  function Defaults(firstVisit: bool): (c: MenuConfig)
    ensures c.showCuyGuide == firstVisit
    ensures c.minigameType == "sequence" && c.targetScene == "SequenceGameScene"
    ensures ButtonCount(c.totalLevels) == 25
  {
    MenuConfig("Selecciona Nivel", "sequence", "SequenceGameScene", 25, "¡Elige un nivel para jugar!",
               "MathMenuScene", firstVisit)
  }

  /** `{ ...defaults, ...config }`: each field the caller passes wins. */
  function Merge(d: MenuConfig, o: MenuOverrides): (c: MenuConfig)
    ensures o == MenuOverrides(None, None, None, None, None, None, None) ==> c == d
    ensures c.title == o.title.GetOr(d.title) && c.minigameType == o.minigameType.GetOr(d.minigameType)
    ensures c.targetScene == o.targetScene.GetOr(d.targetScene) && c.totalLevels == o.totalLevels.GetOr(d.totalLevels)
    ensures c.cuyMessage == o.cuyMessage.GetOr(d.cuyMessage)
    ensures c.backTargetScene == o.backTargetScene.GetOr(d.backTargetScene)
    ensures c.showCuyGuide == o.showCuyGuide.GetOr(d.showCuyGuide)
  {
    MenuConfig(o.title.GetOr(d.title), o.minigameType.GetOr(d.minigameType), o.targetScene.GetOr(d.targetScene),
               o.totalLevels.GetOr(d.totalLevels), o.cuyMessage.GetOr(d.cuyMessage),
               o.backTargetScene.GetOr(d.backTargetScene), o.showCuyGuide.GetOr(d.showCuyGuide))
  }

  lemma MergeProperties(firstVisit: bool, o: MenuOverrides)
    ensures Merge(Defaults(firstVisit), MenuOverrides(None, None, None, None, None, None, None)) == Defaults(firstVisit)
    ensures var c := Merge(Defaults(firstVisit), o);
      && (o.title.Some? ==> c.title == o.title.value)
      && (o.minigameType.None? ==> c.minigameType == "sequence")
      && (o.totalLevels.None? ==> c.totalLevels == 25)
      && (o.showCuyGuide.Some? ==> c.showCuyGuide == o.showCuyGuide.value)
      && (o.showCuyGuide.None? ==> c.showCuyGuide == firstVisit)
  {
  }

  /**
   * Spreading the same caller config twice changes nothing more, and a caller
   * config that passes every field does not depend on the defaults.
   */
  lemma MergeIdempotent(d: MenuConfig, other: MenuConfig, o: MenuOverrides)
    ensures Merge(Merge(d, o), o) == Merge(d, o)
    ensures o.title.Some? && o.minigameType.Some? && o.targetScene.Some? && o.totalLevels.Some? &&
            o.cuyMessage.Some? && o.backTargetScene.Some? && o.showCuyGuide.Some? ==>
              Merge(d, o) == Merge(other, o)
  {
  }

  // ---------------------------------------------------------------- the grid

  /** Five buttons per row, 80 px apart, the first at (240, 150). */
  function GridPosition(level: int): (p: (int, int))
    requires level >= 1
    ensures p.0 == 240 + 80 * ((level - 1) % 5) && p.1 == 150 + 80 * ((level - 1) / 5)
  {
    var row := (level - 1) / 5;
    var col := (level - 1) % 5;
    (400 - (4 * 80) / 2 + col * 80, 150 + row * 80)
  }

  /** Different levels get different positions; the 25 of a full grid stay inside it. */
  lemma GridPositionInjective(a: int, b: int)
    requires a >= 1 && b >= 1
    ensures GridPosition(a) == GridPosition(b) ==> a == b
    ensures a <= 25 ==> 240 <= GridPosition(a).0 <= 560 && 150 <= GridPosition(a).1 <= 470
  {
    if GridPosition(a) == GridPosition(b) {
      assert (a - 1) % 5 == (b - 1) % 5;
      assert (a - 1) / 5 == (b - 1) / 5;
      assert a - 1 == 5 * ((a - 1) / 5) + (a - 1) % 5;
      assert b - 1 == 5 * ((b - 1) / 5) + (b - 1) % 5;
    }
  }

  /** One button of the grid; only unlocked buttons answer the pointer. */
  datatype LevelButton = LevelButton(level: int, x: int, y: int, interactive: bool)

  /** The number of buttons `createLevelGrid` places. */
  function ButtonCount(totalLevels: int): (n: int)
    ensures 0 <= n <= 25
    ensures totalLevels >= 0 ==> n == Minigame.Min(totalLevels, 25)
  {
    if totalLevels <= 0 then 0 else Minigame.Min(totalLevels, 25)
  }

  // ---------------------------------------------------------------- the scene

  class LevelMenuScene {
    var config: MenuConfig
    var buttons: seq<LevelButton>
    const storage: LocalStorage
    const persistence: ScenePersistence.SceneSlot

    constructor (storage: LocalStorage, persistence: ScenePersistence.SceneSlot)
      ensures this.storage == storage && this.persistence == persistence && buttons == []
    {
      this.storage := storage;
      this.persistence := persistence;
      config := Defaults(false);
      buttons := [];
    }

    /**
     * `init`: the first-visit check runs on the caller's `minigameType`
     * (absent: `undefined`) and marks the visit even when the caller passes
     * `showCuyGuide`.
     */
    method Init(o: MenuOverrides)
      modifies this`config, storage
      ensures var (first, after) := Visit(old(storage.items), o.minigameType);
        storage.items == after && config == Merge(Defaults(first), o)
    {
      var first := ShouldShowCuyGuide(storage, o.minigameType);
      config := Merge(Defaults(first), o);
    }

    /** `createLevelGrid` with `createLevelButton`'s unlock test. */
    method CreateLevelGrid(manager: Minigame.MinigameManager)
      modifies this`buttons
      ensures |buttons| == ButtonCount(config.totalLevels)
      ensures forall i :: 0 <= i < |buttons| ==>
                && buttons[i].level == i + 1
                && (buttons[i].x, buttons[i].y) == GridPosition(i + 1)
                && (buttons[i].interactive <==> manager.IsLevelUnlocked(i + 1))
    {
      var total := Minigame.Min(config.totalLevels, 25);
      buttons := [];
      var level := 1;
      while level <= total
        invariant 1 <= level && |buttons| == level - 1
        invariant level <= Minigame.Max(total, 0) + 1
        invariant forall i :: 0 <= i < |buttons| ==>
                    && buttons[i].level == i + 1
                    && (buttons[i].x, buttons[i].y) == GridPosition(i + 1)
                    && (buttons[i].interactive <==> manager.IsLevelUnlocked(i + 1))
      {
        var row := (level - 1) / 5;
        var col := (level - 1) % 5;
        buttons := buttons + [LevelButton(level, 240 + col * 80, 150 + row * 80, manager.IsLevelUnlocked(level))];
        level := level + 1;
      }
      assert |buttons| == Minigame.Max(total, 0);
    }

    /** `startLevel`: the result of `setCurrentLevel` is ignored; the level is saved as the scene to resume. */
    method StartLevel(manager: Minigame.MinigameManager, levelNumber: int, now: int)
      returns (scene: string, data: ScenePersistence.SceneData)
      modifies manager`currentLevel, persistence
      ensures manager.currentLevel ==
                if levelNumber in manager.progress.unlockedLevels then levelNumber else old(manager.currentLevel)
      ensures persistence.slot ==
                Some(ScenePersistence.Json(ScenePersistence.SceneState(config.targetScene, now, Some(data))))
      ensures scene == config.targetScene && data == ScenePersistence.LevelPayload(levelNumber)
    {
      var _ := manager.SetCurrentLevel(levelNumber);
      data := ScenePersistence.LevelPayload(levelNumber);
      persistence.SaveCurrentScene(config.targetScene, Some(data), now);
      scene := config.targetScene;
    }

    /** A `pointerdown` on button `i`: only an interactive (unlocked) button starts its level. */
    method PressButton(manager: Minigame.MinigameManager, i: int, now: int) returns (started: Option<string>)
      requires 0 <= i < |buttons|
      modifies manager`currentLevel, persistence
      ensures started.Some? <==> buttons[i].interactive
      ensures !buttons[i].interactive ==> manager.currentLevel == old(manager.currentLevel) &&
                                          persistence.slot == old(persistence.slot)
      ensures buttons[i].interactive ==>
                manager.currentLevel == if buttons[i].level in manager.progress.unlockedLevels
                                        then buttons[i].level else old(manager.currentLevel)
      ensures buttons[i].interactive ==>
                persistence.slot == Some(ScenePersistence.Json(ScenePersistence.SceneState(
                  config.targetScene, now, Some(ScenePersistence.LevelPayload(buttons[i].level)))))
    {
      if !buttons[i].interactive {
        return None;
      }
      var scene, _ := StartLevel(manager, buttons[i].level, now);
      started := Some(scene);
    }
  }

  /**
   * Pressing an unlocked button of a freshly built grid moves the manager to
   * that level, and a reload within a day resumes it with the same level.
   */
  method PressThenResume(menu: LevelMenuScene, manager: Minigame.MinigameManager, i: int, now: int, later: int)
    returns (resumed: Option<ScenePersistence.SceneData>)
    requires 0 <= i < |menu.buttons|
    requires menu.buttons[i].interactive && menu.buttons[i].level in manager.progress.unlockedLevels
    requires now <= later <= now + ScenePersistence.MaxAge
    modifies manager`currentLevel, menu.persistence
    ensures manager.currentLevel == menu.buttons[i].level
    ensures resumed == Some(ScenePersistence.LevelPayload(menu.buttons[i].level))
  {
    var _ := menu.PressButton(manager, i, now);
    resumed := menu.persistence.GetSavedSceneData(later);
  }
}
