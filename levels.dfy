/**
 * The level catalog of the sequence minigame (`SEQUENCE_LEVELS`) and its
 * configuration (`SEQUENCE_MINIGAME_CONFIG.totalLevels`), as constant data.
 */
module SequenceLevels {
  import opened Wrappers

  /** One slot of a displayed sequence: a number or the `"?"` blank. */
  datatype Slot = Num(n: int) | Blank

  datatype Difficulty = Easy | Medium | Hard

  /** One level definition. Display-only fields (title, description, hints, backgroundColor) are left out. */
  datatype LevelDef = LevelDef(
    id: string,
    sequence: seq<Slot>,
    missingNumber: int,
    availableOptions: seq<int>,
    targetPosition: int,
    difficulty: Difficulty,
    category: string,
    requiredStars: int,
    maxTime: int,     // seconds
    points: int)

  /** Level 1: `[1, 2, "?", 4, 5]`. */
  function Level1(): LevelDef {
    LevelDef("seq_001", [Num(1), Num(2), Blank, Num(4), Num(5)], 3, [1, 2, 3], 2,
             Easy, "sequential", 0, 60, 100)
  }

  /** Level 2: `[3, 4, 5, "?", 7]`. */
  function Level2(): LevelDef {
    LevelDef("seq_002", [Num(3), Num(4), Num(5), Blank, Num(7)], 6, [5, 6, 7], 3,
             Easy, "sequential", 1, 55, 110)
  }

  /** Level 6: `[2, 4, "?", 8, 10]`. */
  function Level6(): LevelDef {
    LevelDef("seq_006", [Num(2), Num(4), Blank, Num(8), Num(10)], 6, [5, 6, 7], 2,
             Easy, "even_numbers", 5, 50, 120)
  }

  /** Level 11: `[1, 3, 5, "?", 9]`. */
  function Level11(): LevelDef {
    LevelDef("seq_011", [Num(1), Num(3), Num(5), Blank, Num(9)], 7, [6, 7, 8], 3,
             Medium, "odd_numbers", 10, 45, 150)
  }

  /** Level 16: `[5, 10, 15, "?", 25]`. */
  function Level16(): LevelDef {
    LevelDef("seq_016", [Num(5), Num(10), Num(15), Blank, Num(25)], 20, [18, 20, 22], 3,
             Medium, "multiples", 15, 40, 180)
  }

  /** Level 21: `[100, 90, 80, "?", 60]`. */
  function Level21(): LevelDef {
    LevelDef("seq_021", [Num(100), Num(90), Num(80), Blank, Num(60)], 70, [65, 70, 75], 3,
             Hard, "decreasing", 20, 35, 220)
  }

  /** `SEQUENCE_LEVELS`: the keys are 1, 2, 6, 11, 16 and 21. */
  function Levels(): map<int, LevelDef> {
    map[1 := Level1(), 2 := Level2(), 6 := Level6(), 11 := Level11(), 16 := Level16(), 21 := Level21()]
  }

  /** `totalLevels: Object.keys(SEQUENCE_LEVELS).length`. */
  function TotalLevels(): int {
    |Levels().Keys|
  }

  /** `SEQUENCE_LEVELS[n]`, which is `undefined` for a number that is not a key. */
  function Lookup(n: int): (r: Option<LevelDef>)
    ensures r.Some? <==> n in {1, 2, 6, 11, 16, 21}
    ensures r.Some? ==> r.value == Levels()[n] && WellFormed(r.value)
  {
    if n in Levels() then CatalogWellFormed(n); Some(Levels()[n]) else None
  }

  /** Number of occurrences of `x` in `s`. */
  function Count(x: int, s: seq<int>): nat {
    if s == [] then 0 else (if s[0] == x then 1 else 0) + Count(x, s[1..])
  }

  /** The sequence holds exactly one blank, and it sits at `targetPosition`. */
  predicate BlankOnlyAtTarget(d: LevelDef) {
    && 0 <= d.targetPosition < |d.sequence|
    && d.sequence[d.targetPosition] == Blank
    && forall i :: 0 <= i < |d.sequence| && i != d.targetPosition ==> d.sequence[i].Num?
  }

  /** The sequence with its blank replaced by the missing number. */
  function Filled(d: LevelDef): (r: seq<int>)
    ensures |r| == |d.sequence|
  {
    seq(|d.sequence|, i requires 0 <= i < |d.sequence| =>
      match d.sequence[i] case Num(n) => n case Blank => d.missingNumber)
  }

  /** Every two neighbours differ by the same step. */
  predicate ConstantStep(s: seq<int>) {
    |s| >= 2 && forall i :: 1 <= i < |s| ==> s[i] - s[i - 1] == s[1] - s[0]
  }

  /** What every catalog entry satisfies. */
  predicate WellFormed(d: LevelDef) {
    && BlankOnlyAtTarget(d)
    && Count(d.missingNumber, d.availableOptions) == 1
    && ConstantStep(Filled(d))
    && d.maxTime > 0
    && d.points > 0
  }

  /** A five-slot sequence with one blank, three distinct options and a constant step. */
  lemma FiveSlotWellFormed(d: LevelDef)
    requires |d.sequence| == 5 && |d.availableOptions| == 3
    requires BlankOnlyAtTarget(d)
    requires var o := d.availableOptions; o[0] != o[1] && o[1] != o[2] && o[0] != o[2]
    requires d.missingNumber in d.availableOptions
    requires var f := Filled(d); f[1] - f[0] == f[2] - f[1] == f[3] - f[2] == f[4] - f[3]
    requires d.maxTime > 0 && d.points > 0
    ensures WellFormed(d)
  {
    var o, x := d.availableOptions, d.missingNumber;
    assert o[1..][1..][1..] == [];
    assert Count(x, o[1..][1..]) == (if o[2] == x then 1 else 0);
    assert Count(x, o[1..]) == (if o[1] == x then 1 else 0) + (if o[2] == x then 1 else 0);
  }

  lemma CatalogWellFormed(n: int)
    requires n in Levels()
    ensures WellFormed(Levels()[n])
  {
    var d := Levels()[n];
    FiveSlotWellFormed(d);
  }

  /** `totalLevels` is 6, yet the keys do not cover 1..6: levels 3, 4 and 5 have no definition. */
  lemma CatalogKeys()
    ensures Levels().Keys == {1, 2, 6, 11, 16, 21}
    ensures TotalLevels() == 6
    ensures 3 <= TotalLevels() && Lookup(3).None?
  {
  }

  /** `requiredStars` strictly increases with the level number. */
  lemma RequiredStarsIncrease(a: int, b: int)
    requires a in Levels() && b in Levels() && a < b
    ensures Levels()[a].requiredStars < Levels()[b].requiredStars
  {
  }
}
