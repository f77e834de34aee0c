/** Experience points and levels (data/store.ts). */
module Levels {

  /** Cumulative XP needed for each level: level n needs `XpThresholds[n - 1]`. */
  const XpThresholds: seq<nat> := [0, 100, 250, 450, 700, 1000, 1400, 1900, 2500, 3200, 4000]

  /** The highest level, one per threshold. */
  const MaxLevel: nat := 11

  lemma ThresholdsShape()
    ensures |XpThresholds| == MaxLevel && XpThresholds[0] == 0
    ensures forall i, j :: 0 <= i < j < MaxLevel ==> XpThresholds[i] < XpThresholds[j]
  {
  }

  /** The descending scan of `getLevelFromXp`, started below index `i`: the first
    * threshold (from the top) that `xp` reaches decides the level; none reached gives 1. */
  function ScanDown(xp: int, i: nat): nat
    requires i <= MaxLevel
  {
    if i == 0 then 1
    else if xp >= XpThresholds[i - 1] then i
    else ScanDown(xp, i - 1)
  }

  /** The level a user with `xp` points is at. */
  function LevelOf(xp: int): int
  {
    ScanDown(xp, MaxLevel)
  }

  lemma {:induction false} ScanDownBounds(xp: int, i: nat)
    requires i <= MaxLevel
    ensures 1 <= ScanDown(xp, i) <= if i == 0 then 1 else i
    ensures xp >= 0 ==> XpThresholds[ScanDown(xp, i) - 1] <= xp
    ensures ScanDown(xp, i) < i ==> xp < XpThresholds[ScanDown(xp, i)]
    ensures xp < 0 ==> ScanDown(xp, i) == 1
  {
    if i > 0 && xp < XpThresholds[i - 1] {
      ScanDownBounds(xp, i - 1);
      ThresholdsShape();
    }
  }

  /** The level lies in 1..11, is 1 for negative XP, and is the level whose threshold
    * band contains `xp`: its own threshold is reached and the next one is not. */
  lemma LevelOfSpec(xp: int)
    ensures 1 <= LevelOf(xp) <= MaxLevel
    ensures xp < 0 ==> LevelOf(xp) == 1
    ensures xp >= 0 ==> XpThresholds[LevelOf(xp) - 1] <= xp &&
                        (LevelOf(xp) == MaxLevel || xp < XpThresholds[LevelOf(xp)])
  {
    ScanDownBounds(xp, MaxLevel);
    ThresholdsShape();
  }

  /** More XP never means a lower level. */
  lemma LevelOfMonotone(a: int, b: int)
    requires a <= b
    ensures LevelOf(a) <= LevelOf(b)
  {
    LevelOfSpec(a);
    LevelOfSpec(b);
    ThresholdsShape();
  }

  /** `getLevelFromXp`: scans the thresholds from the highest down and returns the first one reached. */
  method GetLevelFromXp(xp: int) returns (level: int)
    ensures level == LevelOf(xp)
    ensures 1 <= level <= MaxLevel
  {
    var i := |XpThresholds| - 1;
    while i >= 0
      invariant -1 <= i < MaxLevel
      invariant ScanDown(xp, i + 1) == LevelOf(xp)
    {
      if xp >= XpThresholds[i] {
        level := i + 1;
        LevelOfSpec(xp);
        return;
      }
      i := i - 1;
    }
    level := 1;
  }

  /** What `getXpForNextLevel` can return: a threshold, `Infinity` past the last level,
    * or `undefined` for an index below the table. */
  datatype NextLevelXp = Xp(amount: nat) | Infinity | Undefined

  function GetXpForNextLevel(level: int): NextLevelXp
  {
    if level >= |XpThresholds| then Infinity
    else if level < 0 then Undefined
    else Xp(XpThresholds[level])
  }

  /** For a level below the top, the next-level figure is the least XP that reaches level + 1:
    * exactly that XP gives level + 1, and one point less stays at the current level. */
  lemma NextLevelIsLeastXpOfNextLevel(level: int)
    requires 0 <= level < MaxLevel
    ensures GetXpForNextLevel(level).Xp?
    ensures LevelOf(GetXpForNextLevel(level).amount) == level + 1
    ensures level >= 1 ==> LevelOf(GetXpForNextLevel(level).amount - 1) == level
  {
    var t: int := XpThresholds[level];
    LevelOfSpec(t);
    LevelOfSpec(t - 1);
    ThresholdsShape();
  }

  /** From the top level on there is no next threshold. */
  lemma NoNextLevelAtTop(level: int)
    ensures GetXpForNextLevel(level) == Infinity <==> level >= MaxLevel
  {
  }
}
