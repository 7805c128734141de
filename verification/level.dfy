/** Levels and the per-level perks (src/engine/level.ts). The source's decimal
    percentages are kept in tenths, so `Math.floor(gold * 1.2)` is
    `(gold * 12) / 10`; Dafny's `/` floors for a positive divisor, as
    `Math.floor` does. */
module Level {
  import opened Constants

  /** The level reached with `xp`, searching down from `lv`: the first level
      at or below `lv` whose threshold `xp` meets, and 1 if none does. */
  function LevelFrom(xp: int, lv: int): (r: int)
    requires lv <= MAX_LEVEL
    ensures 1 <= r && (r <= lv || r == 1)
    ensures r == 1 || xp >= XP_PER_LEVEL[r]
    ensures forall l :: r < l <= lv ==> xp < XP_PER_LEVEL[l]
    decreases lv
  {
    if lv < 1 then 1
    else if xp >= XP_PER_LEVEL[lv] then lv
    else LevelFrom(xp, lv - 1)
  }

  /** The level of a player with `xp` total XP: the highest level whose
      threshold `xp` meets, and level 1 otherwise. */
  function LevelOf(xp: int): (lv: int)
    ensures 1 <= lv <= MAX_LEVEL
    ensures xp >= XP_PER_LEVEL[lv] || lv == 1
    ensures forall l :: lv < l <= MAX_LEVEL ==> xp < XP_PER_LEVEL[l]
  {
    LevelFrom(xp, MAX_LEVEL)
  }

  /** `calcLevel`: scans the thresholds from the top level down. */
  method CalcLevel(totalXp: int) returns (lv: int)
    ensures lv == LevelOf(totalXp)
  {
    lv := MAX_LEVEL;
    while lv >= 1
      invariant 0 <= lv <= MAX_LEVEL
      invariant forall l :: lv < l <= MAX_LEVEL ==> totalXp < XP_PER_LEVEL[l]
    {
      if totalXp >= XP_PER_LEVEL[lv] {
        LevelIsHighestMet(totalXp, lv);
        return;
      }
      lv := lv - 1;
    }
    LevelIsHighestMet(totalXp, 1);
    lv := 1;
  }

  /** The characterisation pins the level down: a level that `xp` meets (or
      level 1) above which no threshold is met is the level. */
  lemma LevelIsHighestMet(xp: int, lv: int)
    requires 1 <= lv <= MAX_LEVEL
    requires xp >= XP_PER_LEVEL[lv] || lv == 1
    requires forall l :: lv < l <= MAX_LEVEL ==> xp < XP_PER_LEVEL[l]
    ensures LevelOf(xp) == lv
  {
    LevelTableShape();
  }

  /** More XP never means a lower level. */
  lemma LevelMonotone(a: int, b: int)
    requires a <= b
    ensures LevelOf(a) <= LevelOf(b)
  {
    LevelTableShape();
  }

  /** Each level starts exactly at its threshold. */
  lemma LevelAtThreshold(lv: int)
    requires 1 <= lv <= MAX_LEVEL
    ensures LevelOf(XP_PER_LEVEL[lv]) == lv
  {
    LevelTableShape();
    LevelIsHighestMet(XP_PER_LEVEL[lv], lv);
  }

  /** `xpToNextLevel`: 0 at the top level; otherwise the XP still missing,
      which is positive and lands exactly on the next level. */
  function XpToNextLevel(totalXp: int): (r: int)
    ensures LevelOf(totalXp) == MAX_LEVEL ==> r == 0
    ensures LevelOf(totalXp) < MAX_LEVEL ==> r > 0 && LevelOf(totalXp + r) == LevelOf(totalXp) + 1
  {
    var current := LevelOf(totalXp);
    if current >= MAX_LEVEL then 0
    else
      LevelAtThreshold(current + 1);
      XP_PER_LEVEL[current + 1] - totalXp
  }

  /** Any XP short of that amount keeps the current level. */
  lemma XpToNextLevelIsLeast(totalXp: int, d: int)
    requires LevelOf(totalXp) < MAX_LEVEL && 0 <= d < XpToNextLevel(totalXp)
    ensures LevelOf(totalXp + d) == LevelOf(totalXp)
  {
    var lv := LevelOf(totalXp);
    LevelTableShape();
    assert totalXp + d < XP_PER_LEVEL[lv + 1];
    LevelIsHighestMet(totalXp + d, lv);
  }

  /** `xpToLevelUp`, used by the 14-day streak reward; the source repeats the
      body of `xpToNextLevel`. */
  function XpToLevelUp(totalXp: int): int
  {
    XpToNextLevel(totalXp)
  }

  /** `xpForLevel`: 0 outside 1..MAX_LEVEL; otherwise the least XP that
      reaches the level. */
  function XpForLevel(level: int): (r: int)
    ensures (level < 1 || level > MAX_LEVEL) ==> r == 0
    ensures 1 <= level <= MAX_LEVEL ==> LevelOf(r) == level
    ensures 1 <= level <= MAX_LEVEL ==> forall x :: x < r ==> LevelOf(x) < level || level == 1
  {
    if level < 1 || level > MAX_LEVEL then 0
    else
      LevelAtThreshold(level);
      XP_PER_LEVEL[level]
  }

  predicate HasGoldBonus(level: int)
  {
    GOLD_BONUS_LEVEL_LOW <= level <= GOLD_BONUS_LEVEL_HIGH
  }

  /** `applyLevelGoldBonus`: in the gold band, the gold grows by a fifth,
      rounded down; elsewhere it is unchanged. */
  function ApplyLevelGoldBonus(gold: int, level: int): (r: int)
    ensures !HasGoldBonus(level) ==> r == gold
  {
    if HasGoldBonus(level) then (gold * (10 + GOLD_BONUS_TENTHS)) / 10 else gold
  }

  /** In the gold band the result is 1.2 times the gold, rounded down. */
  lemma GoldBonusRoundsDown(gold: int, level: int)
    requires HasGoldBonus(level)
    ensures 10 * ApplyLevelGoldBonus(gold, level) <= 12 * gold < 10 * ApplyLevelGoldBonus(gold, level) + 10
  {
  }

  /** The bonus never takes gold away, and adds less than a fifth plus one. */
  lemma GoldBonusBounds(gold: int, level: int)
    requires gold >= 0
    ensures gold <= ApplyLevelGoldBonus(gold, level)
    ensures 5 * ApplyLevelGoldBonus(gold, level) <= 6 * gold
  {
    if HasGoldBonus(level) {
      GoldBonusRoundsDown(gold, level);
    }
  }

  predicate HasStarDouble(level: int)
  {
    STAR_DOUBLE_LEVEL_LOW <= level <= STAR_DOUBLE_LEVEL_HIGH
  }

  /** `applyLevelStarBonus`: stars double in the star band, elsewhere they are unchanged. */
  function ApplyLevelStarBonus(stars: int, level: int): (r: int)
    ensures HasStarDouble(level) ==> r - stars == stars
    ensures !HasStarDouble(level) ==> r == stars
  {
    if HasStarDouble(level) then stars * 2 else stars
  }

  predicate HasDreamFund(level: int)
  {
    level >= DREAM_FUND_LEVEL
  }

  /** `calcDreamFund`: at the dream-fund level, a tenth of the gold rounded
      down; below it, nothing. */
  function CalcDreamFund(gold: int, level: int): (r: int)
    ensures !HasDreamFund(level) ==> r == 0
  {
    if !HasDreamFund(level) then 0 else (gold * DREAM_FUND_TENTHS) / 10
  }

  /** At the dream-fund level the contribution is a tenth of the gold, rounded down. */
  lemma DreamFundRoundsDown(gold: int, level: int)
    requires HasDreamFund(level)
    ensures 10 * CalcDreamFund(gold, level) <= gold < 10 * CalcDreamFund(gold, level) + 10
  {
  }

  /** The dream fund is a share of the gold: never negative, never more. */
  lemma DreamFundBounds(gold: int, level: int)
    requires gold >= 0
    ensures 0 <= CalcDreamFund(gold, level) <= gold
  {
    if HasDreamFund(level) {
      DreamFundRoundsDown(gold, level);
    }
  }

  /** The three level perks belong to disjoint level bands. */
  lemma LevelPerksExclusive(level: int)
    ensures !(HasGoldBonus(level) && HasStarDouble(level))
    ensures !(HasGoldBonus(level) && HasDreamFund(level))
    ensures !(HasStarDouble(level) && HasDreamFund(level))
  {
    LevelBandsDisjoint();
  }

  /** A player has the dream fund exactly from the top level's threshold on. */
  lemma DreamFundByXp(xp: int)
    ensures HasDreamFund(LevelOf(xp)) <==> xp >= XP_PER_LEVEL[MAX_LEVEL]
  {
    LevelTableShape();
  }

  /** Reaching a level from XP decides the perks: the gold band is levels
      4 to 6, which start at 500 XP and end below 1700 XP. */
  lemma GoldBandByXp(xp: int)
    ensures HasGoldBonus(LevelOf(xp)) <==> XP_PER_LEVEL[GOLD_BONUS_LEVEL_LOW] <= xp < XP_PER_LEVEL[GOLD_BONUS_LEVEL_HIGH + 1]
  {
    LevelTableShape();
  }
}
