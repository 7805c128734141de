/** The math multiplier (src/engine/math-multiplier.ts), in tenths: 1.5 is 15. */
module MathMultiplier {
  import opened Types
  import opened Constants

  /** `getMathMultiplier`: the difficulty's multiplier, plus the top-level bonus
      for a player at MAX_LEVEL or above. */
  function GetMathMultiplier(difficulty: MathDifficulty, playerLevel: int): (m: int)
    ensures m >= 10
    ensures playerLevel < MAX_LEVEL ==> m == MathMultiplierTenths(difficulty)
    ensures playerLevel >= MAX_LEVEL ==> m == MathMultiplierTenths(difficulty) + MATH_MULTIPLIER_LV10_BONUS_TENTHS
  {
    MathMultiplierTenths(difficulty) + (if playerLevel >= MAX_LEVEL then MATH_MULTIPLIER_LV10_BONUS_TENTHS else 0)
  }

  /** A harder difficulty or a higher level never lowers the multiplier, and a
      harder difficulty at the same level raises it. */
  lemma MultiplierMonotone(d: MathDifficulty, e: MathDifficulty, la: int, lb: int)
    requires DifficultyRank(d) <= DifficultyRank(e) && la <= lb
    ensures GetMathMultiplier(d, la) <= GetMathMultiplier(e, lb)
    ensures DifficultyRank(d) < DifficultyRank(e) ==> GetMathMultiplier(d, la) < GetMathMultiplier(e, la)
  {
    if DifficultyRank(d) < DifficultyRank(e) {
      MathTablesIncrease(d, e);
    } else {
      assert d == e;
    }
  }

  /** `applyMathMultiplier`: `floor(gold * multiplier)`, the product rounded down. */
  function ApplyMathMultiplier(gold: int, tenths: int): (r: int)
    ensures 10 * r <= gold * tenths < 10 * r + 10
  {
    (gold * tenths) / 10
  }

  /** A multiplier of one changes nothing; one of at least one never lowers a
      non-negative amount; more gold never yields less. */
  lemma MultiplierBounds(gold: int, more: int, tenths: int)
    requires tenths >= 10 && 0 <= gold <= more
    ensures ApplyMathMultiplier(gold, 10) == gold
    ensures gold <= ApplyMathMultiplier(gold, tenths)
    ensures ApplyMathMultiplier(gold, tenths) <= ApplyMathMultiplier(more, tenths)
  {
    assert gold * tenths >= gold * 10;
    assert more * tenths >= gold * tenths;
  }

  /** The rounding is downwards: 33 gold at 1.5 is 49, not 50. */
  lemma MultiplierRoundsDown()
    ensures ApplyMathMultiplier(33, 15) == 49
    ensures ApplyMathMultiplier(100, 15) == 150
  {
  }
}
