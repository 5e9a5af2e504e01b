/**
 * The shared D&D 5e formulas of `utils/calculations.ts`: ability modifier, proficiency bonus,
 * armour class and hit points.
 */
module Calculations {

  /** `Math.floor((score - 10) / 2)`: the modifier of the "Ability Scores and Modifiers" table. */
  function Modifier(score: int): (m: int)
    ensures 2 * m <= score - 10 < 2 * m + 2
  {
    (score - 10) / 2
  }

  /** Rows of the table the formula reproduces, including the odd scores below 10. */
  lemma ModifierTable()
    ensures Modifier(1) == -5 && Modifier(7) == -2 && Modifier(8) == -1 && Modifier(9) == -1
    ensures Modifier(10) == 0 && Modifier(11) == 0 && Modifier(15) == 2 && Modifier(20) == 5
  {
  }

  /** A higher score never has a lower modifier, and every two points add one. */
  lemma ModifierMonotone(a: int, b: int)
    requires a <= b
    ensures Modifier(a) <= Modifier(b)
    ensures Modifier(a + 2) == Modifier(a) + 1
  {
  }

  /** `Math.ceil(x / d)` for a positive divisor, written with Euclidean division. */
  function CeilDiv(x: int, d: int): (r: int)
    requires d > 0
    ensures d * (r - 1) < x <= d * r
  {
    -((-x) / d)
  }

  /** `calculateProficiencyBonus`: `Math.ceil(level / 4) + 1`. */
  function ProficiencyBonus(level: int): (p: int)
    ensures 4 * (p - 2) < level <= 4 * (p - 1)
  {
    CeilDiv(level, 4) + 1
  }

  /** The rows of the character advancement table for levels 1 to 20. */
  lemma ProficiencyBonusTable(level: int)
    requires 1 <= level <= 20
    ensures ProficiencyBonus(level) == (if level <= 4 then 2 else if level <= 8 then 3
                                        else if level <= 12 then 4 else if level <= 16 then 5 else 6)
  {
  }

  /** `calculateAC`: without armour the base is 10, whatever `baseAC` says. */
  function ArmorClass(baseAC: int, dexMod: int, hasArmor: bool): (ac: int)
    ensures hasArmor ==> ac - dexMod == baseAC
    ensures !hasArmor ==> ac - dexMod == 10
  {
    if !hasArmor then 10 + dexMod else baseAC + dexMod
  }

  lemma ArmorClassIgnoresBaseWithoutArmor(base1: int, base2: int, dexMod: int)
    ensures ArmorClass(base1, dexMod, false) == ArmorClass(base2, dexMod, false)
  {
  }

  /** The hit points a level after the first adds: `max(1, ceil(hitDie / 2) + conMod)`. */
  function PerLevelHP(hitDie: int, conMod: int): (p: int)
    ensures p >= 1
    ensures p >= CeilDiv(hitDie, 2) + conMod
  {
    var p := CeilDiv(hitDie, 2) + conMod;
    if p < 1 then 1 else p
  }

  /**
   * The value `calculateHP` returns: the hit die plus the constitution modifier at first
   * level, `PerLevelHP` for each level from 2 up to `level`, and never less than 1.
   */
  function HP(hitDie: int, level: int, conMod: int): (hp: int)
    ensures hp >= 1
  {
    var raw := hitDie + conMod + (if level >= 2 then (level - 1) * PerLevelHP(hitDie, conMod) else 0);
    if raw < 1 then 1 else raw
  }

  /** `calculateHP`, with its accumulating loop. */
  method CalculateHP(hitDie: int, level: int, conMod: int) returns (result: int)
    ensures result == HP(hitDie, level, conMod)
    ensures result >= 1
  {
    var hp := hitDie + conMod;
    var perLevel := PerLevelHP(hitDie, conMod);
    var i := 2;
    while i <= level
      invariant 2 <= i
      invariant level >= 2 ==> i <= level + 1
      invariant level < 2 ==> i == 2
      invariant hp == hitDie + conMod + (i - 2) * perLevel
    {
      hp := hp + perLevel;
      i := i + 1;
    }
    result := if hp < 1 then 1 else hp;
  }

  /** One more level never lowers the hit points: each level adds at least one. */
  lemma {:induction false} HPGrowsWithLevel(hitDie: int, level: int, conMod: int)
    requires level >= 1
    ensures HP(hitDie, level + 1, conMod) >= HP(hitDie, level, conMod)
    ensures HP(hitDie, level + 1, conMod) >= hitDie + conMod + level * PerLevelHP(hitDie, conMod)
  {
    var p := PerLevelHP(hitDie, conMod);
    assert (level + 1 - 1) * p == (level - 1) * p + p;
  }

  /** Hit points are non-decreasing in level. */
  lemma {:induction false} HPMonotone(hitDie: int, level1: int, level2: int, conMod: int)
    requires 1 <= level1 <= level2
    ensures HP(hitDie, level1, conMod) <= HP(hitDie, level2, conMod)
    decreases level2 - level1
  {
    if level1 < level2 {
      HPMonotone(hitDie, level1, level2 - 1, conMod);
      HPGrowsWithLevel(hitDie, level2 - 1, conMod);
    }
  }

  /**
   * For an even hit die the per-level gain is `max(1, hitDie / 2 + conMod)`.  Whenever
   * `hitDie / 2 + conMod` is at least 1, that is one hit point below the rules book's fixed
   * value `hitDie / 2 + 1 + conMod`, so a character at `level` has `level - 1` hit points fewer
   * than with the fixed value.
   */
  lemma PerLevelBelowFixedValue(hitDie: int, level: int, conMod: int)
    requires hitDie > 0 && hitDie % 2 == 0 && level >= 1
    ensures PerLevelHP(hitDie, conMod) == if hitDie / 2 + conMod < 1 then 1 else hitDie / 2 + conMod
    ensures hitDie / 2 + conMod >= 1 ==>
              HP(hitDie, level, conMod) + (level - 1)
              == hitDie + conMod + (level - 1) * (hitDie / 2 + 1 + conMod)
  {
    assert CeilDiv(hitDie, 2) == hitDie / 2;
    if hitDie / 2 + conMod >= 1 {
      assert (level - 1) * (hitDie / 2 + 1 + conMod) == (level - 1) * (hitDie / 2 + conMod) + (level - 1);
      assert (level - 1) * (hitDie / 2 + conMod) >= 0;
    }
  }
}
