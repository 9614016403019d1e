/**
 * `CombatCalculator` of packages/engine/src/combat-calculator.ts (the legacy
 * copy in packages/engine/src/index.ts is the same code): armour class and
 * the proficiency bonus by level.
 */
module Combat {

  /** `calculateArmorClass`: base, dexterity modifier and armour bonus added up. */
  function ArmorClass(baseAC: int, dexModifier: int, armorBonus: int): int {
    baseAC + dexModifier + armorBonus
  }

  /** The engine's test case: 10 + 2 + 3. */
  lemma ArmorClassExample()
    ensures ArmorClass(10, 2, 3) == 15
  {
  }

  /**
   * The armour class never falls when a part rises, and each part raises it
   * one for one: the difference of two armour classes is the sum of the
   * parts' differences.
   */
  lemma ArmorClassMonotone(base: int, dex: int, armor: int, base2: int, dex2: int, armor2: int)
    requires base <= base2 && dex <= dex2 && armor <= armor2
    ensures ArmorClass(base, dex, armor) <= ArmorClass(base2, dex2, armor2)
    ensures ArmorClass(base2, dex2, armor2) - ArmorClass(base, dex, armor) == (base2 - base) + (dex2 - dex) + (armor2 - armor)
    ensures ArmorClass(base + 1, dex, armor) == ArmorClass(base, dex, armor) + 1
    ensures ArmorClass(base, dex + 1, armor) == ArmorClass(base, dex, armor) + 1
    ensures ArmorClass(base, dex, armor + 1) == ArmorClass(base, dex, armor) + 1
  {
  }

  /** `Math.ceil(n / 4)`. */
  function CeilQuarter(n: int): (c: int)
    ensures 4 * (c - 1) < n <= 4 * c
  {
    -((-n) / 4)
  }

  /** `calculateProficiencyBonus`: one more than a quarter of the level, rounded up. */
  function ProficiencyBonus(level: int): (b: int)
    ensures 4 * (b - 2) < level <= 4 * (b - 1)
  {
    CeilQuarter(level) + 1
  }

  /** The engine's test cases: levels 1, 5, 9 and 13. */
  lemma ProficiencyExamples()
    ensures ProficiencyBonus(1) == 2 && ProficiencyBonus(5) == 3
    ensures ProficiencyBonus(9) == 4 && ProficiencyBonus(13) == 5
  {
  }

  /** Levels 4k+1 to 4k+4 share the bonus k + 2, so levels 1-4 give 2 and 17-20 give 6. */
  lemma ProficiencyTiers(k: int, level: int)
    requires 4 * k + 1 <= level <= 4 * k + 4
    ensures ProficiencyBonus(level) == k + 2
  {
  }

  /** The bonus never falls as the level rises. */
  lemma ProficiencyMonotone(l1: int, l2: int)
    requires l1 <= l2
    ensures ProficiencyBonus(l1) <= ProficiencyBonus(l2)
  {
  }
}
