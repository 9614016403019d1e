/**
 * `DiceRoller` of packages/engine/src/dice-roller.ts (and its legacy copy in
 * packages/engine/src/index.ts, the same code over `Math.random`): rolls
 * delegate to a pluggable random number generator, and advantage or
 * disadvantage keep the better or worse of two d20 rolls.
 *
 * The generator is the function `rng`: its `n`-th call (counting from 0)
 * asked for `sides` faces answers `rng(n, sides)`. The roller counts the
 * calls it has made.
 */
module DiceRoller {
  import opened Wrappers
  import opened Core

  datatype DiceResult = DiceResult(
    base: int, modifier: int, total: int, rolls: seq<int>,
    advantage: Option<bool>, disadvantage: Option<bool>)

  /** `MathRandomNumberGenerator.roll` for a sample `num / den` of `Math.random()`. */
  function RandomFace(num: nat, den: nat, sides: nat): (face: int)
    requires num < den
    ensures sides >= 1 ==> 1 <= face <= sides
  {
    DivBelow(num, den, sides);
    (num * sides) / den + 1
  }

  lemma DivBelow(num: nat, den: nat, sides: nat)
    requires num < den
    ensures (num * sides) / den < sides || sides == 0
  {
    if sides > 0 {
      assert num * sides < den * sides;
    }
  }

  /** The result of `rollD20` for the roll `base`. */
  function D20(base: int): DiceResult {
    DiceResult(base, 0, base, [base], None, None)
  }

  /** The result of `rollD20WithAdvantage` for the rolls `r1` then `r2`. */
  function Advantage(r1: int, r2: int): DiceResult {
    DiceResult(Max(r1, r2), 0, Max(r1, r2), [r1, r2], Some(true), None)
  }

  /** The result of `rollD20WithDisadvantage` for the rolls `r1` then `r2`. */
  function Disadvantage(r1: int, r2: int): DiceResult {
    DiceResult(Min(r1, r2), 0, Min(r1, r2), [r1, r2], None, Some(true))
  }

  /** A roll's base is the largest of its rolls. */
  predicate KeepsHighest(r: DiceResult) {
    r.base in r.rolls && forall x :: x in r.rolls ==> x <= r.base
  }

  /** A roll's base is the smallest of its rolls. */
  predicate KeepsLowest(r: DiceResult) {
    r.base in r.rolls && forall x :: x in r.rolls ==> r.base <= x
  }

  /** A single d20 has one roll, no modifier, and its total is the roll. */
  lemma D20Shape(base: int)
    ensures var r := D20(base);
      && r.rolls == [r.base] && r.modifier == 0 && r.total == r.base + r.modifier
      && KeepsHighest(r) && KeepsLowest(r)
  {
  }

  /**
   * Advantage keeps both rolls in order and the higher one as its base and
   * total, with no modifier; it lies in [1, 20] when both rolls do.
   */
  lemma AdvantageShape(r1: int, r2: int)
    ensures var r := Advantage(r1, r2);
      && r.rolls == [r1, r2] && KeepsHighest(r) && r.modifier == 0 && r.total == r.base + r.modifier
      && r.advantage == Some(true) && r.disadvantage.None?
      && (1 <= r1 <= 20 && 1 <= r2 <= 20 ==> 1 <= r.base <= 20)
  {
    var r := Advantage(r1, r2);
    assert r.base == r1 || r.base == r2;
  }

  /** Disadvantage keeps both rolls in order and the lower one. */
  lemma DisadvantageShape(r1: int, r2: int)
    ensures var r := Disadvantage(r1, r2);
      && r.rolls == [r1, r2] && KeepsLowest(r) && r.modifier == 0 && r.total == r.base + r.modifier
      && r.disadvantage == Some(true) && r.advantage.None?
      && (1 <= r1 <= 20 && 1 <= r2 <= 20 ==> 1 <= r.base <= 20)
  {
    var r := Disadvantage(r1, r2);
    assert r.base == r1 || r.base == r2;
  }

  /** Advantage never does worse than disadvantage on the same two rolls. */
  lemma AdvantageBeatsDisadvantage(r1: int, r2: int)
    ensures Disadvantage(r1, r2).total <= Advantage(r1, r2).total
  {
  }

  class Roller {
    const rng: (nat, nat) -> int
    /** How many times the generator has been called. */
    var drawn: nat

    constructor(rng: (nat, nat) -> int)
      ensures this.rng == rng && drawn == 0
    {
      this.rng := rng;
      drawn := 0;
    }

    /** `roll(sides)`: exactly the generator's answer. */
    method Roll(sides: nat) returns (v: int)
      modifies this
      ensures v == rng(old(drawn), sides) && drawn == old(drawn) + 1
    {
      v := rng(drawn, sides);
      drawn := drawn + 1;
    }

    method RollD20() returns (r: DiceResult)
      modifies this
      ensures r == D20(rng(old(drawn), 20)) && drawn == old(drawn) + 1
    {
      var base := Roll(20);
      r := DiceResult(base, 0, base, [base], None, None);
    }

    /** Two draws of 20 sides, in call order. */
    method RollD20WithAdvantage() returns (r: DiceResult)
      modifies this
      ensures r == Advantage(rng(old(drawn), 20), rng(old(drawn) + 1, 20)) && drawn == old(drawn) + 2
    {
      var roll1 := Roll(20);
      var roll2 := Roll(20);
      var base := Max(roll1, roll2);
      r := DiceResult(base, 0, base, [roll1, roll2], Some(true), None);
    }

    method RollD20WithDisadvantage() returns (r: DiceResult)
      modifies this
      ensures r == Disadvantage(rng(old(drawn), 20), rng(old(drawn) + 1, 20)) && drawn == old(drawn) + 2
    {
      var roll1 := Roll(20);
      var roll2 := Roll(20);
      var base := Min(roll1, roll2);
      r := DiceResult(base, 0, base, [roll1, roll2], None, Some(true));
    }
  }
}
