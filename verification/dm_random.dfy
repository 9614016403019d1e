/**
 * The dice behind the dungeon-master chart: `createSeededRandom`, a
 * Lehmer generator (multiplier 16807 modulo the prime 2^31 - 1) whose
 * state the closure updates in place, and `createFormulaRng`, which rolls
 * formulas `NdS` and `NdS+K` with it.
 *
 * A sample is the fraction (state - 1) / 2147483646; the model keeps its
 * numerator and computes `Math.floor(sample * sides)` exactly, as
 * ((state - 1) * sides) / 2147483646.
 */
module DmRandom {
  import opened Wrappers
  import opened Text

  const MODULUS: int := 2147483647
  const MULTIPLIER: int := 16807
  /** The denominator of every sample. */
  const SCALE: int := 2147483646

  /** JavaScript's `%` on integers: the remainder has the sign of the dividend. */
  function JsRem(a: int, m: int): (r: int)
    requires m > 0
    ensures -m < r < m
    ensures a >= 0 ==> 0 <= r
    ensures a <= 0 ==> r <= 0
  {
    if a >= 0 then a % m else -((-a) % m)
  }

  /** `seed % 2147483647 || 1`: a remainder of zero becomes 1. */
  function Start(seed: int): int {
    if JsRem(seed, MODULUS) == 0 then 1 else JsRem(seed, MODULUS)
  }

  /** One step of the generator. */
  function Step(v: int): int {
    JsRem(v * MULTIPLIER, MODULUS)
  }

  /** The state after `n` steps. */
  function Iterate(v: int, n: nat): int {
    if n == 0 then v else Step(Iterate(v, n - 1))
  }

  /** A state the generator can be in: non-zero and below the modulus in size. */
  predicate Live(v: int) {
    v != 0 && -MODULUS < v < MODULUS
  }

  /** 16807 has the inverse 1407677000 modulo 2^31 - 1, so a multiple of the modulus stays one only from zero. */
  lemma ProductNotMultiple(v: int)
    requires 0 < v < MODULUS
    ensures (v * MULTIPLIER) % MODULUS != 0
  {
  }

  /** Every start is live, and a non-negative seed starts in [1, 2^31 - 2]. */
  lemma StartLive(seed: int)
    ensures Live(Start(seed))
    ensures seed >= 0 ==> 1 <= Start(seed) < MODULUS
  {
  }

  /** A step keeps a state live and keeps its sign. */
  lemma StepLive(v: int)
    requires Live(v)
    ensures Live(Step(v))
    ensures v > 0 <==> Step(v) > 0
  {
    if v > 0 {
      ProductNotMultiple(v);
    } else {
      ProductNotMultiple(-v);
      assert -(v * MULTIPLIER) == (-v) * MULTIPLIER;
    }
  }

  /** So does any number of steps. */
  lemma {:induction false} IterateLive(v: int, n: nat)
    requires Live(v)
    ensures Live(Iterate(v, n))
    ensures v > 0 <==> Iterate(v, n) > 0
  {
    if n > 0 {
      IterateLive(v, n - 1);
      StepLive(Iterate(v, n - 1));
    }
  }

  /** The generator of `createSeededRandom`, its state updated by each sample. */
  class SeededRandom {
    var value: int

    predicate Valid()
      reads this
    {
      Live(value)
    }

    constructor(seed: int)
      ensures value == Start(seed) && Valid()
    {
      value := Start(seed);
      StartLive(seed);
    }

    /**
     * Advance the state and return the sample's numerator: the sample is
     * `n / 2147483646`, in [0, 1) when the state is positive.
     */
    method Sample() returns (n: int)
      requires Valid()
      modifies this
      ensures value == Step(old(value)) && Valid()
      ensures n == value - 1
      ensures old(value) > 0 ==> 0 <= n < SCALE
    {
      StepLive(value);
      value := JsRem(value * MULTIPLIER, MODULUS);
      n := value - 1;
    }
  }

  datatype Formula = Formula(count: nat, sides: nat, modifier: int)

  predicate IsD(c: char) {
    c == 'd' || c == 'D'
  }

  /** The optional `[+-]\d+` at the end of a formula; nothing is a modifier of 0. */
  function ParseModifier(tail: string): (r: Option<int>)
    ensures tail == [] ==> r == Some(0)
  {
    if tail == [] then Some(0)
    else if |tail| > 1 && (tail[0] == '+' || tail[0] == '-') && AllDigits(tail[1..]) then
      var magnitude: int := DecimalValue(tail[1..]);
      Some(if tail[0] == '+' then magnitude else -magnitude)
    else None
  }

  /** What follows the `d`: the sides, then the modifier. */
  function ParseSides(rest: string): Option<(nat, int)> {
    var k := DigitPrefix(rest);
    if k == 0 then None
    else
      DigitPrefixDigits(rest);
      match ParseModifier(rest[k..])
      case None => None
      case Some(m) => Some((DecimalValue(rest[..k]), m))
  }

  /** A trimmed formula: the count, a `d` in either case, then the sides and modifier. */
  function ParseText(text: string): Option<Formula> {
    var n := DigitPrefix(text);
    if n == 0 || n == |text| || !IsD(text[n]) then None
    else
      DigitPrefixDigits(text);
      match ParseSides(text[n + 1..])
      case None => None
      case Some((sides, m)) => Some(Formula(DecimalValue(text[..n]), sides, m))
  }

  /** `/^(\d+)d(\d+)([+-]\d+)?$/i` on the trimmed formula. */
  function ParseFormula(formula: string): Option<Formula> {
    ParseText(Trim(formula))
  }

  /** The text of a formula: `NdS`, `NdS+K` or `NdS-K`. */
  function FormatFormula(f: Formula): string {
    NatToDecimal(f.count) + "d" + NatToDecimal(f.sides)
      + (if f.modifier == 0 then ""
         else if f.modifier > 0 then "+" + NatToDecimal(f.modifier)
         else "-" + NatToDecimal(-f.modifier))
  }

  lemma ModifierRoundTrip(m: int)
    ensures var tail := if m == 0 then "" else if m > 0 then "+" + NatToDecimal(m) else "-" + NatToDecimal(-m);
      ParseModifier(tail) == Some(m) && (tail == [] || !IsDigit(tail[0]))
  {
    if m > 0 {
      var t := "+" + NatToDecimal(m);
      assert t[1..] == NatToDecimal(m);
      DecimalRoundTrip(m);
    } else if m < 0 {
      var t := "-" + NatToDecimal(-m);
      assert t[1..] == NatToDecimal(-m);
      DecimalRoundTrip(-m);
    }
  }

  lemma FormulaTextTrimmed(c: string, s: string, tail: string)
    requires c != [] && AllDigits(c) && s != [] && AllDigits(s)
    requires tail == [] || !IsSpace(tail[|tail| - 1])
    ensures Trim(c + ("d" + (s + tail))) == c + ("d" + (s + tail))
  {
    var text := c + ("d" + (s + tail));
    assert text[0] == c[0] && IsDigit(c[0]);
    if tail == [] {
      assert text[|text| - 1] == s[|s| - 1] && IsDigit(s[|s| - 1]);
    } else {
      assert text[|text| - 1] == tail[|tail| - 1];
    }
    TrimTight(text);
  }

  lemma SidesParts(s: string, tail: string)
    requires s != [] && AllDigits(s)
    requires tail == [] || !IsDigit(tail[0])
    ensures ParseSides(s + tail) == match ParseModifier(tail)
      case None => None
      case Some(m) => Some((DecimalValue(s), m))
  {
    DigitPrefixOf(s, tail);
  }

  lemma TextParts(c: string, rest: string)
    requires c != [] && AllDigits(c)
    ensures ParseText(c + ("d" + rest)) == match ParseSides(rest)
      case None => None
      case Some((sides, m)) => Some(Formula(DecimalValue(c), sides, m))
  {
    var text := c + ("d" + rest);
    DigitPrefixOf(c, "d" + rest);
    assert text[|c|] == 'd';
    assert text[|c| + 1..] == rest;
  }

  /** Two runs of digits around a `d`, then a tail the modifier pattern accepts. */
  lemma ParseParts(c: string, s: string, tail: string)
    requires c != [] && AllDigits(c) && s != [] && AllDigits(s)
    requires tail == [] || (!IsDigit(tail[0]) && !IsSpace(tail[|tail| - 1]))
    requires ParseModifier(tail).Some?
    ensures ParseFormula(c + "d" + s + tail)
      == Some(Formula(DecimalValue(c), DecimalValue(s), ParseModifier(tail).value))
  {
    assert c + "d" + s + tail == c + ("d" + (s + tail));
    FormulaTextTrimmed(c, s, tail);
    SidesParts(s, tail);
    TextParts(c, s + tail);
  }

  /** Every formula's text parses back to it. */
  lemma ParseFormatted(f: Formula)
    ensures ParseFormula(FormatFormula(f)) == Some(f)
  {
    var tail := if f.modifier == 0 then "" else if f.modifier > 0 then "+" + NatToDecimal(f.modifier)
      else "-" + NatToDecimal(-f.modifier);
    ModifierRoundTrip(f.modifier);
    if tail != [] {
      var d := tail[1..];
      assert tail[|tail| - 1] == d[|d| - 1];
    }
    ParseParts(NatToDecimal(f.count), NatToDecimal(f.sides), tail);
    DecimalRoundTrip(f.count);
    DecimalRoundTrip(f.sides);
  }

  /** One die from the state after its sample: `1 + Math.floor(sample * sides)`. */
  function Die(state: int, sides: nat): int {
    1 + ((state - 1) * sides) / SCALE
  }

  /** The dice of `count` samples from state `v`, in order. */
  function Total(v: int, count: nat, sides: nat): int {
    if count == 0 then 0 else Total(v, count - 1, sides) + Die(Iterate(v, count), sides)
  }

  lemma MulMono(a: int, b: int, c: int)
    requires a <= b && 0 <= c
    ensures a * c <= b * c
  {
  }

  /** From a positive state a die of `sides >= 1` faces lands in [1, sides]. */
  lemma DieRange(state: int, sides: nat)
    requires 1 <= state < MODULUS && sides >= 1
    ensures 1 <= Die(state, sides) <= sides
  {
    var p := (state - 1) * sides;
    MulMono(0, state - 1, sides);
    MulMono(state - 1, SCALE - 1, sides);
    assert p < SCALE * sides;
    var q := p / SCALE;
    assert p == q * SCALE + p % SCALE;
    if q >= sides {
      MulMono(sides, q, SCALE);
    }
  }

  /** So `count` dice from a positive state sum to between `count` and `count * sides`. */
  lemma {:induction false} TotalRange(v: int, count: nat, sides: nat)
    requires 1 <= v < MODULUS && sides >= 1
    ensures count <= Total(v, count, sides) <= count * sides
  {
    if count > 0 {
      TotalRange(v, count - 1, sides);
      IterateLive(v, count);
      DieRange(Iterate(v, count), sides);
      assert (count - 1) * sides + sides == count * sides;
    }
  }

  /** The roller of `createFormulaRng`, sampling its own generator. */
  class FormulaRng {
    const sample: SeededRandom

    constructor(seed: int)
      ensures fresh(sample) && sample.value == Start(seed) && sample.Valid()
    {
      sample := new SeededRandom(seed);
    }

    /**
     * Roll a formula: an unsupported one is an error and takes no sample;
     * otherwise `count` samples are taken and the total is their dice plus
     * the modifier.
     */
    method Roll(formula: string) returns (r: Result<int, string>)
      requires sample.Valid()
      modifies sample
      ensures sample.Valid()
      ensures ParseFormula(formula).None? ==>
        r == Err("Unsupported dice formula: " + formula) && sample.value == old(sample.value)
      ensures ParseFormula(formula).Some? ==>
        var f := ParseFormula(formula).value;
        && sample.value == Iterate(old(sample.value), f.count)
        && r == Ok(Total(old(sample.value), f.count, f.sides) + f.modifier)
    {
      var parsed := ParseFormula(formula);
      if parsed.None? {
        return Err("Unsupported dice formula: " + formula);
      }
      var f := parsed.value;
      var total := 0;
      var i := 0;
      while i < f.count
        invariant 0 <= i <= f.count
        invariant sample.Valid()
        invariant sample.value == Iterate(old(sample.value), i)
        invariant total == Total(old(sample.value), i, f.sides)
      {
        var n := sample.Sample();
        total := total + 1 + (n * f.sides) / SCALE;
        i := i + 1;
      }
      r := Ok(total + f.modifier);
    }
  }

  /** A formula rolled from a positive state lies between its least and greatest outcome. */
  lemma RollRange(v: int, f: Formula)
    requires 1 <= v < MODULUS && f.sides >= 1
    ensures f.count + f.modifier <= Total(v, f.count, f.sides) + f.modifier <= f.count * f.sides + f.modifier
  {
    TotalRange(v, f.count, f.sides);
  }
}
