/**
 * The provably fair dice service of packages/engine/src/dice.ts.
 *
 * A dice expression `NdM+K` is parsed and range-checked; each die `i` is drawn
 * from the first four bytes (big-endian) of SHA-256 over `seed:i:attempt`,
 * with rejection sampling against the largest multiple of the number of sides
 * below 2^32, at most 1001 hash evaluations per die; the total is the sum of the
 * dice plus the modifier. Verification re-derives the dice; advantage and
 * disadvantage roll twice from two seeds derived from one root seed.
 *
 * SHA-256 (FIPS 180-4, section 6.2) is the parameter `sha256`, an arbitrary
 * function to 32-byte digests; the 32 random bytes behind a generated seed are
 * the parameter `entropy`. A seed of "" stands for an absent one, as
 * `seed || generateSeed()` treats both alike.
 */
module Dice {
  import opened Wrappers
  import opened Text

  type Byte = b: int | 0 <= b < 256
  type Bytes32 = s: seq<Byte> | |s| == 32 witness seq(32, _ => 0)

  /** SHA-256 of a text: any function to 32-byte digests. */
  type Sha256 = string -> Bytes32

  const UINT32_RANGE: nat := 0x1_0000_0000
  /** After this many rejected attempts (attempts 0..1000) a die is given up. */
  const MAX_ATTEMPTS: nat := 1000
  const MIN_COUNT: int := 1
  const MAX_COUNT: int := 100
  const MIN_SIDES: int := 2
  const MAX_SIDES: int := 1000
  const MAX_MODIFIER: int := 10000

  datatype DiceExpression = DiceExpression(count: int, sides: int, modifier: int)

  /** The `error` strings of `parseExpression`, one constructor each. */
  datatype ParseError = EmptyExpression | BadFormat | CountOutOfRange | SidesOutOfRange | ModifierOutOfRange

  datatype RollError = InvalidExpression(reason: ParseError) | SamplingExhausted

  datatype RollResult = RollResult(result: int, breakdown: seq<int>, seed: string)

  // ----- seeds -----

  const HEX_DIGITS: string := "0123456789abcdef"

  predicate IsHex(s: string) {
    forall i :: 0 <= i < |s| ==> s[i] in HEX_DIGITS
  }

  /** `Buffer.toString('hex')`: two lower-case hex digits per byte, high nibble first. */
  function HexEncode(bytes: seq<Byte>): (hex: string)
    ensures |hex| == 2 * |bytes| && IsHex(hex)
  {
    if bytes == [] then []
    else [HEX_DIGITS[bytes[0] / 16], HEX_DIGITS[bytes[0] % 16]] + HexEncode(bytes[1..])
  }

  /** `generateSeed`: the hex text of 32 random bytes. */
  function GenerateSeed(entropy: Bytes32): (seed: string)
    ensures |seed| == 64 && IsHex(seed)
  {
    HexEncode(entropy)
  }

  /** `deriveSeed`: the hex SHA-256 of the parent seed followed by the context label. */
  function DeriveSeed(sha256: Sha256, parent: string, context: string): (seed: string)
    ensures |seed| == 64 && IsHex(seed)
  {
    HexEncode(sha256(parent + context))
  }

  /** `seed || this.generateSeed()`. */
  function ActualSeed(seed: string, entropy: Bytes32): (s: string)
    ensures s != []
    ensures seed != [] ==> s == seed
    ensures seed == [] ==> s == GenerateSeed(entropy)
  {
    if seed != [] then seed else GenerateSeed(entropy)
  }

  // ----- Euclidean division -----

  lemma MulAtLeast(a: int, d: int)
    requires d > 0
    ensures a >= 1 ==> a * d >= d
    ensures a <= -1 ==> a * d <= -d
  {
  }

  /** Quotient and remainder are the only ones with `0 <= r < d`. */
  lemma DivModUnique(k: int, d: int, q: int, r: int)
    requires d > 0 && 0 <= r < d && k == q * d + r
    ensures k / d == q && k % d == r
  {
    var q', r' := k / d, k % d;
    assert k == q' * d + r';
    assert (q - q') * d == r' - r;
    MulAtLeast(q - q', d);
  }

  // ----- the 32-bit draw -----

  /** `Buffer.readUInt32BE(0)`: the first four bytes, most significant first. */
  function ReadUInt32BE(d: seq<Byte>): (v: nat)
    requires |d| >= 4
    ensures v < UINT32_RANGE
    ensures v / 0x100_0000 == d[0] && v % 0x100 == d[3]
  {
    var b0, b1, b2, b3: int := d[0], d[1], d[2], d[3];
    var lo := b1 * 0x1_0000 + b2 * 0x100 + b3;
    assert lo < 0x100_0000;
    DivModUnique(b0 * 0x100_0000 + lo, 0x100_0000, b0, lo);
    DivModUnique(b0 * 0x100_0000 + lo, 0x100, b0 * 0x1_0000 + b1 * 0x100 + b2, b3);
    b0 * 0x100_0000 + lo
  }

  /** The text hashed for attempt `attempt` of die `dieIndex`: `${seed}:${dieIndex}:${attempt}`. */
  function HashInput(seed: string, dieIndex: nat, attempt: nat): string {
    seed + ":" + NatToDecimal(dieIndex) + ":" + NatToDecimal(attempt)
  }

  /** `generateUInt32`. */
  function GenerateUInt32(sha256: Sha256, seed: string, dieIndex: nat, attempt: nat): (v: nat)
    ensures v < UINT32_RANGE
  {
    ReadUInt32BE(sha256(HashInput(seed, dieIndex, attempt)))
  }

  /**
   * Within one seed, no two (die, attempt) pairs hash the same text: the ':'
   * separators and digit-only numbers make the input unambiguous.
   */
  lemma HashInputInjective(seed: string, i1: nat, a1: nat, i2: nat, a2: nat)
    requires HashInput(seed, i1, a1) == HashInput(seed, i2, a2)
    ensures i1 == i2 && a1 == a2
  {
    var x1, y1 := NatToDecimal(i1), NatToDecimal(a1);
    var x2, y2 := NatToDecimal(i2), NatToDecimal(a2);
    var t1, t2 := HashInput(seed, i1, a1), HashInput(seed, i2, a2);
    var p := |seed| + 1;
    assert t1[p..] == x1 + ":" + y1;
    assert t2[p..] == x2 + ":" + y2;
    var u1, u2 := x1 + ":" + y1, x2 + ":" + y2;
    assert u1 == u2;
    assert |x1| == |x2| by {
      assert u1[|x1|] == ':' && u2[|x2|] == ':';
    }
    assert x1 == u1[..|x1|] == u2[..|x2|] == x2;
    assert y1 == u1[|x1| + 1..] == u2[|x2| + 1..] == y2;
    NatToDecimalInjective(i1, i2);
    NatToDecimalInjective(a1, a2);
  }

  // ----- rejection sampling -----

  /** `limit` of `rollFairDie`: 2^32 less the remainder of 2^32 by `sides`. */
  function Limit(sides: nat): int
    requires sides >= 1
  {
    UINT32_RANGE - UINT32_RANGE % sides
  }

  /**
   * The limit is a whole number of blocks of `sides` values, falls short of
   * 2^32 by less than one block, and is positive for every die a 32-bit draw
   * can serve.
   */
  lemma LimitBounds(sides: nat)
    requires sides >= 1
    ensures Limit(sides) % sides == 0
    ensures 0 <= Limit(sides) <= UINT32_RANGE && UINT32_RANGE - Limit(sides) < sides
    ensures sides <= UINT32_RANGE ==> Limit(sides) > 0
  {
    var q := UINT32_RANGE / sides;
    DivModUnique(UINT32_RANGE - UINT32_RANGE % sides, sides, q, 0);
    MulAtLeast(q, sides);
  }

  predicate Accepted(sha256: Sha256, sides: nat, seed: string, dieIndex: nat, attempt: nat)
    requires sides >= 1
  {
    GenerateUInt32(sha256, seed, dieIndex, attempt) < Limit(sides)
  }

  /** The face an accepted draw shows: `(randomValue % sides) + 1`. */
  function Face(sha256: Sha256, sides: nat, seed: string, dieIndex: nat, attempt: nat): (face: int)
    requires sides >= 1
    ensures 1 <= face <= sides
  {
    GenerateUInt32(sha256, seed, dieIndex, attempt) % sides + 1
  }

  /** `rollFairDie` from attempt `attempt` on: the first accepted draw, or failure after attempt 1000. */
  function FairDieFrom(sha256: Sha256, sides: nat, seed: string, dieIndex: nat, attempt: nat): (r: Result<int, RollError>)
    requires sides >= 1 && attempt <= MAX_ATTEMPTS
    ensures r.Ok? ==> 1 <= r.value <= sides
    ensures r.Err? ==> r.error == SamplingExhausted
    decreases MAX_ATTEMPTS - attempt
  {
    if Accepted(sha256, sides, seed, dieIndex, attempt) then Ok(Face(sha256, sides, seed, dieIndex, attempt))
    else if attempt + 1 > MAX_ATTEMPTS then Err(SamplingExhausted)
    else FairDieFrom(sha256, sides, seed, dieIndex, attempt + 1)
  }

  function FairDie(sha256: Sha256, sides: nat, seed: string, dieIndex: nat): (r: Result<int, RollError>)
    requires sides >= 1
    ensures r.Ok? ==> 1 <= r.value <= sides
  {
    FairDieFrom(sha256, sides, seed, dieIndex, 0)
  }

  /** Every attempt in `[from, to)` is rejected. */
  predicate RejectedBetween(sha256: Sha256, sides: nat, seed: string, dieIndex: nat, from: nat, to: nat)
    requires sides >= 1
  {
    forall b :: from <= b < to ==> !Accepted(sha256, sides, seed, dieIndex, b)
  }

  /** The sampler fails exactly when every attempt from `from` to 1000 is rejected. */
  lemma {:induction false} FairDieFromFails(sha256: Sha256, sides: nat, seed: string, dieIndex: nat, from: nat)
    requires sides >= 1 && from <= MAX_ATTEMPTS
    ensures FairDieFrom(sha256, sides, seed, dieIndex, from).Err? <==>
      RejectedBetween(sha256, sides, seed, dieIndex, from, MAX_ATTEMPTS + 1)
    decreases MAX_ATTEMPTS - from
  {
    if !Accepted(sha256, sides, seed, dieIndex, from) && from + 1 <= MAX_ATTEMPTS {
      FairDieFromFails(sha256, sides, seed, dieIndex, from + 1);
      if RejectedBetween(sha256, sides, seed, dieIndex, from + 1, MAX_ATTEMPTS + 1) {
        forall b | from <= b < MAX_ATTEMPTS + 1 ensures !Accepted(sha256, sides, seed, dieIndex, b) {
          if b > from { assert from + 1 <= b; }
        }
      }
    }
  }

  /** When the sampler succeeds it shows the face of the first accepted attempt. */
  lemma {:induction false} FairDieFromFirst(sha256: Sha256, sides: nat, seed: string, dieIndex: nat, from: nat)
    requires sides >= 1 && from <= MAX_ATTEMPTS
    ensures FairDieFrom(sha256, sides, seed, dieIndex, from).Ok? ==>
      exists a :: from <= a <= MAX_ATTEMPTS && Accepted(sha256, sides, seed, dieIndex, a)
        && FairDieFrom(sha256, sides, seed, dieIndex, from).value == Face(sha256, sides, seed, dieIndex, a)
        && RejectedBetween(sha256, sides, seed, dieIndex, from, a)
    decreases MAX_ATTEMPTS - from
  {
    var r := FairDieFrom(sha256, sides, seed, dieIndex, from);
    if Accepted(sha256, sides, seed, dieIndex, from) {
      assert RejectedBetween(sha256, sides, seed, dieIndex, from, from);
    } else if from + 1 <= MAX_ATTEMPTS {
      FairDieFromFirst(sha256, sides, seed, dieIndex, from + 1);
      if r.Ok? {
        var a :| from + 1 <= a <= MAX_ATTEMPTS && Accepted(sha256, sides, seed, dieIndex, a)
          && r.value == Face(sha256, sides, seed, dieIndex, a)
          && RejectedBetween(sha256, sides, seed, dieIndex, from + 1, a);
        assert RejectedBetween(sha256, sides, seed, dieIndex, from, a) by {
          forall b | from <= b < a ensures !Accepted(sha256, sides, seed, dieIndex, b) {
            if b > from { assert from + 1 <= b; }
          }
        }
      }
    }
  }

  /**
   * The sampler's outcome in terms of the attempts: it fails exactly when all
   * 1001 attempts 0..1000 are rejected, and otherwise shows the face of the
   * first accepted attempt.
   */
  lemma FairDieFirstAccepted(sha256: Sha256, sides: nat, seed: string, dieIndex: nat)
    requires sides >= 1
    ensures FairDie(sha256, sides, seed, dieIndex).Err? <==>
      RejectedBetween(sha256, sides, seed, dieIndex, 0, MAX_ATTEMPTS + 1)
    ensures FairDie(sha256, sides, seed, dieIndex).Ok? ==>
      exists a :: 0 <= a <= MAX_ATTEMPTS && Accepted(sha256, sides, seed, dieIndex, a)
        && FairDie(sha256, sides, seed, dieIndex).value == Face(sha256, sides, seed, dieIndex, a)
        && RejectedBetween(sha256, sides, seed, dieIndex, 0, a)
  {
    FairDieFromFails(sha256, sides, seed, dieIndex, 0);
    FairDieFromFirst(sha256, sides, seed, dieIndex, 0);
  }

  /** `rollFairDie`, with its `while` loop and attempt counter. */
  method RollFairDie(sha256: Sha256, sides: nat, seed: string, dieIndex: nat) returns (r: Result<int, RollError>)
    requires sides >= 1
    ensures r == FairDie(sha256, sides, seed, dieIndex)
  {
    var limit := UINT32_RANGE - UINT32_RANGE % sides;
    var attempt := 0;
    while true
      invariant 0 <= attempt <= MAX_ATTEMPTS
      invariant FairDieFrom(sha256, sides, seed, dieIndex, attempt) == FairDie(sha256, sides, seed, dieIndex)
      decreases MAX_ATTEMPTS - attempt
    {
      var randomValue := GenerateUInt32(sha256, seed, dieIndex, attempt);
      if randomValue < limit {
        return Ok(randomValue % sides + 1);
      }
      attempt := attempt + 1;
      if attempt > MAX_ATTEMPTS {
        return Err(SamplingExhausted);
      }
    }
  }

  // ----- absence of modulo bias -----

  /** How many values `v` in `[0, n)` show face `face`, that is, have `v % sides + 1 == face`. */
  function Preimages(n: nat, sides: nat, face: int): nat
    requires sides >= 1
  {
    if n == 0 then 0
    else Preimages(n - 1, sides, face) + (if (n - 1) % sides + 1 == face then 1 else 0)
  }

  lemma DivModNext(k: nat, d: nat)
    requires d >= 1
    ensures k % d == d - 1 ==> (k + 1) / d == k / d + 1 && (k + 1) % d == 0
    ensures k % d < d - 1 ==> (k + 1) / d == k / d && (k + 1) % d == k % d + 1
  {
    var q, r := k / d, k % d;
    if r == d - 1 {
      DivModUnique(k + 1, d, q + 1, 0);
    } else {
      DivModUnique(k + 1, d, q, r + 1);
    }
  }

  /** In `[0, k)`, face `face` has one preimage per whole block of `sides` values, plus one in the partial block. */
  lemma {:induction false} PreimagesCount(k: nat, sides: nat, face: int)
    requires sides >= 1 && 1 <= face <= sides
    ensures Preimages(k, sides, face) == k / sides + (if k % sides >= face then 1 else 0)
  {
    if k > 0 {
      PreimagesCount(k - 1, sides, face);
      DivModNext(k - 1, sides);
    }
  }

  /**
   * No modulo bias: below `Limit(sides)` every face has exactly
   * `Limit(sides) / sides` accepted preimages.
   */
  lemma UniformFaces(sides: nat, face: int)
    requires sides >= 1 && 1 <= face <= sides
    ensures Preimages(Limit(sides), sides, face) == Limit(sides) / sides
  {
    LimitBounds(sides);
    PreimagesCount(Limit(sides), sides, face);
  }

  // ----- all the dice of one roll -----

  /** `rollDice`: die `i` is drawn with die index `i`, for `i` in `0 .. count-1`; a failing die fails the roll. */
  function Dice(sha256: Sha256, count: nat, sides: nat, seed: string): (r: Result<seq<int>, RollError>)
    requires sides >= 1
    ensures r.Ok? ==> |r.value| == count
    ensures r.Ok? ==> forall i :: 0 <= i < count ==> FairDie(sha256, sides, seed, i) == Ok(r.value[i])
    ensures r.Ok? ==> forall i :: 0 <= i < count ==> 1 <= r.value[i] <= sides
    ensures r.Err? ==> r.error == SamplingExhausted
  {
    if count == 0 then Ok([])
    else
      match Dice(sha256, count - 1, sides, seed)
      case Err(e) => Err(e)
      case Ok(prefix) =>
        match FairDie(sha256, sides, seed, count - 1)
        case Err(e) => Err(e)
        case Ok(x) => Ok(prefix + [x])
  }

  /** The dice fail exactly when one of the `count` dice exhausts its attempts. */
  lemma {:induction false} DiceFailure(sha256: Sha256, count: nat, sides: nat, seed: string)
    requires sides >= 1
    ensures Dice(sha256, count, sides, seed).Err? <==>
      exists i :: 0 <= i < count && FairDie(sha256, sides, seed, i).Err?
  {
    if count > 0 {
      DiceFailure(sha256, count - 1, sides, seed);
    }
  }

  lemma {:induction false} DiceFailurePersists(sha256: Sha256, i: nat, count: nat, sides: nat, seed: string)
    requires sides >= 1 && i <= count
    requires Dice(sha256, i, sides, seed).Err?
    ensures Dice(sha256, count, sides, seed).Err?
    decreases count - i
  {
    if i < count {
      DiceFailurePersists(sha256, i, count - 1, sides, seed);
    }
  }

  /** `rollDice`, with its `for` loop pushing into `results`. */
  method RollDice(sha256: Sha256, count: nat, sides: nat, seed: string) returns (r: Result<seq<int>, RollError>)
    requires sides >= 1
    ensures r == Dice(sha256, count, sides, seed)
  {
    var results: seq<int> := [];
    for i := 0 to count
      invariant Dice(sha256, i, sides, seed) == Ok(results)
    {
      var die := RollFairDie(sha256, sides, seed, i);
      if die.Err? {
        DiceFailurePersists(sha256, i + 1, count, sides, seed);
        return Err(die.error);
      }
      results := results + [die.value];
    }
    return Ok(results);
  }

  /** `breakdown.reduce((sum, roll) => sum + roll, 0)`. */
  function Sum(s: seq<int>): int {
    if s == [] then 0 else Sum(s[..|s| - 1]) + s[|s| - 1]
  }

  // ----- parsing `NdM±K` -----

  /** The parts of a match of `^\s*(\d+)d(\d+)\s*([+-]\s*\d+)?\s*$` (case-insensitive). */
  datatype ModifierMatch = ModifierMatch(sign: char, gap: string, digits: string)
  datatype ExprMatch = ExprMatch(lead: string, count: string, d: char, sides: string, gap: string,
                                 modifier: Option<ModifierMatch>, trail: string)

  predicate WellFormedModifier(mm: ModifierMatch) {
    (mm.sign == '+' || mm.sign == '-') && AllSpace(mm.gap) && mm.digits != [] && AllDigits(mm.digits)
  }

  /** Each part matches its piece of the regular expression. */
  predicate WellFormed(m: ExprMatch) {
    && AllSpace(m.lead)
    && m.count != [] && AllDigits(m.count)
    && (m.d == 'd' || m.d == 'D')
    && m.sides != [] && AllDigits(m.sides)
    && AllSpace(m.gap)
    && (m.modifier.Some? ==> WellFormedModifier(m.modifier.value))
    && AllSpace(m.trail)
  }

  /** The modifier's text followed by the trailing white space. */
  function ModifierThen(mod: Option<ModifierMatch>, trail: string): string {
    match mod
    case None => trail
    case Some(mm) => [mm.sign] + (mm.gap + (mm.digits + trail))
  }

  /** The text the parts spell out, front to back. */
  function MatchText(m: ExprMatch): string {
    m.lead + (m.count + ([m.d] + (m.sides + (m.gap + ModifierThen(m.modifier, m.trail)))))
  }

  /** `parseInt(match[3] || '+0')` after removing white space. */
  function ModifierValue(mod: Option<ModifierMatch>): int
    requires mod.Some? ==> WellFormedModifier(mod.value)
  {
    match mod
    case None => 0
    case Some(mm) =>
      var magnitude: int := DecimalValue(mm.digits);
      if mm.sign == '-' then -magnitude else magnitude
  }

  function MatchValues(m: ExprMatch): DiceExpression
    requires WellFormed(m)
  {
    DiceExpression(DecimalValue(m.count), DecimalValue(m.sides), ModifierValue(m.modifier))
  }

  /** What follows the sides' digits: white space, an optional modifier, trailing white space. */
  datatype Tail = Tail(gap: string, modifier: Option<ModifierMatch>, trail: string)

  predicate WellFormedTail(x: Tail) {
    AllSpace(x.gap) && (x.modifier.Some? ==> WellFormedModifier(x.modifier.value)) && AllSpace(x.trail)
  }

  /** `\s*([+-]\s*\d+)?\s*$` as a scanner. */
  function ScanTail(s: string): (x: Option<Tail>)
    ensures x.Some? ==> WellFormedTail(x.value) && x.value.gap + ModifierThen(x.value.modifier, x.value.trail) == s
  {
    var gap := SpacePrefix(s);
    SpacePrefixSpaces(s);
    var s4 := s[gap..];
    if s4 == [] then
      assert s == s[..gap] + [] by { SplitAt(s, gap); }
      Some(Tail(s[..gap], None, []))
    else if !(s4[0] == '+' || s4[0] == '-') then None
    else
      var s5 := s4[1..];
      var modGap := SpacePrefix(s5);
      var s6 := s5[modGap..];
      var digits := DigitPrefix(s6);
      SpacePrefixSpaces(s5);
      DigitPrefixDigits(s6);
      var s7 := s6[digits..];
      if digits == 0 || !AllSpace(s7) then None
      else
        var x := Tail(s[..gap], Some(ModifierMatch(s4[0], s5[..modGap], s6[..digits])), s7);
        assert x.gap + ModifierThen(x.modifier, x.trail) == s by {
          SplitAt(s6, digits);
          SplitAt(s5, modGap);
          assert s5 == s5[..modGap] + (s6[..digits] + s7);
          ConsAt(s4, 0);
          assert s4 == [s4[0]] + (s5[..modGap] + (s6[..digits] + s7));
          SplitAt(s, gap);
        }
        Some(x)
  }

  /**
   * The regular expression as a left-to-right scanner over the trimmed text:
   * white space, the count's digits, the letter, the sides' digits, then the tail.
   */
  function ScanExpression(t: string): (m: Option<ExprMatch>)
    ensures m.Some? ==> WellFormed(m.value) && MatchText(m.value) == t
  {
    var lead := SpacePrefix(t);
    var s1 := t[lead..];
    var count := DigitPrefix(s1);
    if count == 0 || count == |s1| || !(s1[count] == 'd' || s1[count] == 'D') then None
    else
      var s2 := s1[count + 1..];
      var sides := DigitPrefix(s2);
      var s3 := s2[sides..];
      if sides == 0 then None
      else
        match ScanTail(s3)
        case None => None
        case Some(x) =>
          var m := ExprMatch(t[..lead], s1[..count], s1[count], s2[..sides], x.gap, x.modifier, x.trail);
          assert WellFormed(m) by {
            SpacePrefixSpaces(t);
            DigitPrefixDigits(s1);
            DigitPrefixDigits(s2);
          }
          assert MatchText(m) == t by {
            SplitAt(s2, sides);
            ConsAt(s1, count);
            SplitAt(s1, count);
            assert s1 == s1[..count] + ([s1[count]] + (s2[..sides] + s3));
            SplitAt(t, lead);
          }
          Some(m)
  }

  lemma NotSpace(c: char)
    requires IsDigit(c) || c == 'd' || c == 'D' || c == '+' || c == '-'
    ensures !IsSpace(c)
  {
  }

  lemma NotDigit(c: char)
    requires IsSpace(c) || c == 'd' || c == 'D' || c == '+' || c == '-'
    ensures !IsDigit(c)
  {
  }

  /** The tail the scanner reports: without a modifier all trailing white space is counted in `gap`. */
  function CanonicalTail(x: Tail): Tail {
    if x.modifier.None? then Tail(x.gap + x.trail, None, []) else x
  }

  lemma ScanTailComplete(x: Tail)
    requires WellFormedTail(x)
    ensures ScanTail(x.gap + ModifierThen(x.modifier, x.trail)) == Some(CanonicalTail(x))
  {
    var s := x.gap + ModifierThen(x.modifier, x.trail);
    match x.modifier {
      case None =>
        var w := x.gap + x.trail;
        assert AllSpace(w);
        assert s == w + [];
        SpacePrefixOf(w, []);
      case Some(mm) =>
        var s4 := [mm.sign] + (mm.gap + (mm.digits + x.trail));
        NotSpace(mm.sign);
        SpacePrefixOf(x.gap, s4);
        var s5 := s4[1..];
        assert s5 == mm.gap + (mm.digits + x.trail);
        NotSpace(mm.digits[0]);
        SpacePrefixOf(mm.gap, mm.digits + x.trail);
        var s6 := s5[|mm.gap|..];
        assert s6 == mm.digits + x.trail;
        if x.trail != [] {
          NotDigit(x.trail[0]);
        }
        DigitPrefixOf(mm.digits, x.trail);
    }
  }

  /** The text after the sides' digits never starts with a digit. */
  lemma TailNotDigit(m: ExprMatch)
    requires WellFormed(m)
    ensures var tail := m.gap + ModifierThen(m.modifier, m.trail);
      tail == [] || !IsDigit(tail[0])
  {
    if m.gap != [] {
      NotDigit(m.gap[0]);
    } else if m.modifier.Some? {
      NotDigit(m.modifier.value.sign);
    } else if m.trail != [] {
      NotDigit(m.trail[0]);
    }
  }

  /**
   * The match the scanner reports for a text: the same parts, except that
   * without a modifier all trailing white space is counted in `gap`.
   */
  function Canonical(m: ExprMatch): ExprMatch {
    var x := CanonicalTail(Tail(m.gap, m.modifier, m.trail));
    m.(gap := x.gap, modifier := x.modifier, trail := x.trail)
  }

  /** Every text the regular expression matches is found by the scanner, with the same parts up to white space. */
  lemma ScanComplete(m: ExprMatch)
    requires WellFormed(m)
    ensures ScanExpression(MatchText(m)) == Some(Canonical(m))
    ensures MatchValues(ScanExpression(MatchText(m)).value) == MatchValues(m)
  {
    var t := MatchText(m);
    var tail := m.gap + ModifierThen(m.modifier, m.trail);
    NotSpace(m.count[0]);
    SpacePrefixOf(m.lead, m.count + ([m.d] + (m.sides + tail)));
    var s1 := t[|m.lead|..];
    assert s1 == m.count + ([m.d] + (m.sides + tail));
    NotDigit(m.d);
    DigitPrefixOf(m.count, [m.d] + (m.sides + tail));
    assert s1[|m.count|] == m.d;
    var s2 := s1[|m.count| + 1..];
    assert s2 == s1[|m.count|..][1..];
    AppendParts([m.d], m.sides + tail);
    assert s2 == m.sides + tail;
    TailNotDigit(m);
    DigitPrefixOf(m.sides, tail);
    ScanTailComplete(Tail(m.gap, m.modifier, m.trail));
  }

  predicate InRange(e: DiceExpression) {
    && MIN_COUNT <= e.count <= MAX_COUNT
    && MIN_SIDES <= e.sides <= MAX_SIDES
    && -MAX_MODIFIER <= e.modifier <= MAX_MODIFIER
  }

  /** The range checks of `parseExpression`, in its order: count, then sides, then `|modifier|`. */
  function CheckRanges(e: DiceExpression): (r: Result<DiceExpression, ParseError>)
    ensures r.Ok? <==> InRange(e)
    ensures r.Ok? ==> r.value == e
  {
    if e.count < MIN_COUNT || e.count > MAX_COUNT then Err(CountOutOfRange)
    else if e.sides < MIN_SIDES || e.sides > MAX_SIDES then Err(SidesOutOfRange)
    else if e.modifier < -MAX_MODIFIER || e.modifier > MAX_MODIFIER then Err(ModifierOutOfRange)
    else Ok(e)
  }

  /** `parseExpression`. */
  function ParseExpression(expr: string): (r: Result<DiceExpression, ParseError>)
    ensures r.Ok? ==> InRange(r.value)
    ensures r.Ok? ==> exists m :: WellFormed(m) && MatchText(m) == Trim(expr) && MatchValues(m) == r.value
    ensures expr == [] ==> r == Err(EmptyExpression)
  {
    if expr == [] then Err(EmptyExpression)
    else
      match ScanExpression(Trim(expr))
      case None => Err(BadFormat)
      case Some(m) => CheckRanges(MatchValues(m))
  }

  /**
   * Whenever the trimmed expression matches the regular expression, the parse is
   * the range check of the matched numbers; so it is valid iff it matches and
   * `1 <= count <= 100`, `2 <= sides <= 1000`, `|modifier| <= 10000`.
   */
  lemma ParseComplete(expr: string, m: ExprMatch)
    requires WellFormed(m) && MatchText(m) == Trim(expr)
    ensures ParseExpression(expr) == CheckRanges(MatchValues(m))
  {
    ScanComplete(m);
    assert expr != [];
  }

  /** A trimmed expression the regular expression does not match is a format error. */
  lemma ParseRejectsNonMatching(expr: string)
    requires expr != []
    requires forall m :: WellFormed(m) ==> MatchText(m) != Trim(expr)
    ensures ParseExpression(expr) == Err(BadFormat)
  {
  }

  // ----- rolling -----

  /** The dice and total of a valid expression under a seed. */
  function RollExpression(sha256: Sha256, e: DiceExpression, actualSeed: string): (r: Result<RollResult, RollError>)
    requires InRange(e)
    ensures r.Ok? ==>
      var b := r.value.breakdown;
      && r.value.seed == actualSeed
      && |b| == e.count
      && r.value.result == Sum(b) + e.modifier
      && (forall i :: 0 <= i < |b| ==> 1 <= b[i] <= e.sides)
      && (forall i :: 0 <= i < |b| ==> FairDie(sha256, e.sides as nat, actualSeed, i) == Ok(b[i]))
    ensures r.Err? ==> r == Err(SamplingExhausted)
  {
    match Dice(sha256, e.count as nat, e.sides as nat, actualSeed)
    case Err(err) => Err(err)
    case Ok(breakdown) => Ok(RollResult(Sum(breakdown) + e.modifier, breakdown, actualSeed))
  }

  /** `roll` once the seed is chosen: an invalid expression throws, a valid one is rolled. */
  function RollWithSeed(sha256: Sha256, expr: string, actualSeed: string): (r: Result<RollResult, RollError>)
    ensures ParseExpression(expr).Err? ==> r == Err(InvalidExpression(ParseExpression(expr).error))
    ensures ParseExpression(expr).Ok? ==> r == RollExpression(sha256, ParseExpression(expr).value, actualSeed)
  {
    match ParseExpression(expr)
    case Err(reason) => Err(InvalidExpression(reason))
    case Ok(e) => RollExpression(sha256, e, actualSeed)
  }

  /** `roll`: the given seed, or a generated one when it is absent. */
  function Roll(sha256: Sha256, expr: string, seed: string, entropy: Bytes32): (r: Result<RollResult, RollError>)
    ensures r.Ok? ==> r.value.seed != [] && (seed != [] ==> r.value.seed == seed)
    ensures r.Ok? ==> r.value.seed == ActualSeed(seed, entropy)
  {
    RollWithSeed(sha256, expr, ActualSeed(seed, entropy))
  }

  /** A supplied seed fixes the roll: the entropy behind generated seeds plays no part. */
  lemma RollDeterminedBySeed(sha256: Sha256, expr: string, seed: string, entropy1: Bytes32, entropy2: Bytes32)
    requires seed != []
    ensures Roll(sha256, expr, seed, entropy1) == Roll(sha256, expr, seed, entropy2)
  {
  }

  /** `verify`: false on an invalid expression or a sampling failure, otherwise positional equality. */
  function Verify(sha256: Sha256, expr: string, seed: string, claimed: seq<int>): (valid: bool)
    ensures valid <==>
      && ParseExpression(expr).Ok?
      && Dice(sha256, ParseExpression(expr).value.count as nat, ParseExpression(expr).value.sides as nat, seed).Ok?
      && claimed == Dice(sha256, ParseExpression(expr).value.count as nat, ParseExpression(expr).value.sides as nat, seed).value
  {
    match ParseExpression(expr)
    case Err(_) => false
    case Ok(e) =>
      match Dice(sha256, e.count as nat, e.sides as nat, seed)
      case Err(_) => false
      case Ok(expected) =>
        |claimed| == |expected| && forall i :: 0 <= i < |claimed| ==> claimed[i] == expected[i]
  }

  /** What `roll` returns, `verify` accepts. */
  lemma VerifyRoundTrip(sha256: Sha256, expr: string, seed: string, entropy: Bytes32)
    requires Roll(sha256, expr, seed, entropy).Ok?
    ensures var r := Roll(sha256, expr, seed, entropy).value; Verify(sha256, expr, r.seed, r.breakdown)
  {
    VerifySeededRoundTrip(sha256, expr, ActualSeed(seed, entropy));
  }

  lemma VerifySeededRoundTrip(sha256: Sha256, expr: string, seed: string)
    requires RollWithSeed(sha256, expr, seed).Ok?
    ensures Verify(sha256, expr, seed, RollWithSeed(sha256, expr, seed).value.breakdown)
  {
  }

  /** Changing any one die of a genuine breakdown makes `verify` fail. */
  lemma VerifyRejectsTampering(sha256: Sha256, expr: string, seed: string, entropy: Bytes32, i: nat, x: int)
    requires Roll(sha256, expr, seed, entropy).Ok?
    requires i < |Roll(sha256, expr, seed, entropy).value.breakdown|
    requires x != Roll(sha256, expr, seed, entropy).value.breakdown[i]
    ensures var r := Roll(sha256, expr, seed, entropy).value;
      !Verify(sha256, expr, r.seed, r.breakdown[i := x])
  {
    var r := Roll(sha256, expr, seed, entropy).value;
    assert r.breakdown[i := x][i] != r.breakdown[i];
  }

  // ----- advantage and disadvantage -----

  datatype Mode = Advantage | Disadvantage

  function FirstLabel(mode: Mode): string {
    if mode == Advantage then "advantage_1" else "disadvantage_1"
  }

  function SecondLabel(mode: Mode): string {
    if mode == Advantage then "advantage_2" else "disadvantage_2"
  }

  /** The first of the two rolls: `roll(expr, deriveSeed(actualSeed, <label>_1))`; a derived seed is never empty, so it is used as given. */
  function FirstRoll(mode: Mode, sha256: Sha256, expr: string, seed: string, entropy: Bytes32): Result<RollResult, RollError> {
    RollWithSeed(sha256, expr, DeriveSeed(sha256, ActualSeed(seed, entropy), FirstLabel(mode)))
  }

  function SecondRoll(mode: Mode, sha256: Sha256, expr: string, seed: string, entropy: Bytes32): Result<RollResult, RollError> {
    RollWithSeed(sha256, expr, DeriveSeed(sha256, ActualSeed(seed, entropy), SecondLabel(mode)))
  }

  /** The shared body of `rollWithAdvantage` and `rollWithDisadvantage`. */
  function RollTwice(mode: Mode, sha256: Sha256, expr: string, seed: string, entropy: Bytes32): Result<RollResult, RollError> {
    var root := ActualSeed(seed, entropy);
    match FirstRoll(mode, sha256, expr, seed, entropy)
    case Err(e) => Err(e)
    case Ok(roll1) =>
      match SecondRoll(mode, sha256, expr, seed, entropy)
      case Err(e) => Err(e)
      case Ok(roll2) =>
        var useFirstRoll := if mode == Advantage then roll1.result >= roll2.result else roll1.result <= roll2.result;
        Ok(RollResult(if useFirstRoll then roll1.result else roll2.result, roll1.breakdown + roll2.breakdown, root))
  }

  /** `rollWithAdvantage`: the higher of the two totals (ties keep the first), both breakdowns, the root seed. */
  function RollWithAdvantage(sha256: Sha256, expr: string, seed: string, entropy: Bytes32): (r: Result<RollResult, RollError>)
    ensures r.Ok? <==> FirstRoll(Advantage, sha256, expr, seed, entropy).Ok? && SecondRoll(Advantage, sha256, expr, seed, entropy).Ok?
    ensures r.Ok? ==>
      var roll1 := FirstRoll(Advantage, sha256, expr, seed, entropy).value;
      var roll2 := SecondRoll(Advantage, sha256, expr, seed, entropy).value;
      && r.value.result >= roll1.result && r.value.result >= roll2.result
      && (r.value.result == roll1.result || r.value.result == roll2.result)
      && r.value.breakdown == roll1.breakdown + roll2.breakdown
      && r.value.seed == ActualSeed(seed, entropy)
  {
    RollTwice(Advantage, sha256, expr, seed, entropy)
  }

  /** `rollWithDisadvantage`: the lower of the two totals (ties keep the first), both breakdowns, the root seed. */
  function RollWithDisadvantage(sha256: Sha256, expr: string, seed: string, entropy: Bytes32): (r: Result<RollResult, RollError>)
    ensures r.Ok? <==> FirstRoll(Disadvantage, sha256, expr, seed, entropy).Ok? && SecondRoll(Disadvantage, sha256, expr, seed, entropy).Ok?
    ensures r.Ok? ==>
      var roll1 := FirstRoll(Disadvantage, sha256, expr, seed, entropy).value;
      var roll2 := SecondRoll(Disadvantage, sha256, expr, seed, entropy).value;
      && r.value.result <= roll1.result && r.value.result <= roll2.result
      && (r.value.result == roll1.result || r.value.result == roll2.result)
      && r.value.breakdown == roll1.breakdown + roll2.breakdown
      && r.value.seed == ActualSeed(seed, entropy)
  {
    RollTwice(Disadvantage, sha256, expr, seed, entropy)
  }

  /** The first roll is the one kept exactly when its total is at least (advantage) or at most (disadvantage) the second's. */
  lemma KeepsFirstRoll(mode: Mode, sha256: Sha256, expr: string, seed: string, entropy: Bytes32)
    requires RollTwice(mode, sha256, expr, seed, entropy).Ok?
    ensures var roll1 := FirstRoll(mode, sha256, expr, seed, entropy).value;
      var roll2 := SecondRoll(mode, sha256, expr, seed, entropy).value;
      var r := RollTwice(mode, sha256, expr, seed, entropy).value;
      && (mode == Advantage ==> (r.result == roll1.result <==> roll1.result >= roll2.result))
      && (mode == Disadvantage ==> (r.result == roll1.result <==> roll1.result <= roll2.result))
  {
  }

  /**
   * Anyone holding the root seed can check both halves of an advantage or
   * disadvantage breakdown against the two derived seeds.
   */
  lemma RollTwiceVerifiable(mode: Mode, sha256: Sha256, expr: string, seed: string, entropy: Bytes32)
    requires RollTwice(mode, sha256, expr, seed, entropy).Ok?
    ensures var r := RollTwice(mode, sha256, expr, seed, entropy).value;
      var n := |r.breakdown| / 2;
      && Verify(sha256, expr, DeriveSeed(sha256, r.seed, FirstLabel(mode)), r.breakdown[..n])
      && Verify(sha256, expr, DeriveSeed(sha256, r.seed, SecondLabel(mode)), r.breakdown[n..])
  {
    var r := RollTwice(mode, sha256, expr, seed, entropy).value;
    var roll1 := FirstRoll(mode, sha256, expr, seed, entropy).value;
    var roll2 := SecondRoll(mode, sha256, expr, seed, entropy).value;
    var s1 := DeriveSeed(sha256, ActualSeed(seed, entropy), FirstLabel(mode));
    var s2 := DeriveSeed(sha256, ActualSeed(seed, entropy), SecondLabel(mode));
    VerifySeededRoundTrip(sha256, expr, s1);
    VerifySeededRoundTrip(sha256, expr, s2);
    assert |roll1.breakdown| == |roll2.breakdown|;
    assert r.breakdown[..|roll1.breakdown|] == roll1.breakdown;
    assert r.breakdown[|roll1.breakdown|..] == roll2.breakdown;
  }
}
