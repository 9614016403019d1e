/**
 * The dice schemas of packages/models/src/schemas/dice.ts: `zDiceRollResult`
 * (an integer total, a non-empty breakdown of dice each at least 1, and a
 * non-empty seed) and `zDiceVerificationResult` (a verdict that carries a
 * non-empty reason whenever it is negative), and the agreement of the
 * provably fair roller's output with the first.
 */
module DiceSchemas {
  import opened Wrappers
  import opened Zod
  import Dice

  datatype DiceRollResult = DiceRollResult(result: int, breakdown: seq<int>, seed: string)

  /** Everything `zDiceRollResult` guarantees of its output. */
  predicate ValidRollResult(r: DiceRollResult) {
    && |r.breakdown| >= 1
    && (forall i :: 0 <= i < |r.breakdown| ==> r.breakdown[i] >= 1)
    && r.seed != []
  }

  function Die(j: Json): Option<int> {
    AsIntMin(j, 1)
  }

  /** `zDiceRollResult`. */
  function ParseDiceRollResult(j: Json): (r: Option<DiceRollResult>)
    ensures r.Some? ==> ValidRollResult(r.value)
  {
    if j.JObj? then
      var result := Required(j.fields, "result", AsInt);
      var breakdown := Required(j.fields, "breakdown", x => ArrayOf(x, Die));
      var seed := Required(j.fields, "seed", AsNonEmpty);
      if result.Some? && breakdown.Some? && |breakdown.value| >= 1 && seed.Some?
      then Some(DiceRollResult(result.value, breakdown.value, seed.value))
      else None
    else None
  }

  function IntJson(v: int): Json {
    JNum(v as real)
  }

  function EncodeRollResult(r: DiceRollResult): Json {
    JObj(map["result" := IntJson(r.result), "breakdown" := JArr(Encoded(r.breakdown, IntJson)), "seed" := JStr(r.seed)])
  }

  /** Every valid roll result is accepted back unchanged, so the schema accepts exactly the valid ones. */
  lemma RollResultRoundTrip(r: DiceRollResult)
    requires ValidRollResult(r)
    ensures ParseDiceRollResult(EncodeRollResult(r)) == Some(r)
  {
    forall i | 0 <= i < |r.breakdown| ensures Die(IntJson(r.breakdown[i])) == Some(r.breakdown[i]) {
      IntRoundTrip(r.breakdown[i], 1, 0);
    }
    ArrayRoundTrip(r.breakdown, IntJson, Die);
    IntRoundTrip(r.result, 0, 0);
  }

  /** An empty breakdown is rejected. */
  lemma EmptyBreakdownRejected(o: map<string, Json>)
    requires "breakdown" in o && o["breakdown"] == JArr([])
    ensures ParseDiceRollResult(JObj(o)) == None
  {
  }

  /** What `ProvablyFairDiceService.roll` reports, as the schema sees it. */
  function FromRoll(r: Dice.RollResult): DiceRollResult {
    DiceRollResult(r.result, r.breakdown, r.seed)
  }

  /** A roll of a valid expression has `count >= 1` dice, each at least 1, under the seed it was given. */
  lemma ExpressionRollValid(sha256: Dice.Sha256, e: Dice.DiceExpression, actual: string)
    requires Dice.InRange(e) && actual != []
    requires Dice.RollExpression(sha256, e, actual).Ok?
    ensures ValidRollResult(FromRoll(Dice.RollExpression(sha256, e, actual).value))
  {
  }

  /**
   * Every successful roll satisfies `zDiceRollResult`: a valid expression
   * has at least one die, every die shows at least 1, and the seed used is
   * never empty.
   */
  lemma RollSatisfiesSchema(sha256: Dice.Sha256, expr: string, seed: string, entropy: Dice.Bytes32)
    requires Dice.Roll(sha256, expr, seed, entropy).Ok?
    ensures var r := FromRoll(Dice.Roll(sha256, expr, seed, entropy).value);
      ValidRollResult(r) && ParseDiceRollResult(EncodeRollResult(r)) == Some(r)
  {
    var actual := Dice.ActualSeed(seed, entropy);
    var parsed := Dice.ParseExpression(expr);
    assert Dice.Roll(sha256, expr, seed, entropy) == Dice.RollWithSeed(sha256, expr, actual);
    assert parsed.Ok?;
    ExpressionRollValid(sha256, parsed.value, actual);
    RollResultRoundTrip(FromRoll(Dice.Roll(sha256, expr, seed, entropy).value));
  }

  datatype DiceVerificationResult = DiceVerificationResult(valid: bool, error: Option<string>)

  /** Everything `zDiceVerificationResult` guarantees of its output. */
  predicate ValidVerification(v: DiceVerificationResult) {
    && (v.valid || v.error.Some?)
    && (v.error.Some? ==> v.error.value != [])
  }

  /** `zDiceVerificationResult`: a boolean verdict, an optional non-empty reason, and a reason whenever the verdict is negative. */
  function ParseDiceVerificationResult(j: Json): (r: Option<DiceVerificationResult>)
    ensures r.Some? ==> ValidVerification(r.value)
  {
    if j.JObj? then
      var valid := Required(j.fields, "valid", AsBool);
      var error := Optional(j.fields, "error", AsNonEmpty);
      if valid.Some? && error.Some? && (valid.value || error.value.Some?)
      then Some(DiceVerificationResult(valid.value, error.value))
      else None
    else None
  }

  function EncodeVerification(v: DiceVerificationResult): Json {
    JObj(PutOptional(map["valid" := JBool(v.valid)], "error", v.error, (s: string) => JStr(s)))
  }

  /** Every valid verification result is accepted back unchanged. */
  lemma VerificationRoundTrip(v: DiceVerificationResult)
    requires ValidVerification(v)
    ensures ParseDiceVerificationResult(EncodeVerification(v)) == Some(v)
  {
  }

  /** A failed verification without a reason is rejected, whatever else the object holds. */
  lemma FailureNeedsError(o: map<string, Json>)
    requires "valid" in o && o["valid"] == JBool(false) && "error" !in o
    ensures ParseDiceVerificationResult(JObj(o)) == None
  {
  }

  /** An empty reason is rejected even beside a positive verdict. */
  lemma EmptyErrorRejected(o: map<string, Json>)
    requires "error" in o && o["error"] == JStr([])
    ensures ParseDiceVerificationResult(JObj(o)) == None
  {
  }
}
