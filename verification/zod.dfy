/**
 * The part of Zod the schema files of packages/models/src/schemas rely on,
 * over the values `JSON.parse` produces: `z.number().int()` with bounds,
 * `z.string()` with a minimum length, `z.boolean()`, `z.array`, `z.record`,
 * object properties that are required, `.optional()` or `.default(...)`, and
 * the enums of packages/models/src/schemas/core.ts.
 *
 * A schema is a function from a value to `Some(output)` when `safeParse`
 * succeeds, or `None` when it reports a `ZodError`. Objects keep only the
 * keys their schema declares (Zod strips the others); an absent key is
 * JavaScript's `undefined`.
 */
module Zod {
  import opened Wrappers
  import opened Core

  /** A parsed JSON value; numbers are kept exact. */
  datatype Json =
    | JNull
    | JBool(b: bool)
    | JNum(n: real)
    | JStr(s: string)
    | JArr(items: seq<Json>)
    | JObj(fields: map<string, Json>)

  /**
   * The string formats Zod checks with its own patterns, `z.string().uuid()`
   * (RFC 4122) and `z.string().datetime()` (ISO 8601), taken as given.
   */
  datatype Formats = Formats(isUuid: string -> bool, isDatetime: string -> bool)

  /** `Number.isInteger` on a finite number. */
  predicate IsInteger(x: real) {
    x.Floor as real == x
  }

  /** `z.number()`. */
  function AsNumber(j: Json): (r: Option<real>)
    ensures r.Some? ==> j == JNum(r.value)
  {
    if j.JNum? then Some(j.n) else None
  }

  /** `z.number().int()`: a number with no fractional part. */
  function AsInt(j: Json): (r: Option<int>)
    ensures r.Some? ==> j == JNum(r.value as real)
    ensures j.JNum? && IsInteger(j.n) ==> r.Some?
  {
    if j.JNum? && IsInteger(j.n) then Some(j.n.Floor) else None
  }

  /** `z.number().int().min(lo)`. */
  function AsIntMin(j: Json, lo: int): (r: Option<int>)
    ensures r.Some? ==> j == JNum(r.value as real) && lo <= r.value
  {
    match AsInt(j)
    case Some(v) => if lo <= v then Some(v) else None
    case None => None
  }

  /** `z.number().int().min(lo).max(hi)`. */
  function AsIntIn(j: Json, lo: int, hi: int): (r: Option<int>)
    ensures r.Some? ==> j == JNum(r.value as real) && lo <= r.value <= hi
  {
    match AsInt(j)
    case Some(v) => if lo <= v <= hi then Some(v) else None
    case None => None
  }

  /** An integer written as a JSON number reads back as itself under every integer schema. */
  lemma IntRoundTrip(v: int, lo: int, hi: int)
    ensures AsInt(JNum(v as real)) == Some(v)
    ensures lo <= v ==> AsIntMin(JNum(v as real), lo) == Some(v)
    ensures lo <= v <= hi ==> AsIntIn(JNum(v as real), lo, hi) == Some(v)
  {
  }

  /** `z.string()`. */
  function AsString(j: Json): (r: Option<string>)
    ensures r.Some? ==> j == JStr(r.value)
  {
    if j.JStr? then Some(j.s) else None
  }

  /** `z.string().min(1)`. */
  function AsNonEmpty(j: Json): (r: Option<string>)
    ensures r.Some? ==> j == JStr(r.value) && r.value != []
  {
    if j.JStr? && j.s != [] then Some(j.s) else None
  }

  /** A string passing a format check: `z.string().uuid()` or `z.string().datetime()`. */
  function AsFormatted(j: Json, format: string -> bool): (r: Option<string>)
    ensures r.Some? ==> j == JStr(r.value) && format(r.value)
  {
    if j.JStr? && format(j.s) then Some(j.s) else None
  }

  /** `z.string().uuid()` as a schema value. */
  function IdSchema(f: Formats): Json -> Option<string> {
    x => AsFormatted(x, f.isUuid)
  }

  /** `z.string().datetime()` as a schema value. */
  function DatetimeSchema(f: Formats): Json -> Option<string> {
    x => AsFormatted(x, f.isDatetime)
  }

  /** `z.number().int().min(lo)` as a schema value. */
  function IntMinSchema(lo: int): Json -> Option<int> {
    x => AsIntMin(x, lo)
  }

  /** `z.number().int().min(lo).max(hi)` as a schema value. */
  function IntInSchema(lo: int, hi: int): Json -> Option<int> {
    x => AsIntIn(x, lo, hi)
  }

  /** `z.boolean()`. */
  function AsBool(j: Json): (r: Option<bool>)
    ensures r.Some? ==> j == JBool(r.value)
  {
    if j.JBool? then Some(j.b) else None
  }

  /** `z.array(item)` over the elements: every element must pass, and the outputs keep their order. */
  function Each<T>(items: seq<Json>, item: Json -> Option<T>): (r: Option<seq<T>>)
    ensures r.Some? ==> |r.value| == |items|
    ensures r.Some? ==> forall i :: 0 <= i < |items| ==> item(items[i]) == Some(r.value[i])
  {
    if items == [] then Some([])
    else
      match Each(items[..|items| - 1], item)
      case None => None
      case Some(front) =>
        match item(items[|items| - 1])
        case None => None
        case Some(x) => Some(front + [x])
  }

  /** Every element passing makes the whole array pass, with exactly those outputs. */
  lemma {:induction false} EachAll<T>(items: seq<Json>, item: Json -> Option<T>, xs: seq<T>)
    requires |items| == |xs|
    requires forall i :: 0 <= i < |items| ==> item(items[i]) == Some(xs[i])
    ensures Each(items, item) == Some(xs)
  {
    if items != [] {
      var n := |items| - 1;
      EachAll(items[..n], item, xs[..n]);
      assert xs == xs[..n] + [xs[n]];
    }
  }

  /** One failing element fails the array. */
  lemma EachFails<T>(items: seq<Json>, item: Json -> Option<T>, i: nat)
    requires i < |items| && item(items[i]).None?
    ensures Each(items, item).None?
  {
  }

  /** `z.array(item)`. */
  function ArrayOf<T>(j: Json, item: Json -> Option<T>): (r: Option<seq<T>>)
    ensures r.Some? ==> j.JArr? && |r.value| == |j.items|
    ensures r.Some? ==> forall i :: 0 <= i < |j.items| ==> item(j.items[i]) == Some(r.value[i])
  {
    if j.JArr? then Each(j.items, item) else None
  }

  /** The elements written out one by one with `encode`. */
  function Encoded<T>(xs: seq<T>, encode: T -> Json): (js: seq<Json>)
    ensures |js| == |xs| && forall i :: 0 <= i < |xs| ==> js[i] == encode(xs[i])
  {
    seq(|xs|, i requires 0 <= i < |xs| => encode(xs[i]))
  }

  /** An array of encoded elements reads back as the elements when each does. */
  lemma ArrayRoundTrip<T>(xs: seq<T>, encode: T -> Json, item: Json -> Option<T>)
    requires forall i :: 0 <= i < |xs| ==> item(encode(xs[i])) == Some(xs[i])
    ensures ArrayOf(JArr(Encoded(xs, encode)), item) == Some(xs)
  {
    EachAll(Encoded(xs, encode), item, xs);
  }

  /** `z.record(key, value)`: every key passes `key`, every value passes `value`; the keys are kept. */
  function RecordOf<T>(j: Json, key: string -> bool, value: Json -> Option<T>): (r: Option<map<string, T>>)
    ensures r.Some? ==> j.JObj? && r.value.Keys == j.fields.Keys
    ensures r.Some? ==> forall k | k in r.value :: key(k) && value(j.fields[k]) == Some(r.value[k])
  {
    if j.JObj? && forall k | k in j.fields :: key(k) && value(j.fields[k]).Some? then
      Some(map k | k in j.fields :: value(j.fields[k]).value)
    else None
  }

  /** The values written out one by one with `encode`, under the same keys. */
  function EncodedRecord<T>(m: map<string, T>, encode: T -> Json): (o: map<string, Json>)
    ensures o.Keys == m.Keys && forall k | k in m :: o[k] == encode(m[k])
  {
    map k | k in m :: encode(m[k])
  }

  /** A record of encoded values reads back as the values when each does. */
  lemma RecordRoundTrip<T>(m: map<string, T>, encode: T -> Json, key: string -> bool, value: Json -> Option<T>)
    requires forall k | k in m :: key(k) && value(encode(m[k])) == Some(m[k])
    ensures RecordOf(JObj(EncodedRecord(m, encode)), key, value) == Some(m)
  {
    var o := EncodedRecord(m, encode);
    assert forall k | k in o :: key(k) && value(o[k]).Some?;
    var r := RecordOf(JObj(o), key, value).value;
    assert r == m;
  }

  /** A required property: `undefined` fails every schema used for one here. */
  function Required<T>(o: map<string, Json>, key: string, schema: Json -> Option<T>): (r: Option<T>)
    ensures r.Some? ==> key in o && schema(o[key]) == r
  {
    if key in o then schema(o[key]) else None
  }

  /** `schema.optional()`: an absent property is `undefined`, a present one must pass. */
  function Optional<T>(o: map<string, Json>, key: string, schema: Json -> Option<T>): (r: Option<Option<T>>)
    ensures key !in o ==> r == Some(None)
    ensures key in o && r.Some? ==> r.value.Some? && schema(o[key]) == r.value
  {
    if key !in o then Some(None)
    else
      match schema(o[key])
      case None => None
      case Some(v) => Some(Some(v))
  }

  /** `schema.default(d)`: an absent property takes `d`, a present one must pass. */
  function Default<T>(o: map<string, Json>, key: string, schema: Json -> Option<T>, d: T): (r: Option<T>)
    ensures key !in o ==> r == Some(d)
    ensures key in o ==> r == schema(o[key])
  {
    if key in o then schema(o[key]) else Some(d)
  }

  /** An optional value as a property, absent when it is `undefined`. */
  function PutOptional<T>(o: map<string, Json>, key: string, v: Option<T>, encode: T -> Json): map<string, Json> {
    match v
    case None => o - {key}
    case Some(x) => o[key := encode(x)]
  }

  // ----- the enums of packages/models/src/schemas/core.ts -----

  function AbilityName(a: Ability): string {
    match a
    case STR => "STR"
    case DEX => "DEX"
    case CON => "CON"
    case INT => "INT"
    case WIS => "WIS"
    case CHA => "CHA"
  }

  /** `zAbility` on a string. */
  function ParseAbility(s: string): (r: Option<Ability>)
    ensures r.Some? ==> AbilityName(r.value) == s
  {
    if s == "STR" then Some(STR)
    else if s == "DEX" then Some(DEX)
    else if s == "CON" then Some(CON)
    else if s == "INT" then Some(INT)
    else if s == "WIS" then Some(WIS)
    else if s == "CHA" then Some(CHA)
    else None
  }

  /** Every ability's name parses back to it. */
  lemma AbilityRoundTrip(a: Ability)
    ensures ParseAbility(AbilityName(a)) == Some(a)
  {
  }

  datatype Speaker = AI | PLAYER | SYSTEM

  function SpeakerName(s: Speaker): string {
    match s
    case AI => "AI"
    case PLAYER => "PLAYER"
    case SYSTEM => "SYSTEM"
  }

  /** `zSpeaker`. */
  function ParseSpeaker(j: Json): (r: Option<Speaker>)
    ensures r.Some? ==> j == JStr(SpeakerName(r.value))
  {
    if j == JStr("AI") then Some(AI)
    else if j == JStr("PLAYER") then Some(PLAYER)
    else if j == JStr("SYSTEM") then Some(SYSTEM)
    else None
  }

  lemma SpeakerRoundTrip(s: Speaker)
    ensures ParseSpeaker(JStr(SpeakerName(s))) == Some(s)
  {
  }

  datatype Language = En | He

  function LanguageName(l: Language): string {
    match l
    case En => "en"
    case He => "he"
  }

  /** `zLanguage`. */
  function ParseLanguage(j: Json): (r: Option<Language>)
    ensures r.Some? ==> j == JStr(LanguageName(r.value))
  {
    if j == JStr("en") then Some(En)
    else if j == JStr("he") then Some(He)
    else None
  }

  lemma LanguageRoundTrip(l: Language)
    ensures ParseLanguage(JStr(LanguageName(l))) == Some(l)
  {
  }

  datatype Rating = E | PG13 | R

  function RatingName(r: Rating): string {
    match r
    case E => "E"
    case PG13 => "PG-13"
    case R => "R"
  }

  /** `zRating`. */
  function ParseRating(j: Json): (r: Option<Rating>)
    ensures r.Some? ==> j == JStr(RatingName(r.value))
  {
    if j == JStr("E") then Some(E)
    else if j == JStr("PG-13") then Some(PG13)
    else if j == JStr("R") then Some(R)
    else None
  }

  lemma RatingRoundTrip(r: Rating)
    ensures ParseRating(JStr(RatingName(r))) == Some(r)
  {
  }

  function DamageTypeName(d: DamageType): string {
    match d
    case Bludgeoning => "bludgeoning"
    case Piercing => "piercing"
    case Slashing => "slashing"
    case Fire => "fire"
    case Cold => "cold"
    case Lightning => "lightning"
    case Thunder => "thunder"
    case Poison => "poison"
    case Acid => "acid"
    case Psychic => "psychic"
    case Necrotic => "necrotic"
    case Radiant => "radiant"
    case Force => "force"
  }

  /** `zDamageType`. */
  function ParseDamageType(j: Json): (r: Option<DamageType>)
    ensures r.Some? ==> j == JStr(DamageTypeName(r.value))
  {
    if j == JStr("bludgeoning") then Some(Bludgeoning)
    else if j == JStr("piercing") then Some(Piercing)
    else if j == JStr("slashing") then Some(Slashing)
    else if j == JStr("fire") then Some(Fire)
    else if j == JStr("cold") then Some(Cold)
    else if j == JStr("lightning") then Some(Lightning)
    else if j == JStr("thunder") then Some(Thunder)
    else if j == JStr("poison") then Some(Poison)
    else if j == JStr("acid") then Some(Acid)
    else if j == JStr("psychic") then Some(Psychic)
    else if j == JStr("necrotic") then Some(Necrotic)
    else if j == JStr("radiant") then Some(Radiant)
    else if j == JStr("force") then Some(Force)
    else None
  }

  lemma DamageTypeRoundTrip(d: DamageType)
    ensures ParseDamageType(JStr(DamageTypeName(d))) == Some(d)
  {
  }

  function ConditionName(c: Condition): string {
    match c
    case Prone => "prone"
    case Grappled => "grappled"
    case Restrained => "restrained"
    case Stunned => "stunned"
    case Unconscious => "unconscious"
    case Poisoned => "poisoned"
    case Frightened => "frightened"
    case Charmed => "charmed"
    case Blinded => "blinded"
    case Deafened => "deafened"
  }

  /** `zCondition`. */
  function ParseCondition(j: Json): (r: Option<Condition>)
    ensures r.Some? ==> j == JStr(ConditionName(r.value))
  {
    if j == JStr("prone") then Some(Prone)
    else if j == JStr("grappled") then Some(Grappled)
    else if j == JStr("restrained") then Some(Restrained)
    else if j == JStr("stunned") then Some(Stunned)
    else if j == JStr("unconscious") then Some(Unconscious)
    else if j == JStr("poisoned") then Some(Poisoned)
    else if j == JStr("frightened") then Some(Frightened)
    else if j == JStr("charmed") then Some(Charmed)
    else if j == JStr("blinded") then Some(Blinded)
    else if j == JStr("deafened") then Some(Deafened)
    else None
  }

  lemma ConditionRoundTrip(c: Condition)
    ensures ParseCondition(JStr(ConditionName(c))) == Some(c)
  {
  }
}
