/**
 * The deterministic half of the two `ExtractionService` copies
 * (`apps/api/src/modules/character-creation/extraction.service.ts` and
 * `apps/api/src/modules/state-machine/extraction.service.ts`): cutting the
 * first JSON object out of a model reply and normalising the parsed object
 * into a character update. The model reply and `JSON.parse` are parameters.
 */
module Extraction {
  import opened Wrappers
  import opened Text
  import opened Core

  /** A value read from parsed JSON, as far as the normaliser can tell them apart. */
  datatype RawValue =
    | Absent                                  // `undefined`: the key is not there
    | Num(n: int)                             // an integral JSON number
    | Str(s: string)
    | Bool(b: bool)
    | Obj(fields: map<string, RawValue>)
    | Other(rendering: string)                // `null` or an array, with its `String(v)` text

  type JsonObject = map<string, RawValue>

  function Get(o: JsonObject, key: string): RawValue {
    if key in o then o[key] else Absent
  }

  /** The partial character an extraction yields: only understood keys are present. */
  datatype Update = Update(
    name: Option<string>,
    race: Option<string>,
    characterClass: Option<string>,
    backstory: Option<string>,
    level: Option<int>,
    ac: Option<int>,
    maxHP: Option<int>,
    hp: Option<int>,
    abilities: Option<Scores>)

  const EMPTY_UPDATE := Update(None, None, None, None, None, None, None, None, None)

  // ----- the first JSON object of a reply -----

  /** `text.indexOf(c)`. */
  function IndexOf(text: string, c: char): (r: Option<nat>)
    ensures r.None? <==> c !in text
    ensures r.Some? ==> r.value < |text| && text[r.value] == c && c !in text[..r.value]
  {
    if text == [] then None
    else if text[0] == c then Some(0)
    else
      match IndexOf(text[1..], c)
      case None => None
      case Some(i) =>
        assert text[..i + 1] == [text[0]] + text[1..][..i];
        Some(i + 1)
  }

  /** `text.lastIndexOf(c)`. */
  function LastIndexOf(text: string, c: char): (r: Option<nat>)
    ensures r.None? <==> c !in text
    ensures r.Some? ==> r.value < |text| && text[r.value] == c && c !in text[r.value + 1..]
  {
    if text == [] then None
    else if text[|text| - 1] == c then Some(|text| - 1)
    else
      var init := text[..|text| - 1];
      match LastIndexOf(init, c)
      case None =>
        assert text == init + [text[|text| - 1]];
        None
      case Some(i) =>
        assert text[i + 1..] == init[i + 1..] + [text[|text| - 1]];
        Some(i)
  }

  /**
   * `firstJsonObject`: from the first '{' to the last '}' inclusive; nothing
   * when either is missing or the last '}' comes before the first '{'.
   */
  function FirstJsonObject(text: string): (r: Option<string>)
    ensures r.None? <==>
      '{' !in text || '}' !in text || LastIndexOf(text, '}').value <= IndexOf(text, '{').value
    ensures r.Some? ==>
      var start := IndexOf(text, '{').value;
      var end := LastIndexOf(text, '}').value;
      && start < end && r.value == text[start..end + 1]
      && r.value[0] == '{' && r.value[|r.value| - 1] == '}'
      && '{' !in text[..start] && '}' !in text[end + 1..]
  {
    match (IndexOf(text, '{'), LastIndexOf(text, '}'))
    case (Some(start), Some(end)) =>
      if end <= start then None else Some(text[start..end + 1])
    case _ => None
  }

  /** A reply that is exactly one braced text gives that text back. */
  lemma FirstJsonObjectOfBraced(body: string)
    requires '{' !in body && '}' !in body
    ensures FirstJsonObject("{" + body + "}") == Some("{" + body + "}")
  {
    var t := "{" + body + "}";
    assert t[0] == '{' && t[|t| - 1] == '}';
    assert IndexOf(t, '{') == Some(0);
    assert LastIndexOf(t, '}') == Some(|t| - 1);
    assert t[0..|t|] == t;
  }

  // ----- normalisation -----

  /**
   * `asInt`: a number as it is (floats are not modelled); anything else
   * through `parseInt(String(v), 10)`. `undefined`, booleans and objects
   * print as text `parseInt` cannot read.
   */
  function AsInt(v: RawValue): (r: Option<int>)
    ensures v.Num? ==> r == Some(v.n)
    ensures v.Absent? || v.Bool? || v.Obj? ==> r.None?
  {
    match v
    case Num(n) => Some(n)
    case Str(s) => ParseInt(s)
    case Other(rendering) => ParseInt(rendering)
    case _ => None
  }

  /** A string field is kept, trimmed, when it is a string that is not blank. */
  function TextField(v: RawValue): (r: Option<string>)
    ensures r.Some? <==> v.Str? && Trim(v.s) != []
    ensures r.Some? ==> r.value == Trim(v.s) && Trim(r.value) == r.value
  {
    if v.Str? && Trim(v.s) != [] then
      TrimTight(Trim(v.s));
      Some(Trim(v.s))
    else None
  }

  /** A numeric field is kept, clamped to `[lo, hi]`, when `asInt` reads it. */
  function NumberField(v: RawValue, lo: int, hi: int): (r: Option<int>)
    requires lo <= hi
    ensures r.Some? <==> AsInt(v).Some?
    ensures r.Some? ==> lo <= r.value <= hi
    ensures r.Some? && lo <= AsInt(v).value <= hi ==> r.value == AsInt(v).value
  {
    match AsInt(v)
    case None => None
    case Some(n) => Some(Clamp(Some(n), lo, hi))
  }

  function AbilityKey(a: Ability): string {
    match a
    case STR => "STR"
    case DEX => "DEX"
    case CON => "CON"
    case INT => "INT"
    case WIS => "WIS"
    case CHA => "CHA"
  }

  /** The scores of the abilities in `keys` that `asInt` reads, each clamped to [1, 30]. */
  function ReadScores(o: JsonObject, keys: seq<Ability>): (m: Scores)
    ensures forall a :: a in m <==> a in keys && AsInt(Get(o, AbilityKey(a))).Some?
    ensures forall a :: a in m ==> m[a] == Clamp(AsInt(Get(o, AbilityKey(a))), 1, 30)
  {
    if keys == [] then map[]
    else
      var i := |keys| - 1;
      var a := keys[i];
      assert keys == keys[..i] + [a];
      var m := ReadScores(o, keys[..i]);
      match AsInt(Get(o, AbilityKey(a)))
      case None => m
      case Some(n) => m[a := Clamp(Some(n), 1, 30)]
  }

  /** The abilities field: kept only when it is an object and all six scores are read. */
  function AbilitiesField(v: RawValue): (r: Option<Scores>)
    ensures r.Some? <==> v.Obj? && forall a: Ability :: AsInt(Get(v.fields, AbilityKey(a))).Some?
    ensures r.Some? ==> FullScores(r.value) && forall a :: 1 <= r.value[a] <= 30
  {
    if v.Obj? then
      var m := ReadScores(v.fields, ABILITY_ORDER);
      forall a: Ability ensures a in ABILITY_ORDER {
        assert ABILITY_ORDER[AbilityIndex(a)] == a;
      }
      if forall a: Ability :: a in m then Some(m) else None
    else None
  }

  /** The abilities loop of `normalizeUpdate`: read each key in order, then keep the record only when complete. */
  method NormalizeAbilities(v: RawValue) returns (r: Option<Scores>)
    ensures r == AbilitiesField(v)
  {
    r := None;
    if v.Obj? {
      var normalized: Scores := map[];
      for i := 0 to |ABILITY_ORDER|
        invariant normalized == ReadScores(v.fields, ABILITY_ORDER[..i])
      {
        var key := ABILITY_ORDER[i];
        assert ABILITY_ORDER[..i + 1] == ABILITY_ORDER[..i] + [key];
        var val := AsInt(Get(v.fields, AbilityKey(key)));
        if val.Some? {
          normalized := normalized[key := Clamp(val, 1, 30)];
        }
      }
      assert ABILITY_ORDER[..|ABILITY_ORDER|] == ABILITY_ORDER;
      if forall a: Ability :: a in normalized {
        r := Some(normalized);
      }
    }
  }

  /**
   * `normalizeUpdate`: every key kept only when understood, numbers clamped,
   * then `hp` lowered to `maxHP` when both are present.
   */
  function Normalized(raw: JsonObject): Update {
    var u := Update(
      TextField(Get(raw, "name")), TextField(Get(raw, "race")),
      TextField(Get(raw, "class")), TextField(Get(raw, "backstory")),
      NumberField(Get(raw, "level"), 1, 20), NumberField(Get(raw, "ac"), 5, 99),
      NumberField(Get(raw, "maxHP"), 1, 999), NumberField(Get(raw, "hp"), 1, 999),
      AbilitiesField(Get(raw, "abilities")));
    if u.hp.Some? && u.maxHP.Some? then u.(hp := Some(Min(u.hp.value, u.maxHP.value))) else u
  }

  /** `normalizeUpdate` as written: the update is built key by key, the abilities in a loop. */
  method NormalizeUpdate(raw: JsonObject) returns (update: Update)
    ensures update == Normalized(raw)
  {
    update := EMPTY_UPDATE;
    update := update.(name := TextField(Get(raw, "name")));
    update := update.(race := TextField(Get(raw, "race")));
    update := update.(characterClass := TextField(Get(raw, "class")));
    update := update.(backstory := TextField(Get(raw, "backstory")));
    var lvl := AsInt(Get(raw, "level"));
    if lvl.Some? { update := update.(level := Some(Clamp(lvl, 1, 20))); }
    var ac := AsInt(Get(raw, "ac"));
    if ac.Some? { update := update.(ac := Some(Clamp(ac, 5, 99))); }
    var maxHP := AsInt(Get(raw, "maxHP"));
    if maxHP.Some? { update := update.(maxHP := Some(Clamp(maxHP, 1, 999))); }
    var hp := AsInt(Get(raw, "hp"));
    if hp.Some? { update := update.(hp := Some(Clamp(hp, 1, 999))); }
    var abilities := NormalizeAbilities(Get(raw, "abilities"));
    if abilities.Some? {
      update := update.(abilities := abilities);
    }
    if update.hp.Some? && update.maxHP.Some? {
      update := update.(hp := Some(Min(update.hp.value, update.maxHP.value)));
    }
  }

  /** Every present number lies in its range, the abilities are complete, and `hp <= maxHP`. */
  lemma NormalizedRanges(raw: JsonObject)
    ensures var u := Normalized(raw);
      && (u.level.Some? ==> 1 <= u.level.value <= 20)
      && (u.ac.Some? ==> 5 <= u.ac.value <= 99)
      && (u.maxHP.Some? ==> 1 <= u.maxHP.value <= 999)
      && (u.hp.Some? ==> 1 <= u.hp.value <= 999)
      && (u.hp.Some? && u.maxHP.Some? ==> u.hp.value <= u.maxHP.value)
      && (u.abilities.Some? ==> FullScores(u.abilities.value) && forall a :: 1 <= u.abilities.value[a] <= 30)
  {
  }

  /** A string key is present exactly when it is a string that is not blank, and it is kept trimmed. */
  lemma NormalizedTextPresence(raw: JsonObject)
    ensures var u := Normalized(raw);
      && (u.name.Some? <==> Get(raw, "name").Str? && Trim(Get(raw, "name").s) != [])
      && (u.name.Some? ==> u.name.value == Trim(Get(raw, "name").s))
      && (u.race.Some? <==> Get(raw, "race").Str? && Trim(Get(raw, "race").s) != [])
      && (u.characterClass.Some? <==> Get(raw, "class").Str? && Trim(Get(raw, "class").s) != [])
      && (u.backstory.Some? <==> Get(raw, "backstory").Str? && Trim(Get(raw, "backstory").s) != [])
  {
    var u := Normalized(raw);
    assert u.name == TextField(Get(raw, "name")) && u.race == TextField(Get(raw, "race"));
    assert u.characterClass == TextField(Get(raw, "class"));
    assert u.backstory == TextField(Get(raw, "backstory"));
  }

  /** `n` holds a number in [lo, hi]. */
  predicate InRange(n: Option<int>, lo: int, hi: int) {
    n.Some? && lo <= n.value <= hi
  }

  /**
   * A number is present exactly when `asInt` reads it, the abilities exactly
   * when they are an object whose six keys all read; in-range numbers other
   * than `hp` are kept as they are.
   */
  lemma NormalizedNumberPresence(raw: JsonObject)
    ensures var u := Normalized(raw);
      && (u.level.Some? <==> AsInt(Get(raw, "level")).Some?)
      && (u.ac.Some? <==> AsInt(Get(raw, "ac")).Some?)
      && (u.maxHP.Some? <==> AsInt(Get(raw, "maxHP")).Some?)
      && (u.hp.Some? <==> AsInt(Get(raw, "hp")).Some?)
      && (u.abilities.Some? <==>
            Get(raw, "abilities").Obj? &&
            forall a: Ability :: AsInt(Get(Get(raw, "abilities").fields, AbilityKey(a))).Some?)
    ensures var u := Normalized(raw);
      && (InRange(AsInt(Get(raw, "level")), 1, 20) ==> u.level == AsInt(Get(raw, "level")))
      && (InRange(AsInt(Get(raw, "ac")), 5, 99) ==> u.ac == AsInt(Get(raw, "ac")))
      && (InRange(AsInt(Get(raw, "maxHP")), 1, 999) ==> u.maxHP == AsInt(Get(raw, "maxHP")))
  {
    var u := Normalized(raw);
    assert u.level == NumberField(Get(raw, "level"), 1, 20);
    assert u.ac == NumberField(Get(raw, "ac"), 5, 99);
    assert u.maxHP == NumberField(Get(raw, "maxHP"), 1, 999);
    assert u.hp.Some? <==> NumberField(Get(raw, "hp"), 1, 999).Some?;
    assert u.abilities == AbilitiesField(Get(raw, "abilities"));
  }

  /** The worked examples: 99, 1, 2000 and -5 become 20, 5, 999 and 1; hp 30 with maxHP 24 becomes 24. */
  lemma NormalizedExamples()
    ensures Normalized(map["level" := Num(99)]).level == Some(20)
    ensures Normalized(map["ac" := Num(1)]).ac == Some(5)
    ensures Normalized(map["maxHP" := Num(2000)]).maxHP == Some(999)
    ensures Normalized(map["hp" := Num(-5)]).hp == Some(1)
    ensures Normalized(map["hp" := Num(30), "maxHP" := Num(24)]).hp == Some(24)
  {
  }

  // ----- what a reply becomes -----

  /**
   * `extractCharacterUpdate` (and `suggestCharacterValues`) after the model
   * replied: no JSON object or a failing `JSON.parse` (`parse` returns
   * `None`) gives the empty update.
   */
  function UpdateFromReply(reply: string, parse: string -> Option<JsonObject>): (u: Update)
    ensures FirstJsonObject(reply).None? ==> u == EMPTY_UPDATE
    ensures FirstJsonObject(reply).Some? && parse(FirstJsonObject(reply).value).None? ==> u == EMPTY_UPDATE
    ensures FirstJsonObject(reply).Some? && parse(FirstJsonObject(reply).value).Some? ==>
      u == Normalized(parse(FirstJsonObject(reply).value).value)
  {
    match FirstJsonObject(reply)
    case None => EMPTY_UPDATE
    case Some(json) =>
      match parse(json)
      case None => EMPTY_UPDATE
      case Some(raw) => Normalized(raw)
  }

  /**
   * `detectDelegation` after the model replied: true only when the first
   * JSON object parses and its `delegated` is exactly `true`.
   */
  function DelegationFromReply(reply: string, parse: string -> Option<JsonObject>): (b: bool)
    ensures b <==>
      FirstJsonObject(reply).Some? && parse(FirstJsonObject(reply).value).Some? &&
      Get(parse(FirstJsonObject(reply).value).value, "delegated") == Bool(true)
  {
    match FirstJsonObject(reply)
    case None => false
    case Some(json) =>
      match parse(json)
      case None => false
      case Some(raw) => Get(raw, "delegated") == Bool(true)
  }
}
