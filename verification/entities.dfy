/**
 * The entity schemas of packages/models/src/schemas/entities.ts: `zStatBlock`
 * (armour class, hit points, the six ability scores, proficiency bonus and
 * damage affinities, with current hit points at most the maximum) and
 * `zCreature` (the same properties on one object, plus identity, kind, name,
 * inventory and conditions, under the same refinement).
 */
module Entities {
  import opened Wrappers
  import opened Core
  import opened Zod

  // ----- the ability record -----

  /** The keys `zAbility` accepts. */
  const ABILITY_KEYS: set<string> := {"STR", "DEX", "CON", "INT", "WIS", "CHA"}

  lemma {:induction false} SubsetCard<T>(a: set<T>, b: set<T>)
    requires a <= b
    ensures |a| <= |b|
    decreases a
  {
    if a != {} {
      var x :| x in a;
      SubsetCard(a - {x}, b - {x});
    }
  }

  /** Six keys, each the name of an ability, are the names of all six abilities. */
  lemma SixKeys(keys: set<string>)
    requires keys <= ABILITY_KEYS && |keys| == 6
    ensures keys == ABILITY_KEYS
  {
    if keys != ABILITY_KEYS {
      assert exists n :: n in ABILITY_KEYS && n !in keys;
      var n :| n in ABILITY_KEYS && n !in keys;
      SubsetCard(keys, ABILITY_KEYS - {n});
    }
  }

  lemma NameIsKey(a: Ability)
    ensures AbilityName(a) in ABILITY_KEYS
  {
  }

  /** Each key of the record is an ability and each value an integer in [1, 30]. */
  predicate AbilityEntries(o: map<string, Json>) {
    forall k | k in o :: k in ABILITY_KEYS && AsIntIn(o[k], 1, 30).Some?
  }

  /** The integer a JSON number stands for. */
  function IntOf(j: Json): int {
    if j.JNum? then j.n.Floor else 0
  }

  /**
   * `z.record(zAbility, z.number().int().min(1).max(30))` refined to six keys:
   * the record holds exactly the six abilities, each scored in [1, 30].
   */
  function ParseAbilities(j: Json): (r: Option<Scores>)
    ensures r.Some? ==> j.JObj? && j.fields.Keys == ABILITY_KEYS
    ensures r.Some? ==> ValidScores(r.value)
    ensures r.Some? ==> forall a :: j.fields[AbilityName(a)] == JNum(r.value[a] as real)
  {
    if j.JObj? && AbilityEntries(j.fields) && |j.fields| == 6 then
      var o := j.fields;
      assert |o.Keys| == 6;
      SixKeys(o.Keys);
      var m := map a: Ability :: IntOf(o[AbilityName(a)]);
      assert forall a :: o[AbilityName(a)] == JNum(m[a] as real) && 1 <= m[a] <= 30 by {
        forall a ensures o[AbilityName(a)] == JNum(m[a] as real) && 1 <= m[a] <= 30 {
          NameIsKey(a);
          assert AsIntIn(o[AbilityName(a)], 1, 30).Some?;
        }
      }
      Some(m)
    else None
  }

  /** The score of `a`, or 0 when the table lacks it. */
  function ScoreOf(m: Scores, a: Ability): int {
    if a in m then m[a] else 0
  }

  /** The record of a score table, keyed by ability name. */
  function EncodeAbilities(m: Scores): map<string, Json> {
    map[
      "STR" := JNum(ScoreOf(m, STR) as real), "DEX" := JNum(ScoreOf(m, DEX) as real),
      "CON" := JNum(ScoreOf(m, CON) as real), "INT" := JNum(ScoreOf(m, INT) as real),
      "WIS" := JNum(ScoreOf(m, WIS) as real), "CHA" := JNum(ScoreOf(m, CHA) as real)]
  }

  /** The encoded record holds each ability's score under its name. */
  lemma EncodeAt(m: Scores, a: Ability)
    ensures AbilityName(a) in EncodeAbilities(m)
    ensures EncodeAbilities(m)[AbilityName(a)] == JNum(ScoreOf(m, a) as real)
  {
    match a
    case STR =>
    case DEX =>
    case CON =>
    case INT =>
    case WIS =>
    case CHA =>
  }

  predicate ValidScores(m: Scores) {
    FullScores(m) && forall a :: 1 <= m[a] <= 30
  }

  /** A full table of scores in [1, 30] is accepted back unchanged. */
  lemma AbilitiesRoundTrip(m: Scores)
    requires ValidScores(m)
    ensures ParseAbilities(JObj(EncodeAbilities(m))) == Some(m)
  {
    var o := EncodeAbilities(m);
    assert o.Keys == ABILITY_KEYS;
    assert |o| == 6;
    IntRoundTrip(m[STR], 1, 30);
    IntRoundTrip(m[DEX], 1, 30);
    IntRoundTrip(m[CON], 1, 30);
    IntRoundTrip(m[INT], 1, 30);
    IntRoundTrip(m[WIS], 1, 30);
    IntRoundTrip(m[CHA], 1, 30);
    assert AbilityEntries(o);
    var r := ParseAbilities(JObj(o)).value;
    forall a ensures r[a] == m[a] {
      EncodeAt(m, a);
      IntRoundTrip(m[a], 1, 30);
    }
    assert r.Keys == m.Keys;
    assert r == m;
  }

  // ----- zStatBlock -----

  datatype StatBlock = StatBlock(
    ac: int, maxHP: int, hp: int, abilities: Scores, profBonus: Option<int>,
    resist: seq<DamageType>, vuln: seq<DamageType>, immune: seq<DamageType>)

  /** Everything `zStatBlock` guarantees of its output. */
  predicate ValidStatBlock(s: StatBlock) {
    && 5 <= s.ac <= 35
    && 1 <= s.maxHP
    && 0 <= s.hp <= s.maxHP
    && ValidScores(s.abilities)
  }

  function DamageTypes(j: Json): Option<seq<DamageType>> {
    ArrayOf(j, ParseDamageType)
  }

  /** The properties of `zStatBlock` read from an object, before the hit point refinement. */
  function StatFields(o: map<string, Json>): (r: Option<StatBlock>)
    ensures r.Some? ==> "hp" in o && o["hp"] == JNum(r.value.hp as real)
    ensures r.Some? ==> "maxHP" in o && o["maxHP"] == JNum(r.value.maxHP as real)
    ensures r.Some? ==> 5 <= r.value.ac <= 35 && 1 <= r.value.maxHP && 0 <= r.value.hp
    ensures r.Some? ==> ValidScores(r.value.abilities)
    ensures r.Some? && "resist" !in o ==> r.value.resist == []
    ensures r.Some? && "vuln" !in o ==> r.value.vuln == []
    ensures r.Some? && "immune" !in o ==> r.value.immune == []
  {
    var ac := Required(o, "ac", IntInSchema(5, 35));
    var maxHP := Required(o, "maxHP", IntMinSchema(1));
    var hp := Required(o, "hp", IntMinSchema(0));
    var abilities := Required(o, "abilities", ParseAbilities);
    var profBonus := Optional(o, "profBonus", AsInt);
    var resist := Default(o, "resist", DamageTypes, []);
    var vuln := Default(o, "vuln", DamageTypes, []);
    var immune := Default(o, "immune", DamageTypes, []);
    if && ac.Some? && maxHP.Some? && hp.Some? && abilities.Some? && profBonus.Some?
       && resist.Some? && vuln.Some? && immune.Some?
    then Some(StatBlock(ac.value, maxHP.value, hp.value, abilities.value, profBonus.value,
                        resist.value, vuln.value, immune.value))
    else None
  }

  /** `zStatBlock`: the properties, then current hit points at most the maximum. */
  function ParseStatBlock(j: Json): (r: Option<StatBlock>)
    ensures r.Some? ==> ValidStatBlock(r.value)
  {
    if j.JObj? then
      match StatFields(j.fields)
      case None => None
      case Some(s) => if s.hp <= s.maxHP then Some(s) else None
    else None
  }

  function DamageTypesJson(ds: seq<DamageType>): Json {
    JArr(Encoded(ds, d => JStr(DamageTypeName(d))))
  }

  /** The object holding a stat block's properties. */
  function EncodeStats(s: StatBlock): map<string, Json> {
    var o := map[
      "ac" := JNum(s.ac as real), "maxHP" := JNum(s.maxHP as real), "hp" := JNum(s.hp as real),
      "abilities" := JObj(EncodeAbilities(s.abilities)),
      "resist" := DamageTypesJson(s.resist), "vuln" := DamageTypesJson(s.vuln),
      "immune" := DamageTypesJson(s.immune)];
    PutOptional(o, "profBonus", s.profBonus, (b: int) => JNum(b as real))
  }

  lemma DamageTypesRoundTrip(ds: seq<DamageType>)
    ensures DamageTypes(DamageTypesJson(ds)) == Some(ds)
  {
    forall i | 0 <= i < |ds| ensures ParseDamageType(JStr(DamageTypeName(ds[i]))) == Some(ds[i]) {
      DamageTypeRoundTrip(ds[i]);
    }
    ArrayRoundTrip(ds, d => JStr(DamageTypeName(d)), ParseDamageType);
  }

  /** `o` holds the properties of `s` as `EncodeStats` writes them. */
  predicate HoldsStats(o: map<string, Json>, s: StatBlock) {
    && "ac" in o && o["ac"] == JNum(s.ac as real)
    && "maxHP" in o && o["maxHP"] == JNum(s.maxHP as real)
    && "hp" in o && o["hp"] == JNum(s.hp as real)
    && "abilities" in o && o["abilities"] == JObj(EncodeAbilities(s.abilities))
    && "resist" in o && o["resist"] == DamageTypesJson(s.resist)
    && "vuln" in o && o["vuln"] == DamageTypesJson(s.vuln)
    && "immune" in o && o["immune"] == DamageTypesJson(s.immune)
    && (match s.profBonus
        case None => "profBonus" !in o
        case Some(b) => "profBonus" in o && o["profBonus"] == JNum(b as real))
  }

  lemma EncodeHoldsStats(s: StatBlock)
    ensures HoldsStats(EncodeStats(s), s)
  {
  }

  /** The stat-block properties of an object read back from their encoding. */
  lemma StatFieldsRoundTrip(s: StatBlock, o: map<string, Json>)
    requires 5 <= s.ac <= 35 && 1 <= s.maxHP && 0 <= s.hp && ValidScores(s.abilities)
    requires HoldsStats(o, s)
    ensures StatFields(o) == Some(s)
  {
    IntRoundTrip(s.ac, 5, 35);
    IntRoundTrip(s.maxHP, 1, 0);
    IntRoundTrip(s.hp, 0, 0);
    AbilitiesRoundTrip(s.abilities);
    DamageTypesRoundTrip(s.resist);
    DamageTypesRoundTrip(s.vuln);
    DamageTypesRoundTrip(s.immune);
    if s.profBonus.Some? {
      IntRoundTrip(s.profBonus.value, 0, 0);
    }
  }

  /** Every valid stat block is accepted back unchanged, so `zStatBlock` accepts exactly the valid ones. */
  lemma StatBlockRoundTrip(s: StatBlock)
    requires ValidStatBlock(s)
    ensures ParseStatBlock(JObj(EncodeStats(s))) == Some(s)
  {
    EncodeHoldsStats(s);
    StatFieldsRoundTrip(s, EncodeStats(s));
  }

  /** An object with more hit points than its maximum is rejected. */
  lemma StatBlockRejectsExcessHp(o: map<string, Json>, hp: int, maxHP: int)
    requires "hp" in o && o["hp"] == JNum(hp as real)
    requires "maxHP" in o && o["maxHP"] == JNum(maxHP as real)
    requires hp > maxHP
    ensures ParseStatBlock(JObj(o)) == None
  {
  }

  /** Absent damage affinities default to empty lists. */
  lemma StatBlockDefaults(o: map<string, Json>)
    requires "resist" !in o && "vuln" !in o && "immune" !in o
    requires ParseStatBlock(JObj(o)).Some?
    ensures var s := ParseStatBlock(JObj(o)).value; s.resist == [] && s.vuln == [] && s.immune == []
  {
  }

  // ----- zCreature -----

  /** `zCreatureKind`. */
  function CreatureKindName(k: CreatureKind): string {
    match k
    case Character => "character"
    case Npc => "npc"
    case Monster => "monster"
  }

  function ParseCreatureKind(j: Json): (r: Option<CreatureKind>)
    ensures r.Some? ==> j == JStr(CreatureKindName(r.value))
  {
    if j == JStr("character") then Some(Character)
    else if j == JStr("npc") then Some(Npc)
    else if j == JStr("monster") then Some(Monster)
    else None
  }

  datatype InventoryItem = InventoryItem(name: string, qty: Option<int>)

  /** An inventory entry: a name and an optional positive integer quantity. */
  function ParseItem(j: Json): (r: Option<InventoryItem>)
    ensures r.Some? ==> r.value.qty.Some? ==> r.value.qty.value >= 1
  {
    if j.JObj? then
      var name := Required(j.fields, "name", AsString);
      var qty := Optional(j.fields, "qty", IntMinSchema(1));
      if name.Some? && qty.Some? then Some(InventoryItem(name.value, qty.value)) else None
    else None
  }

  function EncodeItem(item: InventoryItem): Json {
    JObj(PutOptional(map["name" := JStr(item.name)], "qty", item.qty, (q: int) => JNum(q as real)))
  }

  lemma ItemRoundTrip(item: InventoryItem)
    requires item.qty.Some? ==> item.qty.value >= 1
    ensures ParseItem(EncodeItem(item)) == Some(item)
  {
    if item.qty.Some? {
      IntRoundTrip(item.qty.value, 1, 0);
    }
  }

  datatype Creature = Creature(
    stats: StatBlock, id: string, kind: CreatureKind, name: string,
    inventory: seq<InventoryItem>, conditions: seq<Condition>)

  /** Everything `zCreature` guarantees of its output. */
  predicate ValidCreature(f: Formats, c: Creature) {
    && ValidStatBlock(c.stats)
    && f.isUuid(c.id)
    && c.name != []
    && QuantitiesPositive(c.inventory)
  }

  /** Every quantity given is at least 1. */
  predicate QuantitiesPositive(items: seq<InventoryItem>) {
    forall i :: 0 <= i < |items| ==> items[i].qty.Some? ==> items[i].qty.value >= 1
  }

  function Items(j: Json): Option<seq<InventoryItem>> {
    ArrayOf(j, ParseItem)
  }

  function Conditions(j: Json): Option<seq<Condition>> {
    ArrayOf(j, ParseCondition)
  }

  /** The creature's own properties read from an object, around the stat block `stats`. */
  function OwnFields(f: Formats, o: map<string, Json>, stats: StatBlock): (r: Option<Creature>)
    ensures r.Some? ==> r.value.stats == stats && f.isUuid(r.value.id) && r.value.name != []
    ensures r.Some? ==> QuantitiesPositive(r.value.inventory)
    ensures r.Some? && "inventory" !in o ==> r.value.inventory == []
    ensures r.Some? && "conditions" !in o ==> r.value.conditions == []
  {
    var id := Required(o, "id", IdSchema(f));
    var kind := Required(o, "kind", ParseCreatureKind);
    var name := Required(o, "name", AsNonEmpty);
    var inventory := Default(o, "inventory", Items, []);
    var conditions := Default(o, "conditions", Conditions, []);
    if id.Some? && kind.Some? && name.Some? && inventory.Some? && conditions.Some?
    then Some(Creature(stats, id.value, kind.value, name.value, inventory.value, conditions.value))
    else None
  }

  /** `zCreature`: the stat-block properties and the creature's own, then hit points at most the maximum. */
  function ParseCreature(f: Formats, j: Json): (r: Option<Creature>)
    ensures r.Some? ==> ValidCreature(f, r.value)
    ensures r.Some? && j.JObj? && "inventory" !in j.fields ==> r.value.inventory == []
    ensures r.Some? && j.JObj? && "conditions" !in j.fields ==> r.value.conditions == []
  {
    if j.JObj? then
      match StatFields(j.fields)
      case None => None
      case Some(stats) =>
        match OwnFields(f, j.fields, stats)
        case None => None
        case Some(c) => if stats.hp <= stats.maxHP then Some(c) else None
    else None
  }

  /** The creature's own properties, without the stat block's. */
  function CreatureFields(c: Creature): map<string, Json> {
    map[
      "id" := JStr(c.id), "kind" := JStr(CreatureKindName(c.kind)), "name" := JStr(c.name),
      "inventory" := JArr(Encoded(c.inventory, EncodeItem)),
      "conditions" := JArr(Encoded(c.conditions, ConditionJson))]
  }

  /** A creature as one flat object, as `zCreature` reads it. */
  function EncodeCreature(c: Creature): Json {
    JObj(EncodeStats(c.stats) + CreatureFields(c))
  }

  /** `o` holds the creature's own properties as `CreatureFields` writes them. */
  predicate HoldsOwn(o: map<string, Json>, c: Creature) {
    && "id" in o && o["id"] == JStr(c.id)
    && "kind" in o && o["kind"] == JStr(CreatureKindName(c.kind))
    && "name" in o && o["name"] == JStr(c.name)
    && "inventory" in o && o["inventory"] == JArr(Encoded(c.inventory, EncodeItem))
    && "conditions" in o && o["conditions"] == JArr(Encoded(c.conditions, ConditionJson))
  }

  /** The properties `zStatBlock` declares. */
  const STAT_KEYS: set<string> := {"ac", "maxHP", "hp", "abilities", "profBonus", "resist", "vuln", "immune"}

  /** Properties outside the stat block's do not disturb it. */
  lemma HoldsStatsUnion(o: map<string, Json>, p: map<string, Json>, s: StatBlock)
    requires HoldsStats(o, s) && p.Keys !! STAT_KEYS
    ensures HoldsStats(o + p, s)
  {
  }

  lemma CreatureHoldsStats(c: Creature)
    ensures HoldsStats(EncodeStats(c.stats) + CreatureFields(c), c.stats)
  {
    EncodeHoldsStats(c.stats);
    CreatureKeys(c);
    HoldsStatsUnion(EncodeStats(c.stats), CreatureFields(c), c.stats);
  }

  lemma CreatureKeys(c: Creature)
    ensures CreatureFields(c).Keys !! STAT_KEYS
  {
    assert CreatureFields(c).Keys == {"id", "kind", "name", "inventory", "conditions"};
  }

  lemma CreatureHoldsOwn(c: Creature)
    ensures HoldsOwn(EncodeStats(c.stats) + CreatureFields(c), c)
  {
  }

  lemma ItemsRoundTrip(items: seq<InventoryItem>)
    requires QuantitiesPositive(items)
    ensures Items(JArr(Encoded(items, EncodeItem))) == Some(items)
  {
    forall i | 0 <= i < |items| ensures ParseItem(EncodeItem(items[i])) == Some(items[i]) {
      ItemRoundTrip(items[i]);
    }
    ArrayRoundTrip(items, EncodeItem, ParseItem);
  }

  function ConditionJson(c: Condition): Json {
    JStr(ConditionName(c))
  }

  lemma ConditionsRoundTrip(cs: seq<Condition>)
    ensures Conditions(JArr(Encoded(cs, ConditionJson))) == Some(cs)
  {
    forall i | 0 <= i < |cs| ensures ParseCondition(ConditionJson(cs[i])) == Some(cs[i]) {
      ConditionRoundTrip(cs[i]);
    }
    ArrayRoundTrip(cs, ConditionJson, ParseCondition);
  }

  lemma OwnFieldsRoundTrip(f: Formats, c: Creature, o: map<string, Json>)
    requires f.isUuid(c.id) && c.name != [] && QuantitiesPositive(c.inventory) && HoldsOwn(o, c)
    ensures OwnFields(f, o, c.stats) == Some(c)
  {
    ItemsRoundTrip(c.inventory);
    ConditionsRoundTrip(c.conditions);
  }

  /** Every valid creature is accepted back unchanged, so `zCreature` accepts exactly the valid ones. */
  lemma CreatureRoundTrip(f: Formats, c: Creature)
    requires ValidCreature(f, c)
    ensures ParseCreature(f, EncodeCreature(c)) == Some(c)
  {
    var o := EncodeStats(c.stats) + CreatureFields(c);
    CreatureHoldsStats(c);
    CreatureHoldsOwn(c);
    StatFieldsRoundTrip(c.stats, o);
    OwnFieldsRoundTrip(f, c, o);
  }

  /** A creature with more hit points than its maximum is rejected. */
  lemma CreatureRejectsExcessHp(f: Formats, o: map<string, Json>, hp: int, maxHP: int)
    requires "hp" in o && o["hp"] == JNum(hp as real)
    requires "maxHP" in o && o["maxHP"] == JNum(maxHP as real)
    requires hp > maxHP
    ensures ParseCreature(f, JObj(o)) == None
  {
  }
}
