/**
 * The game-state schemas of packages/models/src/schemas/game-state.ts: the
 * party (whose characters must all be of kind `character`), effects,
 * encounters (whose active creature must be in the initiative order, and
 * every creature in that order among the encounter's entities), roll and turn
 * logs, canon facts, campaigns and sessions, with `parseSession` and
 * `parseCampaign`, which throw exactly when their schema rejects the value.
 */
module GameState {
  import opened Wrappers
  import opened Core
  import opened Text
  import opened Zod
  import opened Entities

  // ----- zPartyState -----

  /** `zCreature` as a schema value, for arrays and records of creatures. */
  function CreatureSchema(f: Formats): Json -> Option<Creature> {
    x => ParseCreature(f, x)
  }

  predicate AllValid(f: Formats, cs: seq<Creature>) {
    forall i :: 0 <= i < |cs| ==> ValidCreature(f, cs[i])
  }

  function Creatures(f: Formats, j: Json): (r: Option<seq<Creature>>)
    ensures r.Some? ==> AllValid(f, r.value)
  {
    ArrayOf(j, CreatureSchema(f))
  }

  function CreaturesSchema(f: Formats): Json -> Option<seq<Creature>> {
    x => Creatures(f, x)
  }

  function CreaturesJson(cs: seq<Creature>): Json {
    JArr(Encoded(cs, EncodeCreature))
  }

  lemma CreaturesRoundTrip(f: Formats, cs: seq<Creature>)
    requires AllValid(f, cs)
    ensures Creatures(f, CreaturesJson(cs)) == Some(cs)
  {
    forall i | 0 <= i < |cs| ensures ParseCreature(f, EncodeCreature(cs[i])) == Some(cs[i]) {
      CreatureRoundTrip(f, cs[i]);
    }
    ArrayRoundTrip(cs, EncodeCreature, CreatureSchema(f));
  }

  datatype PartyState = PartyState(characters: seq<Creature>, companions: seq<Creature>)

  /** Everything `zPartyState` guarantees of its output. */
  predicate ValidParty(f: Formats, p: PartyState) {
    && AllValid(f, p.characters)
    && AllValid(f, p.companions)
    && forall i :: 0 <= i < |p.characters| ==> p.characters[i].kind == Character
  }

  /** `zPartyState`: characters and companions, then every character of kind `character`. */
  function ParsePartyState(f: Formats, j: Json): (r: Option<PartyState>)
    ensures r.Some? ==> ValidParty(f, r.value)
    ensures r.Some? && j.JObj? && "companions" !in j.fields ==> r.value.companions == []
  {
    if j.JObj? then
      var characters := Required(j.fields, "characters", CreaturesSchema(f));
      var companions := Default(j.fields, "companions", CreaturesSchema(f), []);
      if && characters.Some? && companions.Some?
         && forall i :: 0 <= i < |characters.value| ==> characters.value[i].kind == Character
      then Some(PartyState(characters.value, companions.value))
      else None
    else None
  }

  function EncodeParty(p: PartyState): Json {
    JObj(map["characters" := CreaturesJson(p.characters), "companions" := CreaturesJson(p.companions)])
  }

  /** Every valid party is accepted back unchanged. */
  lemma PartyRoundTrip(f: Formats, p: PartyState)
    requires ValidParty(f, p)
    ensures ParsePartyState(f, EncodeParty(p)) == Some(p)
  {
    CreaturesRoundTrip(f, p.characters);
    CreaturesRoundTrip(f, p.companions);
  }

  /** A party listing a non-character among its characters is rejected. */
  lemma PartyRejectsNonCharacter(f: Formats, o: map<string, Json>, cs: seq<Creature>, i: nat)
    requires "characters" in o && Creatures(f, o["characters"]) == Some(cs)
    requires i < |cs| && cs[i].kind != Character
    ensures ParsePartyState(f, JObj(o)) == None
  {
  }

  // ----- zEffectInstance -----

  datatype EffectInstance = EffectInstance(id: string, targetId: string, condition: Condition, expiresOnRound: Option<int>)

  predicate ValidEffect(f: Formats, e: EffectInstance) {
    f.isUuid(e.id) && f.isUuid(e.targetId)
  }

  /** `zEffectInstance`: two identifiers, a condition, and an optional integer expiry round. */
  function ParseEffect(f: Formats, j: Json): (r: Option<EffectInstance>)
    ensures r.Some? ==> ValidEffect(f, r.value)
    ensures r.Some? && r.value.expiresOnRound.Some? ==>
      j.JObj? && "expiresOnRound" in j.fields && j.fields["expiresOnRound"] == JNum(r.value.expiresOnRound.value as real)
  {
    if j.JObj? then
      var id := Required(j.fields, "id", IdSchema(f));
      var targetId := Required(j.fields, "targetId", IdSchema(f));
      var condition := Required(j.fields, "condition", ParseCondition);
      var expires := Optional(j.fields, "expiresOnRound", AsInt);
      if id.Some? && targetId.Some? && condition.Some? && expires.Some?
      then Some(EffectInstance(id.value, targetId.value, condition.value, expires.value))
      else None
    else None
  }

  function EffectSchema(f: Formats): Json -> Option<EffectInstance> {
    x => ParseEffect(f, x)
  }

  function EncodeEffect(e: EffectInstance): Json {
    var o := map["id" := JStr(e.id), "targetId" := JStr(e.targetId), "condition" := JStr(ConditionName(e.condition))];
    JObj(PutOptional(o, "expiresOnRound", e.expiresOnRound, (n: int) => JNum(n as real)))
  }

  lemma EffectRoundTrip(f: Formats, e: EffectInstance)
    requires ValidEffect(f, e)
    ensures ParseEffect(f, EncodeEffect(e)) == Some(e)
  {
    ConditionRoundTrip(e.condition);
    if e.expiresOnRound.Some? {
      IntRoundTrip(e.expiresOnRound.value, 0, 0);
    }
  }

  /** A fractional expiry round is rejected. */
  lemma FractionalExpiryRejected(f: Formats, o: map<string, Json>, x: real)
    requires "expiresOnRound" in o && o["expiresOnRound"] == JNum(x) && !IsInteger(x)
    ensures ParseEffect(f, JObj(o)) == None
  {
  }

  function Effects(f: Formats, j: Json): (r: Option<seq<EffectInstance>>)
    ensures r.Some? ==> forall i :: 0 <= i < |r.value| ==> ValidEffect(f, r.value[i])
  {
    ArrayOf(j, EffectSchema(f))
  }

  function EffectsSchema(f: Formats): Json -> Option<seq<EffectInstance>> {
    x => Effects(f, x)
  }

  lemma EffectsRoundTrip(f: Formats, es: seq<EffectInstance>)
    requires forall i :: 0 <= i < |es| ==> ValidEffect(f, es[i])
    ensures Effects(f, JArr(Encoded(es, EncodeEffect))) == Some(es)
  {
    forall i | 0 <= i < |es| ensures ParseEffect(f, EncodeEffect(es[i])) == Some(es[i]) {
      EffectRoundTrip(f, es[i]);
    }
    ArrayRoundTrip(es, EncodeEffect, EffectSchema(f));
  }

  // ----- zEncounterState -----

  /** The creatures of an encounter keyed by identifier. */
  type EntityMap = map<string, Creature>

  predicate ValidEntities(f: Formats, m: EntityMap) {
    forall k | k in m :: f.isUuid(k) && ValidCreature(f, m[k])
  }

  /** `z.record(zID, zCreature)`: every key an identifier, every value a creature. */
  function ParseEntities(f: Formats, j: Json): (r: Option<EntityMap>)
    ensures r.Some? ==> j.JObj? && r.value.Keys == j.fields.Keys && ValidEntities(f, r.value)
  {
    RecordOf(j, f.isUuid, CreatureSchema(f))
  }

  function EntitiesSchema(f: Formats): Json -> Option<EntityMap> {
    x => ParseEntities(f, x)
  }

  function EncodeEntities(m: EntityMap): Json {
    JObj(EncodedRecord(m, EncodeCreature))
  }

  lemma EntitiesRoundTrip(f: Formats, m: EntityMap)
    requires ValidEntities(f, m)
    ensures ParseEntities(f, EncodeEntities(m)) == Some(m)
  {
    forall k | k in m ensures ParseCreature(f, EncodeCreature(m[k])) == Some(m[k]) {
      CreatureRoundTrip(f, m[k]);
    }
    RecordRoundTrip(m, EncodeCreature, f.isUuid, CreatureSchema(f));
  }

  function Ids(f: Formats, j: Json): (r: Option<seq<string>>)
    ensures r.Some? ==> forall i :: 0 <= i < |r.value| ==> f.isUuid(r.value[i])
  {
    ArrayOf(j, IdSchema(f))
  }

  function IdsSchema(f: Formats): Json -> Option<seq<string>> {
    x => Ids(f, x)
  }

  function IdJson(id: string): Json {
    JStr(id)
  }

  lemma IdsRoundTrip(f: Formats, ids: seq<string>)
    requires forall i :: 0 <= i < |ids| ==> f.isUuid(ids[i])
    ensures Ids(f, JArr(Encoded(ids, IdJson))) == Some(ids)
  {
    ArrayRoundTrip(ids, IdJson, IdSchema(f));
  }

  datatype EncounterState = EncounterState(
    id: string, round: int, initiative: seq<string>, activeId: string,
    entities: EntityMap, effects: seq<EffectInstance>)

  /** The two refinements of `zEncounterState`. */
  predicate InitiativeConsistent(e: EncounterState) {
    && e.activeId in e.initiative
    && forall i :: 0 <= i < |e.initiative| ==> e.initiative[i] in e.entities
  }

  /** What the properties of `zEncounterState` guarantee, before its refinements. */
  predicate EncounterTyped(f: Formats, e: EncounterState) {
    && f.isUuid(e.id)
    && e.round >= 1
    && (forall i :: 0 <= i < |e.initiative| ==> f.isUuid(e.initiative[i]))
    && f.isUuid(e.activeId)
    && ValidEntities(f, e.entities)
    && (forall i :: 0 <= i < |e.effects| ==> ValidEffect(f, e.effects[i]))
  }

  /** Everything `zEncounterState` guarantees of its output. */
  predicate ValidEncounter(f: Formats, e: EncounterState) {
    EncounterTyped(f, e) && InitiativeConsistent(e)
  }

  /** The properties of `zEncounterState` read from an object, before its refinements. */
  function EncounterFields(f: Formats, o: map<string, Json>): (r: Option<EncounterState>)
    ensures r.Some? ==> EncounterTyped(f, r.value)
    ensures r.Some? && "effects" !in o ==> r.value.effects == []
  {
    var id := Required(o, "id", IdSchema(f));
    var round := Required(o, "round", IntMinSchema(1));
    var initiative := Required(o, "initiative", IdsSchema(f));
    var activeId := Required(o, "activeId", IdSchema(f));
    var entities := Required(o, "entities", EntitiesSchema(f));
    var effects := Default(o, "effects", EffectsSchema(f), []);
    if id.Some? && round.Some? && initiative.Some? && activeId.Some? && entities.Some? && effects.Some?
    then Some(EncounterState(id.value, round.value, initiative.value, activeId.value, entities.value, effects.value))
    else None
  }

  /** `zEncounterState`: the properties, then the active creature in the order, then every creature in the order present. */
  function ParseEncounter(f: Formats, j: Json): (r: Option<EncounterState>)
    ensures r.Some? ==> ValidEncounter(f, r.value)
  {
    if j.JObj? then
      match EncounterFields(f, j.fields)
      case None => None
      case Some(e) => if InitiativeConsistent(e) then Some(e) else None
    else None
  }

  function EncodeEncounter(e: EncounterState): Json {
    JObj(map[
      "id" := JStr(e.id), "round" := JNum(e.round as real),
      "initiative" := JArr(Encoded(e.initiative, IdJson)), "activeId" := JStr(e.activeId),
      "entities" := EncodeEntities(e.entities), "effects" := JArr(Encoded(e.effects, EncodeEffect))])
  }

  /** `o` holds the properties of `e` as `EncodeEncounter` writes them. */
  predicate HoldsEncounter(o: map<string, Json>, e: EncounterState) {
    && "id" in o && o["id"] == JStr(e.id)
    && "round" in o && o["round"] == JNum(e.round as real)
    && "initiative" in o && o["initiative"] == JArr(Encoded(e.initiative, IdJson))
    && "activeId" in o && o["activeId"] == JStr(e.activeId)
    && "entities" in o && o["entities"] == EncodeEntities(e.entities)
    && "effects" in o && o["effects"] == JArr(Encoded(e.effects, EncodeEffect))
  }

  lemma EncodeHoldsEncounter(e: EncounterState)
    ensures EncodeEncounter(e).JObj? && HoldsEncounter(EncodeEncounter(e).fields, e)
  {
  }

  lemma EncounterFieldsRoundTrip(f: Formats, e: EncounterState, o: map<string, Json>)
    requires EncounterTyped(f, e) && HoldsEncounter(o, e)
    ensures EncounterFields(f, o) == Some(e)
  {
    IntRoundTrip(e.round, 1, 0);
    IdsRoundTrip(f, e.initiative);
    EntitiesRoundTrip(f, e.entities);
    EffectsRoundTrip(f, e.effects);
  }

  /** Every valid encounter is accepted back unchanged. */
  lemma EncounterRoundTrip(f: Formats, e: EncounterState)
    requires ValidEncounter(f, e)
    ensures ParseEncounter(f, EncodeEncounter(e)) == Some(e)
  {
    EncodeHoldsEncounter(e);
    EncounterFieldsRoundTrip(f, e, EncodeEncounter(e).fields);
  }

  /** An encounter whose active creature is not in the initiative order is rejected. */
  lemma EncounterRejectsAbsentActive(f: Formats, o: map<string, Json>)
    requires EncounterFields(f, o).Some? && EncounterFields(f, o).value.activeId !in EncounterFields(f, o).value.initiative
    ensures ParseEncounter(f, JObj(o)) == None
  {
  }

  /** An encounter whose initiative order names a creature it does not hold is rejected. */
  lemma EncounterRejectsUnknownId(f: Formats, o: map<string, Json>, i: nat)
    requires EncounterFields(f, o).Some?
    requires var e := EncounterFields(f, o).value; i < |e.initiative| && e.initiative[i] !in e.entities
    ensures ParseEncounter(f, JObj(o)) == None
  {
  }

  // ----- zRollLog and zTurnLog -----

  datatype RollLog = RollLog(id: string, expr: string, seed: string, result: real, breakdown: seq<real>, reason: Option<string>)

  predicate ValidRollLog(f: Formats, r: RollLog) {
    f.isUuid(r.id)
  }

  /** `z.array(z.number())`. */
  function Numbers(j: Json): (r: Option<seq<real>>)
    ensures r.Some? ==> j.JArr? && |r.value| == |j.items|
  {
    ArrayOf(j, AsNumber)
  }

  function NumJson(x: real): Json {
    JNum(x)
  }

  /** `zRollLog`: an identifier, the expression and seed as plain strings, any numbers as result and breakdown, an optional reason. */
  function ParseRollLog(f: Formats, j: Json): (r: Option<RollLog>)
    ensures r.Some? ==> ValidRollLog(f, r.value)
    ensures r.Some? ==> j.JObj? && (r.value.reason.None? <==> "reason" !in j.fields)
  {
    if j.JObj? then
      var id := Required(j.fields, "id", IdSchema(f));
      var expr := Required(j.fields, "expr", AsString);
      var seed := Required(j.fields, "seed", AsString);
      var result := Required(j.fields, "result", AsNumber);
      var breakdown := Required(j.fields, "breakdown", Numbers);
      var reason := Optional(j.fields, "reason", AsString);
      if id.Some? && expr.Some? && seed.Some? && result.Some? && breakdown.Some? && reason.Some?
      then Some(RollLog(id.value, expr.value, seed.value, result.value, breakdown.value, reason.value))
      else None
    else None
  }

  function RollLogSchema(f: Formats): Json -> Option<RollLog> {
    x => ParseRollLog(f, x)
  }

  function EncodeRollLog(r: RollLog): Json {
    var o := map[
      "id" := JStr(r.id), "expr" := JStr(r.expr), "seed" := JStr(r.seed),
      "result" := JNum(r.result), "breakdown" := JArr(Encoded(r.breakdown, NumJson))];
    JObj(PutOptional(o, "reason", r.reason, (s: string) => JStr(s)))
  }

  lemma RollLogRoundTrip(f: Formats, r: RollLog)
    requires ValidRollLog(f, r)
    ensures ParseRollLog(f, EncodeRollLog(r)) == Some(r)
  {
    ArrayRoundTrip(r.breakdown, NumJson, AsNumber);
  }

  predicate AllRollLogs(f: Formats, rs: seq<RollLog>) {
    forall i :: 0 <= i < |rs| ==> ValidRollLog(f, rs[i])
  }

  function RollLogs(f: Formats, j: Json): (r: Option<seq<RollLog>>)
    ensures r.Some? ==> AllRollLogs(f, r.value)
  {
    ArrayOf(j, RollLogSchema(f))
  }

  function RollLogsSchema(f: Formats): Json -> Option<seq<RollLog>> {
    x => RollLogs(f, x)
  }

  lemma RollLogsRoundTrip(f: Formats, rs: seq<RollLog>)
    requires AllRollLogs(f, rs)
    ensures RollLogs(f, JArr(Encoded(rs, EncodeRollLog))) == Some(rs)
  {
    forall i | 0 <= i < |rs| ensures ParseRollLog(f, EncodeRollLog(rs[i])) == Some(rs[i]) {
      RollLogRoundTrip(f, rs[i]);
    }
    ArrayRoundTrip(rs, EncodeRollLog, RollLogSchema(f));
  }

  datatype TurnLog = TurnLog(id: string, ts: string, speaker: Speaker, text: string, rolls: seq<RollLog>)

  predicate ValidTurn(f: Formats, t: TurnLog) {
    f.isUuid(t.id) && f.isDatetime(t.ts) && AllRollLogs(f, t.rolls)
  }

  /** `zTurnLog`: an identifier, an ISO timestamp, a speaker, the text, and the rolls (none when absent). */
  function ParseTurn(f: Formats, j: Json): (r: Option<TurnLog>)
    ensures r.Some? ==> ValidTurn(f, r.value)
    ensures r.Some? && j.JObj? && "rolls" !in j.fields ==> r.value.rolls == []
  {
    if j.JObj? then
      var id := Required(j.fields, "id", IdSchema(f));
      var ts := Required(j.fields, "ts", DatetimeSchema(f));
      var speaker := Required(j.fields, "speaker", ParseSpeaker);
      var text := Required(j.fields, "text", AsString);
      var rolls := Default(j.fields, "rolls", RollLogsSchema(f), []);
      if id.Some? && ts.Some? && speaker.Some? && text.Some? && rolls.Some?
      then Some(TurnLog(id.value, ts.value, speaker.value, text.value, rolls.value))
      else None
    else None
  }

  function TurnSchema(f: Formats): Json -> Option<TurnLog> {
    x => ParseTurn(f, x)
  }

  function EncodeTurn(t: TurnLog): Json {
    JObj(map[
      "id" := JStr(t.id), "ts" := JStr(t.ts), "speaker" := JStr(SpeakerName(t.speaker)),
      "text" := JStr(t.text), "rolls" := JArr(Encoded(t.rolls, EncodeRollLog))])
  }

  lemma TurnRoundTrip(f: Formats, t: TurnLog)
    requires ValidTurn(f, t)
    ensures ParseTurn(f, EncodeTurn(t)) == Some(t)
  {
    SpeakerRoundTrip(t.speaker);
    RollLogsRoundTrip(f, t.rolls);
  }

  /** A timestamp that is not an ISO datetime is rejected. */
  lemma TurnRejectsBadTimestamp(f: Formats, o: map<string, Json>, ts: string)
    requires "ts" in o && o["ts"] == JStr(ts) && !f.isDatetime(ts)
    ensures ParseTurn(f, JObj(o)) == None
  {
  }

  predicate AllTurns(f: Formats, ts: seq<TurnLog>) {
    forall i :: 0 <= i < |ts| ==> ValidTurn(f, ts[i])
  }

  function Turns(f: Formats, j: Json): (r: Option<seq<TurnLog>>)
    ensures r.Some? ==> AllTurns(f, r.value)
  {
    ArrayOf(j, TurnSchema(f))
  }

  function TurnsSchema(f: Formats): Json -> Option<seq<TurnLog>> {
    x => Turns(f, x)
  }

  lemma TurnsRoundTrip(f: Formats, ts: seq<TurnLog>)
    requires AllTurns(f, ts)
    ensures Turns(f, JArr(Encoded(ts, EncodeTurn))) == Some(ts)
  {
    forall i | 0 <= i < |ts| ensures ParseTurn(f, EncodeTurn(ts[i])) == Some(ts[i]) {
      TurnRoundTrip(f, ts[i]);
    }
    ArrayRoundTrip(ts, EncodeTurn, TurnSchema(f));
  }

  // ----- zCanonFact -----

  datatype CanonKind = NpcFact | LocationFact | FactionFact | ItemFact | LoreFact

  function CanonKindName(k: CanonKind): string {
    match k
    case NpcFact => "NPC"
    case LocationFact => "Location"
    case FactionFact => "Faction"
    case ItemFact => "Item"
    case LoreFact => "Lore"
  }

  /** `zCanonKind`: exactly the five names. */
  function ParseCanonKind(j: Json): (r: Option<CanonKind>)
    ensures r.Some? ==> j == JStr(CanonKindName(r.value))
  {
    if j == JStr("NPC") then Some(NpcFact)
    else if j == JStr("Location") then Some(LocationFact)
    else if j == JStr("Faction") then Some(FactionFact)
    else if j == JStr("Item") then Some(ItemFact)
    else if j == JStr("Lore") then Some(LoreFact)
    else None
  }

  lemma CanonKindRoundTrip(k: CanonKind)
    ensures ParseCanonKind(JStr(CanonKindName(k))) == Some(k)
  {
  }

  /** `z.string().trim().min(1)`: the trimmed text, which must not be empty. */
  function TrimmedNonEmpty(j: Json): (r: Option<string>)
    ensures r.Some? ==> j.JStr? && Tight(r.value) && r.value != []
  {
    if j.JStr? && Trim(j.s) != [] then Some(Trim(j.s)) else None
  }

  /** A text is accepted exactly when it is not all white space, and then as its trim. */
  lemma TrimmedNonEmptyIff(s: string)
    ensures TrimmedNonEmpty(JStr(s)).None? <==> AllSpace(s)
    ensures TrimmedNonEmpty(JStr(s)).Some? ==> TrimmedNonEmpty(JStr(s)).value == Trim(s)
  {
    TrimBlank(s);
  }

  /** White space around a tight, non-empty text is dropped. */
  lemma TrimmedNonEmptyPadded(front: string, x: string, back: string)
    requires AllSpace(front) && AllSpace(back) && Tight(x) && x != []
    ensures TrimmedNonEmpty(JStr(front + x + back)) == Some(x)
  {
    TrimPadded(front, x, back);
  }

  /** `z.unknown()`: every value passes unchanged. */
  function AnyJson(j: Json): (r: Option<Json>)
    ensures r == Some(j)
  {
    Some(j)
  }

  datatype CanonFact = CanonFact(id: string, kind: CanonKind, summary: string, data: Option<Json>, locked: bool)

  predicate ValidCanon(f: Formats, c: CanonFact) {
    f.isUuid(c.id) && Tight(c.summary) && c.summary != []
  }

  /** `zCanonFact`: an identifier, a kind, a trimmed non-empty summary, any optional data, and a lock flag (false when absent). */
  function ParseCanon(f: Formats, j: Json): (r: Option<CanonFact>)
    ensures r.Some? ==> ValidCanon(f, r.value)
    ensures r.Some? ==> j.JObj? && "summary" in j.fields && j.fields["summary"].JStr? && r.value.summary == Trim(j.fields["summary"].s)
    ensures r.Some? ==> ("locked" !in j.fields ==> !r.value.locked) && (r.value.data.None? <==> "data" !in j.fields)
  {
    if j.JObj? then
      var id := Required(j.fields, "id", IdSchema(f));
      var kind := Required(j.fields, "kind", ParseCanonKind);
      var summary := Required(j.fields, "summary", TrimmedNonEmpty);
      var data := Optional(j.fields, "data", AnyJson);
      var locked := Default(j.fields, "locked", AsBool, false);
      if id.Some? && kind.Some? && summary.Some? && data.Some? && locked.Some?
      then Some(CanonFact(id.value, kind.value, summary.value, data.value, locked.value))
      else None
    else None
  }

  function CanonSchema(f: Formats): Json -> Option<CanonFact> {
    x => ParseCanon(f, x)
  }

  function EncodeCanon(c: CanonFact): Json {
    var o := map[
      "id" := JStr(c.id), "kind" := JStr(CanonKindName(c.kind)),
      "summary" := JStr(c.summary), "locked" := JBool(c.locked)];
    JObj(PutOptional(o, "data", c.data, (d: Json) => d))
  }

  lemma CanonRoundTrip(f: Formats, c: CanonFact)
    requires ValidCanon(f, c)
    ensures ParseCanon(f, EncodeCanon(c)) == Some(c)
  {
    CanonKindRoundTrip(c.kind);
    TrimTight(c.summary);
  }

  /** A summary of nothing but white space is rejected. */
  lemma CanonRejectsBlankSummary(f: Formats, o: map<string, Json>, s: string)
    requires "summary" in o && o["summary"] == JStr(s) && AllSpace(s)
    ensures ParseCanon(f, JObj(o)) == None
  {
    TrimBlank(s);
  }

  predicate AllCanon(f: Formats, cs: seq<CanonFact>) {
    forall i :: 0 <= i < |cs| ==> ValidCanon(f, cs[i])
  }

  function Canon(f: Formats, j: Json): (r: Option<seq<CanonFact>>)
    ensures r.Some? ==> AllCanon(f, r.value)
  {
    ArrayOf(j, CanonSchema(f))
  }

  function CanonsSchema(f: Formats): Json -> Option<seq<CanonFact>> {
    x => Canon(f, x)
  }

  lemma CanonListRoundTrip(f: Formats, cs: seq<CanonFact>)
    requires AllCanon(f, cs)
    ensures Canon(f, JArr(Encoded(cs, EncodeCanon))) == Some(cs)
  {
    forall i | 0 <= i < |cs| ensures ParseCanon(f, EncodeCanon(cs[i])) == Some(cs[i]) {
      CanonRoundTrip(f, cs[i]);
    }
    ArrayRoundTrip(cs, EncodeCanon, CanonSchema(f));
  }

  // ----- zCampaign -----

  datatype Settings = Settings(language: Language, safety: Rating)

  /** The `settings` object of `zCampaign`: a language and a safety rating. */
  function ParseSettings(j: Json): (r: Option<Settings>)
    ensures r.Some? ==> j.JObj? && "language" in j.fields && j.fields["language"] == JStr(LanguageName(r.value.language))
    ensures r.Some? ==> "safety" in j.fields && j.fields["safety"] == JStr(RatingName(r.value.safety))
  {
    if j.JObj? then
      var language := Required(j.fields, "language", ParseLanguage);
      var safety := Required(j.fields, "safety", ParseRating);
      if language.Some? && safety.Some? then Some(Settings(language.value, safety.value)) else None
    else None
  }

  function EncodeSettings(s: Settings): Json {
    JObj(map["language" := JStr(LanguageName(s.language)), "safety" := JStr(RatingName(s.safety))])
  }

  lemma SettingsRoundTrip(s: Settings)
    ensures ParseSettings(EncodeSettings(s)) == Some(s)
  {
    LanguageRoundTrip(s.language);
    RatingRoundTrip(s.safety);
  }

  /** The value of a quest flag: `z.union([z.string(), z.number(), z.boolean()])`. */
  datatype FlagValue = FlagString(s: string) | FlagNumber(n: real) | FlagBool(b: bool)

  function ParseFlagValue(j: Json): (r: Option<FlagValue>)
    ensures r.None? <==> !(j.JStr? || j.JNum? || j.JBool?)
  {
    match j
    case JStr(s) => Some(FlagString(s))
    case JNum(n) => Some(FlagNumber(n))
    case JBool(b) => Some(FlagBool(b))
    case _ => None
  }

  function EncodeFlagValue(v: FlagValue): Json {
    match v
    case FlagString(s) => JStr(s)
    case FlagNumber(n) => JNum(n)
    case FlagBool(b) => JBool(b)
  }

  lemma FlagValueRoundTrip(v: FlagValue)
    ensures ParseFlagValue(EncodeFlagValue(v)) == Some(v)
  {
  }

  datatype QuestFlag = QuestFlag(key: string, value: FlagValue)

  function ParseQuestFlag(j: Json): (r: Option<QuestFlag>)
    ensures r.Some? ==> j.JObj? && "key" in j.fields && j.fields["key"] == JStr(r.value.key)
    ensures r.Some? ==> "value" in j.fields && ParseFlagValue(j.fields["value"]) == Some(r.value.value)
  {
    if j.JObj? then
      var key := Required(j.fields, "key", AsString);
      var value := Required(j.fields, "value", ParseFlagValue);
      if key.Some? && value.Some? then Some(QuestFlag(key.value, value.value)) else None
    else None
  }

  function EncodeQuestFlag(q: QuestFlag): Json {
    JObj(map["key" := JStr(q.key), "value" := EncodeFlagValue(q.value)])
  }

  lemma QuestFlagRoundTrip(q: QuestFlag)
    ensures ParseQuestFlag(EncodeQuestFlag(q)) == Some(q)
  {
    FlagValueRoundTrip(q.value);
  }

  function QuestFlags(j: Json): (r: Option<seq<QuestFlag>>)
    ensures r.Some? ==> j.JArr? && |r.value| == |j.items|
  {
    ArrayOf(j, ParseQuestFlag)
  }

  lemma QuestFlagsRoundTrip(qs: seq<QuestFlag>)
    ensures QuestFlags(JArr(Encoded(qs, EncodeQuestFlag))) == Some(qs)
  {
    forall i | 0 <= i < |qs| ensures ParseQuestFlag(EncodeQuestFlag(qs[i])) == Some(qs[i]) {
      QuestFlagRoundTrip(qs[i]);
    }
    ArrayRoundTrip(qs, EncodeQuestFlag, ParseQuestFlag);
  }

  datatype Campaign = Campaign(
    id: string, name: string, createdAt: string, settings: Settings,
    canon: seq<CanonFact>, questFlags: seq<QuestFlag>)

  /** Everything `zCampaign` guarantees of its output. */
  predicate ValidCampaign(f: Formats, c: Campaign) {
    && f.isUuid(c.id)
    && Tight(c.name) && c.name != []
    && f.isDatetime(c.createdAt)
    && AllCanon(f, c.canon)
  }

  /** `zCampaign`: an identifier, a trimmed non-empty name, an ISO creation time, settings, and canon and quest flags (none when absent). */
  function CampaignSchema(f: Formats, j: Json): (r: Option<Campaign>)
    ensures r.Some? ==> ValidCampaign(f, r.value)
    ensures r.Some? ==> j.JObj? && ("canon" !in j.fields ==> r.value.canon == []) && ("questFlags" !in j.fields ==> r.value.questFlags == [])
  {
    if j.JObj? then
      var id := Required(j.fields, "id", IdSchema(f));
      var name := Required(j.fields, "name", TrimmedNonEmpty);
      var createdAt := Required(j.fields, "createdAt", DatetimeSchema(f));
      var settings := Required(j.fields, "settings", ParseSettings);
      var canon := Default(j.fields, "canon", CanonsSchema(f), []);
      var questFlags := Default(j.fields, "questFlags", QuestFlags, []);
      if id.Some? && name.Some? && createdAt.Some? && settings.Some? && canon.Some? && questFlags.Some?
      then Some(Campaign(id.value, name.value, createdAt.value, settings.value, canon.value, questFlags.value))
      else None
    else None
  }

  function EncodeCampaign(c: Campaign): Json {
    JObj(map[
      "id" := JStr(c.id), "name" := JStr(c.name), "createdAt" := JStr(c.createdAt),
      "settings" := EncodeSettings(c.settings), "canon" := JArr(Encoded(c.canon, EncodeCanon)),
      "questFlags" := JArr(Encoded(c.questFlags, EncodeQuestFlag))])
  }

  /** `o` holds the properties of `c` as `EncodeCampaign` writes them. */
  predicate HoldsCampaign(o: map<string, Json>, c: Campaign) {
    && "id" in o && o["id"] == JStr(c.id)
    && "name" in o && o["name"] == JStr(c.name)
    && "createdAt" in o && o["createdAt"] == JStr(c.createdAt)
    && "settings" in o && o["settings"] == EncodeSettings(c.settings)
    && "canon" in o && o["canon"] == JArr(Encoded(c.canon, EncodeCanon))
    && "questFlags" in o && o["questFlags"] == JArr(Encoded(c.questFlags, EncodeQuestFlag))
  }

  lemma EncodeHoldsCampaign(c: Campaign)
    ensures EncodeCampaign(c).JObj? && HoldsCampaign(EncodeCampaign(c).fields, c)
  {
  }

  lemma CampaignFieldsRoundTrip(f: Formats, c: Campaign, o: map<string, Json>)
    requires ValidCampaign(f, c) && HoldsCampaign(o, c)
    ensures CampaignSchema(f, JObj(o)) == Some(c)
  {
    TrimTight(c.name);
    SettingsRoundTrip(c.settings);
    CanonListRoundTrip(f, c.canon);
    QuestFlagsRoundTrip(c.questFlags);
  }

  /** Every valid campaign is accepted back unchanged. */
  lemma CampaignRoundTrip(f: Formats, c: Campaign)
    requires ValidCampaign(f, c)
    ensures CampaignSchema(f, EncodeCampaign(c)) == Some(c)
  {
    EncodeHoldsCampaign(c);
    CampaignFieldsRoundTrip(f, c, EncodeCampaign(c).fields);
  }

  /** A campaign name of nothing but white space is rejected. */
  lemma CampaignRejectsBlankName(f: Formats, o: map<string, Json>, s: string)
    requires "name" in o && o["name"] == JStr(s) && AllSpace(s)
    ensures CampaignSchema(f, JObj(o)) == None
  {
    TrimBlank(s);
  }

  /** The error `parse` throws when its schema rejects the value. */
  datatype ZodError = ZodError

  /** `parseCampaign`: the campaign when `zCampaign` accepts the value, a thrown `ZodError` otherwise. */
  function ParseCampaign(f: Formats, j: Json): (r: Result<Campaign, ZodError>)
    ensures r.Ok? <==> CampaignSchema(f, j).Some?
    ensures r.Ok? ==> ValidCampaign(f, r.value)
  {
    match CampaignSchema(f, j)
    case Some(c) => Ok(c)
    case None => Err(ZodError)
  }

  lemma ParseCampaignRoundTrip(f: Formats, c: Campaign)
    requires ValidCampaign(f, c)
    ensures ParseCampaign(f, EncodeCampaign(c)) == Ok(c)
  {
    CampaignRoundTrip(f, c);
  }

  // ----- zSession -----

  datatype SessionState = SessionState(party: PartyState, encounter: Option<EncounterState>, location: Option<string>)

  predicate ValidSessionState(f: Formats, s: SessionState) {
    ValidParty(f, s.party) && (s.encounter.Some? ==> ValidEncounter(f, s.encounter.value))
  }

  function PartySchema(f: Formats): Json -> Option<PartyState> {
    x => ParsePartyState(f, x)
  }

  function EncounterSchema(f: Formats): Json -> Option<EncounterState> {
    x => ParseEncounter(f, x)
  }

  /** The `state` object of `zSession`: a party, an optional encounter, an optional location. */
  function ParseSessionState(f: Formats, j: Json): (r: Option<SessionState>)
    ensures r.Some? ==> ValidSessionState(f, r.value)
    ensures r.Some? ==> j.JObj? && (r.value.encounter.None? <==> "encounter" !in j.fields)
  {
    if j.JObj? then
      var party := Required(j.fields, "party", PartySchema(f));
      var encounter := Optional(j.fields, "encounter", EncounterSchema(f));
      var location := Optional(j.fields, "location", AsString);
      if party.Some? && encounter.Some? && location.Some?
      then Some(SessionState(party.value, encounter.value, location.value))
      else None
    else None
  }

  function SessionStateSchema(f: Formats): Json -> Option<SessionState> {
    x => ParseSessionState(f, x)
  }

  function EncodeSessionState(s: SessionState): Json {
    var o := PutOptional(map["party" := EncodeParty(s.party)], "encounter", s.encounter, EncodeEncounter);
    JObj(PutOptional(o, "location", s.location, (l: string) => JStr(l)))
  }

  /** `o` holds the properties of `s` as `EncodeSessionState` writes them. */
  predicate HoldsSessionState(o: map<string, Json>, s: SessionState) {
    && "party" in o && o["party"] == EncodeParty(s.party)
    && (s.encounter.None? ==> "encounter" !in o)
    && (s.encounter.Some? ==> "encounter" in o && o["encounter"] == EncodeEncounter(s.encounter.value))
    && (s.location.None? ==> "location" !in o)
    && (s.location.Some? ==> "location" in o && o["location"] == JStr(s.location.value))
  }

  lemma EncodeHoldsSessionState(s: SessionState)
    ensures EncodeSessionState(s).JObj? && HoldsSessionState(EncodeSessionState(s).fields, s)
  {
  }

  /** The state object is read back from properties that each read back. */
  lemma SessionStateFromFields(f: Formats, s: SessionState, o: map<string, Json>)
    requires Required(o, "party", PartySchema(f)) == Some(s.party)
    requires Optional(o, "encounter", EncounterSchema(f)) == Some(s.encounter)
    requires Optional(o, "location", AsString) == Some(s.location)
    ensures ParseSessionState(f, JObj(o)) == Some(s)
  {
  }

  lemma SessionStateRoundTrip(f: Formats, s: SessionState)
    requires ValidSessionState(f, s)
    ensures ParseSessionState(f, EncodeSessionState(s)) == Some(s)
  {
    var o := EncodeSessionState(s).fields;
    EncodeHoldsSessionState(s);
    assert Required(o, "party", PartySchema(f)) == Some(s.party) by {
      PartyRoundTrip(f, s.party);
    }
    assert Optional(o, "encounter", EncounterSchema(f)) == Some(s.encounter) by {
      if s.encounter.Some? {
        EncounterRoundTrip(f, s.encounter.value);
      }
    }
    SessionStateFromFields(f, s, o);
  }

  datatype Session = Session(
    id: string, campaignId: string, seed: string, timeline: seq<TurnLog>,
    state: SessionState, updatedAt: string)

  /** Everything `zSession` guarantees of its output. */
  predicate ValidSession(f: Formats, s: Session) {
    && f.isUuid(s.id)
    && f.isUuid(s.campaignId)
    && AllTurns(f, s.timeline)
    && ValidSessionState(f, s.state)
    && f.isDatetime(s.updatedAt)
  }

  /** `zSession`: two identifiers, the seed, the timeline (empty when absent), the game state, and an ISO update time. */
  function SessionSchema(f: Formats, j: Json): (r: Option<Session>)
    ensures r.Some? ==> ValidSession(f, r.value)
    ensures r.Some? ==> j.JObj? && ("timeline" !in j.fields ==> r.value.timeline == [])
  {
    if j.JObj? then
      var id := Required(j.fields, "id", IdSchema(f));
      var campaignId := Required(j.fields, "campaignId", IdSchema(f));
      var seed := Required(j.fields, "seed", AsString);
      var timeline := Default(j.fields, "timeline", TurnsSchema(f), []);
      var state := Required(j.fields, "state", SessionStateSchema(f));
      var updatedAt := Required(j.fields, "updatedAt", DatetimeSchema(f));
      if id.Some? && campaignId.Some? && seed.Some? && timeline.Some? && state.Some? && updatedAt.Some?
      then Some(Session(id.value, campaignId.value, seed.value, timeline.value, state.value, updatedAt.value))
      else None
    else None
  }

  function EncodeSession(s: Session): Json {
    JObj(map[
      "id" := JStr(s.id), "campaignId" := JStr(s.campaignId), "seed" := JStr(s.seed),
      "timeline" := JArr(Encoded(s.timeline, EncodeTurn)), "state" := EncodeSessionState(s.state),
      "updatedAt" := JStr(s.updatedAt)])
  }

  /** `o` holds the properties of `s` as `EncodeSession` writes them. */
  predicate HoldsSession(o: map<string, Json>, s: Session) {
    && "id" in o && o["id"] == JStr(s.id)
    && "campaignId" in o && o["campaignId"] == JStr(s.campaignId)
    && "seed" in o && o["seed"] == JStr(s.seed)
    && "timeline" in o && o["timeline"] == JArr(Encoded(s.timeline, EncodeTurn))
    && "state" in o && o["state"] == EncodeSessionState(s.state)
    && "updatedAt" in o && o["updatedAt"] == JStr(s.updatedAt)
  }

  lemma EncodeHoldsSession(s: Session)
    ensures EncodeSession(s).JObj? && HoldsSession(EncodeSession(s).fields, s)
  {
  }

  lemma SessionFieldsRoundTrip(f: Formats, s: Session, o: map<string, Json>)
    requires ValidSession(f, s) && HoldsSession(o, s)
    ensures SessionSchema(f, JObj(o)) == Some(s)
  {
    TurnsRoundTrip(f, s.timeline);
    SessionStateRoundTrip(f, s.state);
  }

  /** Every valid session is accepted back unchanged. */
  lemma SessionRoundTrip(f: Formats, s: Session)
    requires ValidSession(f, s)
    ensures SessionSchema(f, EncodeSession(s)) == Some(s)
  {
    EncodeHoldsSession(s);
    SessionFieldsRoundTrip(f, s, EncodeSession(s).fields);
  }

  /** A session whose encounter breaks the initiative refinements is rejected as a whole. */
  lemma SessionRejectsBadEncounter(f: Formats, o: map<string, Json>, st: map<string, Json>)
    requires "state" in o && o["state"] == JObj(st)
    requires "encounter" in st && ParseEncounter(f, st["encounter"]).None?
    ensures SessionSchema(f, JObj(o)) == None
  {
  }

  /** `parseSession`: the session when `zSession` accepts the value, a thrown `ZodError` otherwise. */
  function ParseSession(f: Formats, j: Json): (r: Result<Session, ZodError>)
    ensures r.Ok? <==> SessionSchema(f, j).Some?
    ensures r.Ok? ==> ValidSession(f, r.value)
  {
    match SessionSchema(f, j)
    case Some(s) => Ok(s)
    case None => Err(ZodError)
  }

  lemma ParseSessionRoundTrip(f: Formats, s: Session)
    requires ValidSession(f, s)
    ensures ParseSession(f, EncodeSession(s)) == Ok(s)
  {
    SessionRoundTrip(f, s);
  }
}
