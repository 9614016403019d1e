/**
 * The conversational character draft shared by the engine
 * (`packages/engine/src/state/character-creation.ts`) and the chat service's
 * copy (`apps/api/src/modules/chat/character-creation.service.ts`): a record
 * of optional fields, filled one answer at a time, the fields still missing
 * in their fixed order, the next question, and the finished character.
 *
 * Both copies clamp a parsed number before asking whether it is NaN; since
 * the clamp never yields NaN, that check can never fire and a non-numeric
 * answer stores the field's minimum (`NonNumericStoresMinimum`).
 */
module CharacterCreation {
  import opened Wrappers
  import opened Text
  import opened Core
  import opened AbilityInput

  const MIN_LEVEL := 1
  const MAX_LEVEL := 20
  const MIN_ARMOR_CLASS := 5
  const MAX_ARMOR_CLASS := 99
  const MIN_HIT_POINTS := 1
  const MAX_HIT_POINTS := 999

  datatype Field = Name | Race | Class | Level | Abilities | Ac | MaxHP | Hp | Backstory

  /** The order in which the draft asks for its fields. */
  const REQUIRED_FIELDS: seq<Field> := [Name, Race, Class, Level, Abilities, Ac, MaxHP, Hp, Backstory]

  /** The position of `f` in `REQUIRED_FIELDS`. */
  function FieldIndex(f: Field): (i: nat)
    ensures i < |REQUIRED_FIELDS| && REQUIRED_FIELDS[i] == f
  {
    match f
    case Name => 0
    case Race => 1
    case Class => 2
    case Level => 3
    case Abilities => 4
    case Ac => 5
    case MaxHP => 6
    case Hp => 7
    case Backstory => 8
  }

  /** The question asked for each field. */
  function Prompt(f: Field): string {
    match f
    case Name => "What's the character's name?"
    case Race => "What race is the character (e.g., Human, Elf, Dwarf)?"
    case Class => "What class does the character belong to (e.g., Fighter, Wizard)?"
    case Level => "What level is the character? (1-20)"
    case Abilities =>
      "Provide ability scores for STR, DEX, CON, INT, WIS, CHA (e.g., '15 14 13 12 10 8') or say 'auto' for the standard array."
    case Ac => "What is the character's armor class?"
    case MaxHP => "What is the character's maximum hit points?"
    case Hp => "What is the character's starting hit points?"
    case Backstory => "Share a brief backstory (under 100 words)."
  }

  const BLANK_ERROR := "Please provide a response."
  const ABILITIES_ERROR := "Unable to interpret ability scores. " + "Try 'auto' or provide values for STR DEX CON INT WIS CHA."
  const INCOMPLETE_ERROR := "Character draft is incomplete"

  /** A character under construction: every field may still be absent. */
  datatype Draft = Draft(
    id: Option<string>,
    kind: Option<CreatureKind>,
    name: Option<string>,
    race: Option<string>,
    characterClass: Option<string>,
    level: Option<int>,
    abilities: Option<Scores>,
    ac: Option<int>,
    maxHP: Option<int>,
    hp: Option<int>,
    backstory: Option<string>)

  /** `createEmptyDraft`: only the kind is set. */
  const EMPTY_DRAFT := Draft(None, Some(Character), None, None, None, None, None, None, None, None, None)

  /** What an answered field holds, whatever its type. */
  datatype FieldValue = Text(text: Option<string>) | Number(number: Option<int>) | AbilityScores(scores: Option<Scores>)

  function Value(d: Draft, f: Field): FieldValue {
    match f
    case Name => Text(d.name)
    case Race => Text(d.race)
    case Class => Text(d.characterClass)
    case Backstory => Text(d.backstory)
    case Level => Number(d.level)
    case Ac => Number(d.ac)
    case MaxHP => Number(d.maxHP)
    case Hp => Number(d.hp)
    case Abilities => AbilityScores(d.abilities)
  }

  // ----- which fields are satisfied -----

  /** Text that is not blank. */
  predicate Filled(s: Option<string>) {
    s.Some? && Trim(s.value) != []
  }

  predicate AtLeast(n: Option<int>, lo: int) {
    n.Some? && n.value >= lo
  }

  /** Every ability has a score of at least 1. */
  predicate ScoresSet(m: Option<Scores>) {
    m.Some? && forall a: Ability :: a in m.value && m.value[a] >= 1
  }

  /** `hasFieldValue`. */
  predicate HasFieldValue(d: Draft, f: Field) {
    match f
    case Name => Filled(d.name)
    case Race => Filled(d.race)
    case Class => Filled(d.characterClass)
    case Backstory => Filled(d.backstory)
    case Level => AtLeast(d.level, MIN_LEVEL)
    case Ac => AtLeast(d.ac, MIN_ARMOR_CLASS)
    case MaxHP => AtLeast(d.maxHP, MIN_HIT_POINTS)
    case Hp => AtLeast(d.hp, MIN_HIT_POINTS)
    case Abilities => ScoresSet(d.abilities)
  }

  /** The fields of `fields` that `d` does not satisfy, in their order (a `filter`). */
  function Missing(d: Draft, fields: seq<Field>): (r: seq<Field>)
    ensures |r| <= |fields|
    ensures forall f :: f in r <==> f in fields && !HasFieldValue(d, f)
  {
    if fields == [] then []
    else if HasFieldValue(d, fields[0]) then Missing(d, fields[1..])
    else [fields[0]] + Missing(d, fields[1..])
  }

  /** `getMissingFields` of the chat copy. */
  function MissingFields(d: Draft): seq<Field> {
    Missing(d, REQUIRED_FIELDS)
  }

  lemma {:induction false} MissingAppend(d: Draft, xs: seq<Field>, ys: seq<Field>)
    ensures Missing(d, xs + ys) == Missing(d, xs) + Missing(d, ys)
  {
    if xs != [] {
      var x, tail := xs[0], xs[1..];
      assert xs == [x] + tail;
      assert xs + ys == [x] + (tail + ys);
      MissingCons(d, x, tail);
      MissingCons(d, x, tail + ys);
      MissingAppend(d, tail, ys);
      if !HasFieldValue(d, x) {
        assert [x] + (Missing(d, tail) + Missing(d, ys)) == [x] + Missing(d, tail) + Missing(d, ys);
      }
    } else {
      assert xs + ys == ys;
    }
  }

  /** One step of the filter. */
  lemma MissingCons(d: Draft, x: Field, rest: seq<Field>)
    ensures Missing(d, [x] + rest) == if HasFieldValue(d, x) then Missing(d, rest) else [x] + Missing(d, rest)
  {
    assert ([x] + rest)[0] == x && ([x] + rest)[1..] == rest;
  }

  /** `getMissingFields` of the engine: a `forEach` that pushes each unsatisfied field. */
  method CollectMissingFields(d: Draft) returns (missing: seq<Field>)
    ensures missing == MissingFields(d)
  {
    missing := [];
    for i := 0 to |REQUIRED_FIELDS|
      invariant missing == Missing(d, REQUIRED_FIELDS[..i])
    {
      var f := REQUIRED_FIELDS[i];
      MissingAppend(d, REQUIRED_FIELDS[..i], [f]);
      assert REQUIRED_FIELDS[..i + 1] == REQUIRED_FIELDS[..i] + [f];
      if !HasFieldValue(d, f) {
        missing := missing + [f];
      }
    }
    assert REQUIRED_FIELDS[..|REQUIRED_FIELDS|] == REQUIRED_FIELDS;
  }

  /** Fields listed in the order of `REQUIRED_FIELDS`, none twice. */
  predicate InFieldOrder(fs: seq<Field>) {
    forall i, j :: 0 <= i < j < |fs| ==> FieldIndex(fs[i]) < FieldIndex(fs[j])
  }

  /** Missing fields are listed in the order of `REQUIRED_FIELDS`, each once. */
  lemma MissingInOrder(d: Draft)
    ensures InFieldOrder(MissingFields(d))
  {
    var q := REQUIRED_FIELDS;
    assert FieldIndex(q[0]) == 0 && FieldIndex(q[1]) == 1 && FieldIndex(q[2]) == 2;
    assert FieldIndex(q[3]) == 3 && FieldIndex(q[4]) == 4 && FieldIndex(q[5]) == 5;
    assert FieldIndex(q[6]) == 6 && FieldIndex(q[7]) == 7 && FieldIndex(q[8]) == 8;
    assert InFieldOrder(q);
    MissingSorted(d, REQUIRED_FIELDS);
  }

  /** A field placed before an ordered list of later fields keeps it ordered. */
  lemma ConsInFieldOrder(f: Field, rest: seq<Field>)
    requires InFieldOrder(rest)
    requires forall g :: g in rest ==> FieldIndex(f) < FieldIndex(g)
    ensures InFieldOrder([f] + rest)
  {
    var r := [f] + rest;
    forall i, j | 0 <= i < j < |r| ensures FieldIndex(r[i]) < FieldIndex(r[j]) {
      assert r[j] == rest[j - 1] && r[j] in rest;
      if i > 0 {
        assert r[i] == rest[i - 1];
      }
    }
  }

  /** Filtering keeps a list ordered by `FieldIndex` ordered, and only keeps its elements. */
  lemma {:induction false} MissingSorted(d: Draft, fields: seq<Field>)
    requires InFieldOrder(fields)
    ensures InFieldOrder(Missing(d, fields))
  {
    if fields != [] {
      var rest := Missing(d, fields[1..]);
      assert InFieldOrder(fields[1..]) by {
        forall i, j | 0 <= i < j < |fields[1..]| ensures FieldIndex(fields[1..][i]) < FieldIndex(fields[1..][j]) {
          assert fields[1..][i] == fields[i + 1] && fields[1..][j] == fields[j + 1];
        }
      }
      MissingSorted(d, fields[1..]);
      if !HasFieldValue(d, fields[0]) {
        forall g | g in rest ensures FieldIndex(fields[0]) < FieldIndex(g) {
          var i :| 0 <= i < |fields[1..]| && fields[1..][i] == g;
          assert fields[i + 1] == g;
        }
        ConsInFieldOrder(fields[0], rest);
      }
    }
  }

  /** A draft is complete when nothing is missing. */
  predicate IsComplete(d: Draft) {
    |MissingFields(d)| == 0
  }

  /** Complete exactly when every field is satisfied. */
  lemma CompleteIff(d: Draft)
    ensures IsComplete(d) <==> forall f :: HasFieldValue(d, f)
  {
    if !IsComplete(d) {
      assert MissingFields(d)[0] in MissingFields(d);
    }
    forall f ensures IsComplete(d) ==> HasFieldValue(d, f) {
      assert REQUIRED_FIELDS[FieldIndex(f)] == f;
    }
  }

  datatype Question = Question(field: Field, prompt: string)

  /**
   * `getNextQuestion`: no question once the draft is complete, otherwise the
   * first unsatisfied field in `REQUIRED_FIELDS` order with its prompt.
   */
  function NextQuestion(d: Draft): (q: Option<Question>)
    ensures q.None? <==> IsComplete(d)
    ensures q.Some? ==> q.value.prompt == Prompt(q.value.field) && !HasFieldValue(d, q.value.field)
    ensures q.Some? ==> forall f :: FieldIndex(f) < FieldIndex(q.value.field) ==> HasFieldValue(d, f)
  {
    var missing := MissingFields(d);
    if |missing| == 0 then None
    else
      var f := missing[0];
      assert f in missing;
      FirstMissing(d, f);
      Some(Question(f, Prompt(f)))
  }

  /** Every field before the first missing one is satisfied. */
  lemma FirstMissing(d: Draft, f: Field)
    requires MissingFields(d) != [] && MissingFields(d)[0] == f
    ensures forall g :: FieldIndex(g) < FieldIndex(f) ==> HasFieldValue(d, g)
  {
    MissingInOrder(d);
    var r := MissingFields(d);
    forall g | FieldIndex(g) < FieldIndex(f) ensures HasFieldValue(d, g) {
      assert REQUIRED_FIELDS[FieldIndex(g)] == g;
      forall j | 0 <= j < |r| ensures r[j] != g {
        if j > 0 {
          assert FieldIndex(r[0]) < FieldIndex(r[j]);
        }
      }
      assert g !in r;
    }
  }

  /** An empty draft asks for the name first and misses every field. */
  lemma EmptyDraftAsksName()
    ensures NextQuestion(EMPTY_DRAFT) == Some(Question(Name, Prompt(Name)))
    ensures MissingFields(EMPTY_DRAFT) == REQUIRED_FIELDS
  {
    assert forall f :: !HasFieldValue(EMPTY_DRAFT, f);
    MissingAllUnset(EMPTY_DRAFT, REQUIRED_FIELDS);
  }

  lemma {:induction false} MissingAllUnset(d: Draft, fields: seq<Field>)
    requires forall f :: !HasFieldValue(d, f)
    ensures Missing(d, fields) == fields
  {
    if fields != [] {
      MissingAllUnset(d, fields[1..]);
    }
  }

  // ----- the finished character -----

  /** A `PlayerCharacter`: every field present. */
  datatype PlayerCharacter = PlayerCharacter(
    id: string,
    kind: CreatureKind,
    name: string,
    race: string,
    characterClass: string,
    level: int,
    abilities: Scores,
    ac: int,
    maxHP: int,
    hp: int,
    backstory: string)

  /**
   * `finalizeCharacter`: an incomplete draft is an error (the thrown
   * exception); otherwise every field is copied, the kind is `character`, the
   * existing id is kept (`freshId` stands for a new UUID) and `hp` is capped
   * at `maxHP`.
   */
  function Finalize(d: Draft, freshId: string): (r: Result<PlayerCharacter, string>)
    ensures r.Err? <==> !IsComplete(d)
    ensures r.Err? ==> r.error == INCOMPLETE_ERROR
    ensures r.Ok? ==> var c := r.value;
      && d.hp.Some? && d.maxHP.Some?
      && c.kind == Character && c.hp == Min(d.hp.value, d.maxHP.value)
      && (d.id.Some? ==> c.id == d.id.value) && (d.id.None? ==> c.id == freshId)
      && Some(c.name) == d.name && Some(c.race) == d.race && Some(c.characterClass) == d.characterClass
      && Some(c.level) == d.level && Some(c.abilities) == d.abilities && Some(c.ac) == d.ac
      && Some(c.maxHP) == d.maxHP && Some(c.backstory) == d.backstory
  {
    if !IsComplete(d) then Err(INCOMPLETE_ERROR)
    else
      CompleteIff(d);
      assert HasFieldValue(d, Name) && HasFieldValue(d, Race) && HasFieldValue(d, Class);
      assert HasFieldValue(d, Level) && HasFieldValue(d, Abilities) && HasFieldValue(d, Ac);
      assert HasFieldValue(d, MaxHP) && HasFieldValue(d, Hp) && HasFieldValue(d, Backstory);
      Ok(PlayerCharacter(
        d.id.GetOr(freshId), Character, d.name.value, d.race.value, d.characterClass.value,
        d.level.value, d.abilities.value, d.ac.value, d.maxHP.value,
        Min(d.hp.value, d.maxHP.value), d.backstory.value))
  }

  /**
   * A finished character has a name, race, class and backstory that are not
   * blank, level at least 1, armor class at least 5, every ability at least 1
   * and `1 <= hp <= maxHP`.
   */
  lemma FinalizedIsSound(d: Draft, freshId: string)
    requires Finalize(d, freshId).Ok?
    ensures var c := Finalize(d, freshId).value;
      && Trim(c.name) != [] && Trim(c.race) != [] && Trim(c.characterClass) != [] && Trim(c.backstory) != []
      && c.level >= MIN_LEVEL && c.ac >= MIN_ARMOR_CLASS
      && (forall a: Ability :: a in c.abilities && c.abilities[a] >= 1)
      && MIN_HIT_POINTS <= c.hp <= c.maxHP
  {
    CompleteIff(d);
    assert HasFieldValue(d, Name) && HasFieldValue(d, Race) && HasFieldValue(d, Class);
    assert HasFieldValue(d, Abilities) && HasFieldValue(d, Backstory);
    assert HasFieldValue(d, Level) && HasFieldValue(d, Ac);
    assert HasFieldValue(d, MaxHP) && HasFieldValue(d, Hp);
  }

  // ----- applying an answer -----

  /** The `{ draft, error? }` an answer produces. */
  datatype Applied = Applied(draft: Draft, error: Option<string>)

  /** The `maxHP` answer: store it and lower `hp` to it when `hp` is above it. */
  function WithMaxHP(d: Draft, value: int): Draft {
    var next := d.(maxHP := Some(value));
    if next.hp.Some? && next.hp.value > value then next.(hp := Some(value)) else next
  }

  /** The `hp` answer: keep `maxHP` (or take `value` when there is none) and cap `hp` at it. */
  function WithHp(d: Draft, value: int): Draft {
    var maxHP := d.maxHP.GetOr(value);
    d.(hp := Some(Min(value, maxHP)), maxHP := Some(maxHP))
  }

  /**
   * `applyAnswerToDraft` of the engine and the chat copy. A blank answer is
   * refused; text fields store the trimmed answer; numeric fields store
   * `clamp(parseInt(answer))`, which is never NaN, so their parse errors are
   * never produced; the abilities answer goes through `parseAbilityInput`.
   */
  function ApplyAnswer(d: Draft, f: Field, answer: string): (r: Applied)
    ensures Trim(answer) == [] ==> r == Applied(d, Some(BLANK_ERROR))
    ensures r.error.Some? ==> r.draft == d
    ensures r.error.Some? <==> Trim(answer) == [] || (f == Abilities && ParseAbilityInput(Trim(answer)).None?)
  {
    var trimmed := Trim(answer);
    if trimmed == [] then Applied(d, Some(BLANK_ERROR))
    else
      match f
      case Name => Applied(d.(name := Some(trimmed)), None)
      case Race => Applied(d.(race := Some(trimmed)), None)
      case Class => Applied(d.(characterClass := Some(trimmed)), None)
      case Level => Applied(d.(level := Some(Clamp(ParseInt(trimmed), MIN_LEVEL, MAX_LEVEL))), None)
      case Ac => Applied(d.(ac := Some(Clamp(ParseInt(trimmed), MIN_ARMOR_CLASS, MAX_ARMOR_CLASS))), None)
      case MaxHP => Applied(WithMaxHP(d, Clamp(ParseInt(trimmed), MIN_HIT_POINTS, MAX_HIT_POINTS)), None)
      case Hp => Applied(WithHp(d, Clamp(ParseInt(trimmed), MIN_HIT_POINTS, MAX_HIT_POINTS)), None)
      case Abilities =>
        (match ParseAbilityInput(trimmed)
         case None => Applied(d, Some(ABILITIES_ERROR))
         case Some(scores) => Applied(d.(abilities := Some(scores)), None))
      case Backstory => Applied(d.(backstory := Some(trimmed)), None)
  }

  /**
   * Numeric answers are stored inside their ranges; `hp` is also capped by a
   * stored `maxHP`, so its lower bound needs that `maxHP` to be valid.
   */
  lemma NumbersClamped(d: Draft, f: Field, answer: string)
    requires Trim(answer) != []
    ensures var r := ApplyAnswer(d, f, answer).draft;
      && (f == Level ==> r.level.Some? && MIN_LEVEL <= r.level.value <= MAX_LEVEL)
      && (f == Ac ==> r.ac.Some? && MIN_ARMOR_CLASS <= r.ac.value <= MAX_ARMOR_CLASS)
      && (f == MaxHP ==> r.maxHP.Some? && MIN_HIT_POINTS <= r.maxHP.value <= MAX_HIT_POINTS)
      && (f == Hp ==> r.hp.Some? && r.hp.value <= MAX_HIT_POINTS)
      && (f == Hp && MaxHPValid(d) ==> r.hp.Some? && MIN_HIT_POINTS <= r.hp.value)
  {
  }

  /**
   * What a non-blank answer stores, field by field: the trimmed text, the
   * number `parseInt` reads clamped to the field's range (with the `hp`/`maxHP`
   * adjustment), or the scores `parseAbilityInput` reads; none is refused
   * except an abilities answer that cannot be read.
   */
  lemma AnswerStores(d: Draft, answer: string)
    requires Trim(answer) != []
    ensures var t := Trim(answer);
      && ApplyAnswer(d, Name, answer) == Applied(d.(name := Some(t)), None)
      && ApplyAnswer(d, Race, answer) == Applied(d.(race := Some(t)), None)
      && ApplyAnswer(d, Class, answer) == Applied(d.(characterClass := Some(t)), None)
      && ApplyAnswer(d, Backstory, answer) == Applied(d.(backstory := Some(t)), None)
    ensures var n := ParseInt(Trim(answer));
      && ApplyAnswer(d, Level, answer) == Applied(d.(level := Some(Clamp(n, MIN_LEVEL, MAX_LEVEL))), None)
      && ApplyAnswer(d, Ac, answer) == Applied(d.(ac := Some(Clamp(n, MIN_ARMOR_CLASS, MAX_ARMOR_CLASS))), None)
      && ApplyAnswer(d, MaxHP, answer) == Applied(WithMaxHP(d, Clamp(n, MIN_HIT_POINTS, MAX_HIT_POINTS)), None)
      && ApplyAnswer(d, Hp, answer) == Applied(WithHp(d, Clamp(n, MIN_HIT_POINTS, MAX_HIT_POINTS)), None)
    ensures ParseAbilityInput(Trim(answer)).Some? ==>
      ApplyAnswer(d, Abilities, answer) == Applied(d.(abilities := ParseAbilityInput(Trim(answer))), None)
  {
  }

  /** A numeric answer `parseInt` cannot read stores the field's minimum, with no error. */
  lemma NonNumericStoresMinimum(d: Draft, answer: string)
    requires Trim(answer) != [] && ParseInt(Trim(answer)).None?
    ensures ApplyAnswer(d, Level, answer) == Applied(d.(level := Some(MIN_LEVEL)), None)
    ensures ApplyAnswer(d, Ac, answer) == Applied(d.(ac := Some(MIN_ARMOR_CLASS)), None)
    ensures ApplyAnswer(d, MaxHP, answer) == Applied(WithMaxHP(d, MIN_HIT_POINTS), None)
    ensures ApplyAnswer(d, Hp, answer) == Applied(WithHp(d, MIN_HIT_POINTS), None)
  {
  }

  /** A stored `maxHP` is at least the minimum (every answer keeps it so). */
  predicate MaxHPValid(d: Draft) {
    d.maxHP.Some? ==> d.maxHP.value >= MIN_HIT_POINTS
  }

  lemma AnswerKeepsMaxHPValid(d: Draft, f: Field, answer: string)
    requires MaxHPValid(d)
    ensures MaxHPValid(ApplyAnswer(d, f, answer).draft)
  {
  }

  /** `hp` does not exceed `maxHP` when both are set. */
  predicate HpWithinMax(d: Draft) {
    d.hp.Some? && d.maxHP.Some? ==> d.hp.value <= d.maxHP.value
  }

  /**
   * After a `maxHP` or `hp` answer `hp <= maxHP`, whatever the draft held
   * before; an `hp` answer with no `maxHP` sets `maxHP` to the same value.
   */
  lemma HpAnswersBound(d: Draft, f: Field, answer: string)
    requires f == MaxHP || f == Hp
    requires Trim(answer) != []
    ensures var r := ApplyAnswer(d, f, answer).draft; HpWithinMax(r) && r.maxHP.Some?
    ensures f == Hp && d.maxHP.None? ==>
      var r := ApplyAnswer(d, f, answer).draft; r.maxHP == r.hp
  {
  }

  /** Every answer keeps `hp <= maxHP`. */
  lemma AnswerKeepsHpWithinMax(d: Draft, f: Field, answer: string)
    requires HpWithinMax(d)
    ensures HpWithinMax(ApplyAnswer(d, f, answer).draft)
  {
  }

  /**
   * Only the answered field changes, except that a `maxHP` answer may lower
   * `hp` and an `hp` answer may set `maxHP`; the id and kind never change.
   */
  lemma OtherFieldsKept(d: Draft, f: Field, answer: string, g: Field)
    requires g != f
    requires !(f == MaxHP && g == Hp) && !(f == Hp && g == MaxHP)
    ensures var r := ApplyAnswer(d, f, answer).draft;
      Value(r, g) == Value(d, g) && r.id == d.id && r.kind == d.kind
  {
  }

  /** A non-blank answer that the field can use satisfies that field. */
  lemma AnswerSatisfies(d: Draft, f: Field, answer: string)
    requires MaxHPValid(d)
    requires Trim(answer) != []
    requires f == Abilities ==> ParseAbilityInput(Trim(answer)).Some?
    ensures HasFieldValue(ApplyAnswer(d, f, answer).draft, f)
  {
    var t := Trim(answer);
    if f == Name || f == Race || f == Class || f == Backstory {
      TrimTight(t);
    }
  }

  /** No answer unsatisfies a field that was satisfied. */
  lemma AnswerKeepsSatisfied(d: Draft, f: Field, answer: string, g: Field)
    requires MaxHPValid(d)
    requires HasFieldValue(d, g)
    ensures HasFieldValue(ApplyAnswer(d, f, answer).draft, g)
  {
    var r := ApplyAnswer(d, f, answer);
    if r.error.None? && g == f {
      if f == Abilities {
        assert ParseAbilityInput(Trim(answer)).Some?;
      }
      AnswerSatisfies(d, f, answer);
    }
  }

  /** Answers applied one after another, in order. */
  function ApplyAll(d: Draft, answers: seq<(Field, string)>): Draft
    decreases |answers|
  {
    if answers == [] then d
    else ApplyAll(ApplyAnswer(d, answers[0].0, answers[0].1).draft, answers[1..])
  }

  /** Some answer is for field `f`. */
  predicate Answered(answers: seq<(Field, string)>, f: Field) {
    exists i :: 0 <= i < |answers| && answers[i].0 == f
  }

  /** Each answer is not blank and, for the abilities, understood. */
  predicate Usable(answers: seq<(Field, string)>) {
    forall i :: 0 <= i < |answers| ==>
      Trim(answers[i].1) != [] && (answers[i].0 == Abilities ==> ParseAbilityInput(Trim(answers[i].1)).Some?)
  }

  /** Fields satisfied before or answered along the way are satisfied at the end. */
  lemma {:induction false} ApplyAllSatisfies(d: Draft, answers: seq<(Field, string)>, g: Field)
    requires MaxHPValid(d) && Usable(answers)
    requires HasFieldValue(d, g) || Answered(answers, g)
    ensures HasFieldValue(ApplyAll(d, answers), g)
    decreases |answers|
  {
    if answers != [] {
      var next := ApplyAnswer(d, answers[0].0, answers[0].1).draft;
      if HasFieldValue(d, g) {
        AnswerKeepsSatisfied(d, answers[0].0, answers[0].1, g);
      } else {
        var i :| 0 <= i < |answers| && answers[i].0 == g;
        if i == 0 {
          AnswerSatisfies(d, g, answers[0].1);
        } else {
          assert answers[1..][i - 1].0 == g;
          assert Answered(answers[1..], g);
        }
      }
      assert Usable(answers[1..]) by {
        forall i | 0 <= i < |answers[1..]| ensures Trim(answers[1..][i].1) != [] {
          assert answers[1..][i] == answers[i + 1];
        }
      }
      AnswerKeepsMaxHPValid(d, answers[0].0, answers[0].1);
      ApplyAllSatisfies(next, answers[1..], g);
    }
  }

  /**
   * Answering every field with a usable answer, in any order and from any
   * draft without an invalid `maxHP` (the empty draft, say), gives a complete
   * draft with nothing missing.
   */
  lemma AnswersComplete(d: Draft, answers: seq<(Field, string)>)
    requires MaxHPValid(d) && Usable(answers)
    requires forall f :: Answered(answers, f)
    ensures IsComplete(ApplyAll(d, answers)) && MissingFields(ApplyAll(d, answers)) == []
  {
    forall g ensures HasFieldValue(ApplyAll(d, answers), g) {
      ApplyAllSatisfies(d, answers, g);
    }
    CompleteIff(ApplyAll(d, answers));
  }
}
