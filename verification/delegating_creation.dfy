/**
 * The asynchronous `CharacterCreationService` of
 * `apps/api/src/modules/character-creation/character-creation.service.ts`.
 * It shares the draft, the missing-field order, the next question and
 * `finalizeCharacter` with the other two copies (module CharacterCreation);
 * what differs is applying an answer: an optional extractor may read or
 * suggest a value, the user may delegate the choice, `parseInt` failures are
 * reported before clamping, and the abilities parser only knows the keywords.
 */
module DelegatingCreation {
  import opened Wrappers
  import opened Text
  import opened Core
  import opened AbilityInput
  import opened CharacterCreation
  import opened Extraction

  const LEVEL_ERROR := "Unable to parse level."
  const AC_ERROR := "Unable to parse armor class."
  const MAX_HP_ERROR := "Unable to parse maximum hit points."
  const HP_ERROR := "Unable to parse current hit points."

  // ----- the local delegation heuristic -----

  /** The phrases that mean "choose for me". */
  const DELEGATION_PHRASES: seq<string> := [
    "auto", "automatic", "random", "you decide", "you choose", "your choice",
    "up to you", "decide", "pick for me", "choose for me", "i don't care",
    "i dont care", "don't care", "dont care", "doesn't matter", "doesnt matter",
    "whatever", "anything works", "any value", "no preference", "you pick",
    "as you wish"]

  /** `phrases.some((p) => t.includes(p))`. */
  function SomeContained(t: string, phrases: seq<string>): (b: bool)
    ensures b <==> exists i :: 0 <= i < |phrases| && Contains(t, phrases[i])
  {
    if phrases == [] then false
    else
      var rest := SomeContained(t, phrases[1..]);
      assert forall i :: 1 <= i < |phrases| ==> phrases[i] == phrases[1..][i - 1];
      Contains(t, phrases[0]) || rest
  }

  /**
   * `localDelegationHeuristic`: the trimmed, lower-cased text contains one of
   * the delegation phrases.
   */
  function LocalDelegationHeuristic(text: string): bool
  {
    SomeContained(ToLower(Trim(text)), DELEGATION_PHRASES)
  }

  /** The heuristic fires exactly when some phrase occurs in the normalised text. */
  lemma LocalDelegationHeuristicIff(text: string)
    ensures LocalDelegationHeuristic(text) <==>
      exists i :: 0 <= i < |DELEGATION_PHRASES| && Contains(ToLower(Trim(text)), DELEGATION_PHRASES[i])
  {
  }

  /** A phrase at the start of a lower-case answer is found. */
  lemma DelegationPhraseFirst(i: nat, rest: string)
    requires i < |DELEGATION_PHRASES|
    requires Tight(DELEGATION_PHRASES[i] + rest) && NoUpper(DELEGATION_PHRASES[i] + rest)
    ensures LocalDelegationHeuristic(DELEGATION_PHRASES[i] + rest)
  {
    var t := DELEGATION_PHRASES[i] + rest;
    TrimTight(t);
    LowerUnchanged(t);
    assert DELEGATION_PHRASES[i] <= t;
  }

  // ----- the extractor oracle -----

  /** The settled outcome of one awaited call: it threw, or it returned a value. */
  datatype Call<T> = Threw | Returned(value: T)

  /**
   * What the injected extractor does for one answer: `detectDelegation`
   * (returning `None` models a non-boolean result), `extractCharacterUpdate`
   * and `suggestCharacterValues`. Each is called at most once per answer.
   */
  datatype Extractor = Extractor(
    detected: Call<Option<bool>>,
    extracted: Call<Update>,
    suggested: Call<Update>)

  /**
   * The extractor the application injects, `ExtractionService`, when the
   * model replies with the given texts (`None`: the chat call threw) and
   * `parse` stands for `JSON.parse`. Only the chat failures escape: the
   * service turns missing or unparsable JSON into `false` or `{}`.
   */
  function ServiceExtractor(
    classifierReply: Option<string>, extractionReply: Option<string>, suggestionReply: Option<string>,
    parse: string -> Option<JsonObject>): (e: Extractor)
    ensures classifierReply.Some? ==> e.detected == Returned(Some(DelegationFromReply(classifierReply.value, parse)))
    ensures extractionReply.Some? ==> e.extracted == Returned(UpdateFromReply(extractionReply.value, parse))
    ensures suggestionReply.Some? ==> e.suggested == Returned(UpdateFromReply(suggestionReply.value, parse))
    ensures classifierReply.None? <==> e.detected.Threw?
    ensures extractionReply.None? <==> e.extracted.Threw?
    ensures suggestionReply.None? <==> e.suggested.Threw?
  {
    Extractor(
      if classifierReply.Some? then Returned(Some(DelegationFromReply(classifierReply.value, parse))) else Threw,
      if extractionReply.Some? then Returned(UpdateFromReply(extractionReply.value, parse)) else Threw,
      if suggestionReply.Some? then Returned(UpdateFromReply(suggestionReply.value, parse)) else Threw)
  }

  /**
   * `computeDelegation`: the extractor's boolean verdict when it gives one;
   * otherwise (no extractor, a thrown call, a non-boolean) the local heuristic.
   */
  function ComputeDelegation(text: string, extractor: Option<Extractor>): (b: bool)
    ensures extractor.Some? && extractor.value.detected.Returned? && extractor.value.detected.value.Some? ==>
      b == extractor.value.detected.value.value
    ensures !(extractor.Some? && extractor.value.detected.Returned? && extractor.value.detected.value.Some?) ==>
      b == LocalDelegationHeuristic(text)
  {
    match extractor
    case Some(Extractor(Returned(Some(verdict)), _, _)) => verdict
    case _ => LocalDelegationHeuristic(text)
  }

  /** A classifier verdict overrides the heuristic; without a verdict the heuristic decides. */
  lemma DelegationSources(text: string, e: Extractor)
    ensures ComputeDelegation(text, None) == LocalDelegationHeuristic(text)
    ensures ComputeDelegation(text, Some(e.(detected := Returned(Some(false))))) == false
    ensures ComputeDelegation(text, Some(e.(detected := Returned(Some(true))))) == true
    ensures ComputeDelegation(text, Some(e.(detected := Threw))) == LocalDelegationHeuristic(text)
    ensures ComputeDelegation(text, Some(e.(detected := Returned(None)))) == LocalDelegationHeuristic(text)
  {
  }

  // ----- the keyword-only abilities parser -----

  /** This copy's `parseAbilityInput`: only the four keywords are understood. */
  function KeywordScores(answer: string): (r: Option<Scores>)
    ensures r.Some? <==> ToLower(Trim(answer)) in KEYWORDS
    ensures r.Some? ==> r.value == StandardScores(ABILITY_ORDER)
  {
    var normalized := ToLower(Trim(answer));
    if normalized == [] then None
    else if normalized in KEYWORDS then Some(StandardScores(ABILITY_ORDER))
    else None
  }

  /** Whatever this parser accepts, the full parser of the other copies accepts with the same scores. */
  lemma KeywordScoresAgree(answer: string)
    ensures KeywordScores(answer).Some? ==> ParseAbilityInput(answer) == KeywordScores(answer)
    ensures KeywordScores(answer).Some? ==> KeywordScores(answer) == Some(map[STR := 15, DEX := 14, CON := 13, INT := 12, WIS := 10, CHA := 8])
  {
    StandardDefault();
  }

  // ----- applying an answer -----

  /** The settled `applyAnswerToDraft` promise: it resolved, or it rejected because an extractor call threw. */
  datatype Outcome = Resolved(applied: Applied) | Rejected

  predicate IsTextField(f: Field) {
    f == Name || f == Race || f == Class || f == Backstory
  }

  /** `level`, `ac`, `maxHP` and `hp`: the fields that are neither text nor the score record. */
  predicate IsNumberField(f: Field) {
    !IsTextField(f) && f != Abilities
  }

  /** The text an update carries for a text field. */
  function TextOf(u: Update, f: Field): Option<string>
    requires IsTextField(f)
  {
    match f
    case Name => u.name
    case Race => u.race
    case Class => u.characterClass
    case Backstory => u.backstory
  }

  /** The number an update carries for a numeric field. */
  function NumberOf(u: Update, f: Field): Option<int>
    requires IsNumberField(f)
  {
    match f
    case Level => u.level
    case Ac => u.ac
    case MaxHP => u.maxHP
    case Hp => u.hp
  }

  /** The number a draft holds for a numeric field. */
  function StoredNumber(r: Draft, f: Field): Option<int>
    requires IsNumberField(f)
  {
    match f
    case Level => r.level
    case Ac => r.ac
    case MaxHP => r.maxHP
    case Hp => r.hp
  }

  /** The range a numeric field is clamped to. */
  function Lo(f: Field): int
    requires IsNumberField(f)
  {
    match f
    case Level => MIN_LEVEL
    case Ac => MIN_ARMOR_CLASS
    case _ => MIN_HIT_POINTS
  }

  function Hi(f: Field): int
    requires IsNumberField(f)
  {
    match f
    case Level => MAX_LEVEL
    case Ac => MAX_ARMOR_CLASS
    case _ => MAX_HIT_POINTS
  }

  /** The error a numeric field reports when `parseInt` fails. */
  function NumberError(f: Field): string
    requires IsNumberField(f)
  {
    match f
    case Level => LEVEL_ERROR
    case Ac => AC_ERROR
    case MaxHP => MAX_HP_ERROR
    case Hp => HP_ERROR
  }

  /** Whether an update carries a usable value for `f`: a non-empty string, any number, any score record. */
  predicate Offers(u: Update, f: Field) {
    if IsTextField(f) then TextOf(u, f).Some? && TextOf(u, f).value != []
    else if IsNumberField(f) then NumberOf(u, f).Some?
    else u.abilities.Some?
  }

  /** An update whose numbers lie in the ranges `normalizeUpdate` clamps to. */
  predicate UpdateInRange(u: Update) {
    forall f: Field :: IsNumberField(f) && NumberOf(u, f).Some? ==> Lo(f) <= NumberOf(u, f).value <= Hi(f)
  }

  /** `f` and `g` are `maxHP` and `hp`, whose answers may change each other. */
  predicate Coupled(f: Field, g: Field) {
    (f == MaxHP && g == Hp) || (f == Hp && g == MaxHP)
  }

  /** `r` differs from `d` at most in `f` and the field coupled to it; id and kind are kept. */
  predicate OnlyAnswered(d: Draft, r: Draft, f: Field) {
    && (forall g: Field :: g != f && !Coupled(f, g) ==> Value(r, g) == Value(d, g))
    && r.id == d.id && r.kind == d.kind
  }

  /** The number stored for a numeric `f` is present and in its range; other fields impose nothing. */
  predicate StoredInRange(r: Draft, f: Field) {
    IsNumberField(f) ==> StoredNumber(r, f).Some? && Lo(f) <= StoredNumber(r, f).value <= Hi(f)
  }

  /** After a `maxHP` or `hp` value is stored: `hp <= maxHP` and `maxHP` is set. */
  predicate HpSettled(r: Draft) {
    HpWithinMax(r) && r.maxHP.Some?
  }

  /** Store a text answer. */
  function StoreText(d: Draft, f: Field, text: string): (r: Draft)
    requires IsTextField(f)
    ensures Value(r, f) == Text(Some(text))
    ensures OnlyAnswered(d, r, f)
    ensures HpWithinMax(d) ==> HpWithinMax(r)
  {
    match f
    case Name => d.(name := Some(text))
    case Race => d.(race := Some(text))
    case Class => d.(characterClass := Some(text))
    case Backstory => d.(backstory := Some(text))
  }

  /**
   * Store a numeric answer: `level` and `ac` as they are, `maxHP` lowering a
   * larger `hp`, `hp` capped by `maxHP` (taking it as `maxHP` when none).
   */
  function StoreNumber(d: Draft, f: Field, n: int): (r: Draft)
    requires IsNumberField(f)
    ensures f == Level ==> r == d.(level := Some(n))
    ensures f == Ac ==> r == d.(ac := Some(n))
    ensures f == MaxHP ==> r == WithMaxHP(d, n)
    ensures f == Hp ==> r == WithHp(d, n)
    ensures OnlyAnswered(d, r, f)
    ensures HpWithinMax(d) ==> HpWithinMax(r)
    ensures f == MaxHP || f == Hp ==> HpSettled(r)
    ensures Lo(f) <= n <= Hi(f) && MaxHPValid(d) ==> StoredInRange(r, f)
  {
    match f
    case Level => d.(level := Some(n))
    case Ac => d.(ac := Some(n))
    case MaxHP => WithMaxHP(d, n)
    case Hp => WithHp(d, n)
  }

  /** The draft after taking `f` from an update. */
  function TakeOffer(d: Draft, f: Field, u: Update): (r: Draft)
    requires Offers(u, f)
    ensures OnlyAnswered(d, r, f)
    ensures HpWithinMax(d) ==> HpWithinMax(r)
    ensures f == MaxHP || f == Hp ==> HpSettled(r)
    ensures UpdateInRange(u) && MaxHPValid(d) ==> StoredInRange(r, f)
  {
    if IsTextField(f) then StoreText(d, f, TextOf(u, f).value)
    else if IsNumberField(f) then StoreNumber(d, f, NumberOf(u, f).value)
    else d.(abilities := u.abilities)
  }

  /** A numeric answer on its own: refused when `parseInt` fails, clamped otherwise. */
  function LocalNumber(d: Draft, f: Field, trimmed: string): (r: Applied)
    requires IsNumberField(f)
    ensures r.error.Some? <==> ParseInt(trimmed).None?
    ensures r.error.Some? ==> r.draft == d
    ensures OnlyAnswered(d, r.draft, f)
    ensures HpWithinMax(d) ==> HpWithinMax(r.draft)
    ensures r.error.None? && (f == MaxHP || f == Hp) ==> HpSettled(r.draft)
    ensures r.error.None? && MaxHPValid(d) ==> StoredInRange(r.draft, f)
  {
    match ParseInt(trimmed)
    case None => Applied(d, Some(NumberError(f)))
    case Some(n) => Applied(StoreNumber(d, f, Clamp(Some(n), Lo(f), Hi(f))), None)
  }

  /** An abilities answer on its own: a keyword gives the standard array, anything else is refused. */
  function LocalAbilities(d: Draft, trimmed: string): (r: Applied)
    ensures r.error.Some? <==> KeywordScores(trimmed).None?
    ensures r.error.Some? ==> r.draft == d
    ensures OnlyAnswered(d, r.draft, Abilities)
    ensures HpWithinMax(d) ==> HpWithinMax(r.draft)
  {
    match KeywordScores(trimmed)
    case None => Applied(d, Some(ABILITIES_ERROR))
    case Some(scores) => Applied(d.(abilities := Some(scores)), None)
  }

  /**
   * What the answer does on its own, after the extractor had nothing to
   * offer: text is stored trimmed, numbers are refused when `parseInt` fails
   * and clamped otherwise, abilities are refused unless a keyword is given.
   */
  function LocalAnswer(d: Draft, f: Field, trimmed: string): (r: Applied)
    ensures r.error.Some? ==> r.draft == d
    ensures r.error.Some? <==>
      (IsNumberField(f) && ParseInt(trimmed).None?) || (f == Abilities && KeywordScores(trimmed).None?)
    ensures OnlyAnswered(d, r.draft, f)
    ensures HpWithinMax(d) ==> HpWithinMax(r.draft)
    ensures r.error.None? && (f == MaxHP || f == Hp) ==> HpSettled(r.draft)
    ensures r.error.None? && MaxHPValid(d) ==> StoredInRange(r.draft, f)
  {
    if IsTextField(f) then Applied(StoreText(d, f, trimmed), None)
    else if IsNumberField(f) then LocalNumber(d, f, trimmed)
    else LocalAbilities(d, trimmed)
  }

  /** What every resolved answer keeps: errors leave the draft alone, and the frame, coupling and ranges hold. */
  predicate WellApplied(d: Draft, f: Field, r: Outcome, checked: bool) {
    r.Resolved? ==>
      && (r.applied.error.Some? ==> r.applied.draft == d)
      && OnlyAnswered(d, r.applied.draft, f)
      && (HpWithinMax(d) ==> HpWithinMax(r.applied.draft))
      && (r.applied.error.None? && (f == MaxHP || f == Hp) ==> HpSettled(r.applied.draft))
      && (checked && r.applied.error.None? && MaxHPValid(d) ==> StoredInRange(r.applied.draft, f))
  }

  /** The extractor only returns updates whose numbers are in range. */
  predicate ExtractorInRange(e: Extractor) {
    && (e.extracted.Returned? ==> UpdateInRange(e.extracted.value))
    && (e.suggested.Returned? ==> UpdateInRange(e.suggested.value))
  }

  /** Ask for a suggestion when the user delegated; fall back to the local answer. */
  function Suggested(d: Draft, f: Field, trimmed: string, delegated: bool, e: Extractor): (r: Outcome)
    ensures r.Rejected? <==> delegated && e.suggested.Threw?
    ensures WellApplied(d, f, r, ExtractorInRange(e))
  {
    if !delegated then Resolved(LocalAnswer(d, f, trimmed))
    else
      match e.suggested
      case Threw => Rejected
      case Returned(u) =>
        if Offers(u, f) then Resolved(Applied(TakeOffer(d, f, u), None))
        else Resolved(LocalAnswer(d, f, trimmed))
  }

  /** The test `/^\d+$/`: one or more ASCII digits and nothing else. */
  predicate DigitRun(s: string) {
    s != [] && DigitPrefix(s) == |s|
  }

  lemma DigitRunAllDigits(s: string)
    ensures DigitRun(s) <==> s != [] && AllDigits(s)
  {
    DigitPrefixDigits(s);
    if DigitRun(s) {
      assert s[..|s|] == s;
    }
  }

  /**
   * Whether the answer goes to `extractCharacterUpdate` first: numbers that
   * are not plain digit runs, abilities the keyword parser does not know.
   */
  predicate NeedsExtraction(f: Field, trimmed: string) {
    (IsNumberField(f) && !DigitRun(trimmed)) || (f == Abilities && KeywordScores(trimmed).None?)
  }

  /** Read the value out of the answer; when that yields nothing, ask for a suggestion. */
  function Extracted(d: Draft, f: Field, trimmed: string, delegated: bool, e: Extractor): (r: Outcome)
    ensures WellApplied(d, f, r, ExtractorInRange(e))
  {
    match e.extracted
    case Threw => Rejected
    case Returned(u) =>
      if Offers(u, f) then Resolved(Applied(TakeOffer(d, f, u), None))
      else Suggested(d, f, trimmed, delegated, e)
  }

  /**
   * `applyAnswerToDraft`. A blank answer is refused. Text fields take a
   * suggestion when the user delegated; numbers and abilities the answer
   * does not spell out are first extracted from the answer, then suggested
   * when delegated; whatever is left is the local answer.
   */
  function ApplyAnswer(d: Draft, f: Field, answer: string, extractor: Option<Extractor>): (r: Outcome)
    ensures Trim(answer) == [] ==> r == Resolved(Applied(d, Some(BLANK_ERROR)))
    ensures Trim(answer) != [] && extractor.None? ==> r == Resolved(LocalAnswer(d, f, Trim(answer)))
    ensures r.Rejected? ==> extractor.Some? && Trim(answer) != []
  {
    var trimmed := Trim(answer);
    if trimmed == [] then Resolved(Applied(d, Some(BLANK_ERROR)))
    else
      var delegated := ComputeDelegation(trimmed, extractor);
      match extractor
      case None => Resolved(LocalAnswer(d, f, trimmed))
      case Some(e) =>
        if IsTextField(f) then Suggested(d, f, trimmed, delegated, e)
        else if !NeedsExtraction(f, trimmed) then Resolved(LocalAnswer(d, f, trimmed))
        else Extracted(d, f, trimmed, delegated, e)
  }

  // ----- what an answer does -----

  /**
   * Every resolved answer, from whichever branch, changes only its field
   * (and the `maxHP`/`hp` coupling), keeps `hp <= maxHP`, leaves the draft
   * alone when it reports an error, and stores numbers in range unless the
   * extractor handed over one out of range.
   */
  lemma AnswerWellApplied(d: Draft, f: Field, answer: string, extractor: Option<Extractor>)
    ensures WellApplied(d, f, ApplyAnswer(d, f, answer, extractor), extractor.None? || ExtractorInRange(extractor.value))
  {
    var trimmed := Trim(answer);
    var r := ApplyAnswer(d, f, answer, extractor);
    if trimmed != [] && extractor.Some? {
      var e := extractor.value;
      var delegated := ComputeDelegation(trimmed, extractor);
      if IsTextField(f) {
        assert r == Suggested(d, f, trimmed, delegated, e);
      } else if !NeedsExtraction(f, trimmed) {
        assert r == Resolved(LocalAnswer(d, f, trimmed));
      } else {
        assert r == Extracted(d, f, trimmed, delegated, e);
      }
    }
  }

  /**
   * Without an extractor a numeric answer `parseInt` cannot read is refused
   * with that field's error, and one it reads is stored clamped.
   */
  lemma NoExtractorNumbers(d: Draft, answer: string)
    requires Trim(answer) != []
    ensures ParseInt(Trim(answer)).None? ==>
      && ApplyAnswer(d, Level, answer, None) == Resolved(Applied(d, Some(LEVEL_ERROR)))
      && ApplyAnswer(d, Ac, answer, None) == Resolved(Applied(d, Some(AC_ERROR)))
      && ApplyAnswer(d, MaxHP, answer, None) == Resolved(Applied(d, Some(MAX_HP_ERROR)))
      && ApplyAnswer(d, Hp, answer, None) == Resolved(Applied(d, Some(HP_ERROR)))
    ensures ParseInt(Trim(answer)).Some? ==>
      var n := ParseInt(Trim(answer));
      && ApplyAnswer(d, Level, answer, None) == Resolved(Applied(d.(level := Some(Clamp(n, MIN_LEVEL, MAX_LEVEL))), None))
      && ApplyAnswer(d, Ac, answer, None) == Resolved(Applied(d.(ac := Some(Clamp(n, MIN_ARMOR_CLASS, MAX_ARMOR_CLASS))), None))
      && ApplyAnswer(d, MaxHP, answer, None) == Resolved(Applied(WithMaxHP(d, Clamp(n, MIN_HIT_POINTS, MAX_HIT_POINTS)), None))
      && ApplyAnswer(d, Hp, answer, None) == Resolved(Applied(WithHp(d, Clamp(n, MIN_HIT_POINTS, MAX_HIT_POINTS)), None))
  {
    var t := Trim(answer);
    assert ApplyAnswer(d, Level, answer, None) == Resolved(LocalAnswer(d, Level, t));
    assert ApplyAnswer(d, Ac, answer, None) == Resolved(LocalAnswer(d, Ac, t));
    assert ApplyAnswer(d, MaxHP, answer, None) == Resolved(LocalAnswer(d, MaxHP, t));
    assert ApplyAnswer(d, Hp, answer, None) == Resolved(LocalAnswer(d, Hp, t));
  }

  /** Without an extractor only the four keywords are understood as ability scores. */
  lemma NoExtractorAbilities(d: Draft, answer: string)
    requires Trim(answer) != []
    ensures ApplyAnswer(d, Abilities, answer, None) ==
      if ToLower(Trim(answer)) in KEYWORDS
      then Resolved(Applied(d.(abilities := Some(StandardScores(ABILITY_ORDER))), None))
      else Resolved(Applied(d, Some(ABILITIES_ERROR)))
  {
    var t := Trim(answer);
    assert ApplyAnswer(d, Abilities, answer, None) == Resolved(LocalAnswer(d, Abilities, t));
  }

  /**
   * A number or abilities answer that needs no extraction gives the same
   * result with or without an extractor.
   */
  lemma SpelledOutStaysLocal(d: Draft, f: Field, answer: string, e: Extractor)
    requires !IsTextField(f) && !NeedsExtraction(f, Trim(answer))
    ensures ApplyAnswer(d, f, answer, Some(e)) == ApplyAnswer(d, f, answer, None)
  {
    if Trim(answer) != [] {
      assert ApplyAnswer(d, f, answer, Some(e)) == Resolved(LocalAnswer(d, f, Trim(answer)));
    }
  }

  /**
   * A number or abilities answer the answer itself does not spell out goes
   * to the extractor first, with the delegation verdict for the suggestion.
   */
  lemma ExtractionFirst(d: Draft, f: Field, answer: string, e: Extractor)
    requires !IsTextField(f) && Trim(answer) != [] && NeedsExtraction(f, Trim(answer))
    ensures ApplyAnswer(d, f, answer, Some(e)) ==
      Extracted(d, f, Trim(answer), ComputeDelegation(Trim(answer), Some(e)), e)
  {
  }

  /**
   * A delegated number or abilities answer from which nothing could be
   * extracted takes the suggested value.
   */
  lemma DelegatedTakesSuggestion(d: Draft, f: Field, answer: string, e: Extractor)
    requires !IsTextField(f) && Trim(answer) != [] && NeedsExtraction(f, Trim(answer))
    requires e.detected == Returned(Some(true)) && e.extracted.Returned? && !Offers(e.extracted.value, f)
    requires e.suggested.Returned? && Offers(e.suggested.value, f)
    ensures ApplyAnswer(d, f, answer, Some(e)) == Resolved(Applied(TakeOffer(d, f, e.suggested.value), None))
  {
    ExtractionFirst(d, f, answer, e);
    assert ComputeDelegation(Trim(answer), Some(e));
  }

  /** `parseInt` reads a run of digits. */
  lemma DigitRunParses(t: string)
    requires DigitRun(t)
    ensures ParseInt(t).Some?
  {
    DigitRunAllDigits(t);
    assert IsDigit(t[0]);
  }

  /** A run of digits is read by `parseInt`, so the local answer accepts it. */
  lemma LocalDigits(d: Draft, f: Field, t: string)
    requires IsNumberField(f) && DigitRun(t)
    ensures LocalAnswer(d, f, t).error.None?
  {
    DigitRunParses(t);
  }

  /** A numeric answer made of digits never consults the extractor and is never refused. */
  lemma DigitsStayLocal(d: Draft, f: Field, answer: string, e: Extractor)
    requires IsNumberField(f) && DigitRun(Trim(answer))
    ensures ApplyAnswer(d, f, answer, Some(e)) == ApplyAnswer(d, f, answer, None)
    ensures ApplyAnswer(d, f, answer, None) == Resolved(LocalAnswer(d, f, Trim(answer)))
    ensures ApplyAnswer(d, f, answer, None).applied.error.None?
  {
    var t := Trim(answer);
    assert t != [] && !NeedsExtraction(f, t);
    SpelledOutStaysLocal(d, f, answer, e);
    LocalDigits(d, f, t);
    assert ApplyAnswer(d, f, answer, None) == Resolved(LocalAnswer(d, f, t));
  }

  /**
   * A text field stores the suggestion exactly when the user delegated and
   * the extractor suggested a non-empty value; otherwise the trimmed answer.
   */
  lemma TextFieldChoice(d: Draft, f: Field, answer: string, e: Extractor)
    requires IsTextField(f) && Trim(answer) != []
    requires e.suggested.Returned?
    ensures var delegated := ComputeDelegation(Trim(answer), Some(e));
      var u := e.suggested.value;
      ApplyAnswer(d, f, answer, Some(e)) ==
        if delegated && Offers(u, f) then Resolved(Applied(TakeOffer(d, f, u), None))
        else Resolved(LocalAnswer(d, f, Trim(answer)))
  {
    var t := Trim(answer);
    assert ApplyAnswer(d, f, answer, Some(e)) == Suggested(d, f, t, ComputeDelegation(t, Some(e)), e);
  }

  /** The values `ExtractionService` hands over are in their ranges, whatever the model replied. */
  lemma ServiceUpdateRanges(reply: string, parse: string -> Option<JsonObject>)
    ensures UpdateInRange(UpdateFromReply(reply, parse))
  {
    var json := FirstJsonObject(reply);
    if json.Some? && parse(json.value).Some? {
      NormalizedRanges(parse(json.value).value);
    }
  }

  /**
   * With the application's `ExtractionService`, a resolved numeric answer
   * is stored inside its range whichever branch supplied it (the `hp` lower
   * bound needs a valid `maxHP`, as in the other copies).
   */
  lemma ServiceAnswersInRange(
    d: Draft, f: Field, answer: string,
    classifierReply: Option<string>, extractionReply: Option<string>, suggestionReply: Option<string>,
    parse: string -> Option<JsonObject>)
    requires MaxHPValid(d)
    ensures var e := ServiceExtractor(classifierReply, extractionReply, suggestionReply, parse);
      var r := ApplyAnswer(d, f, answer, Some(e));
      r.Resolved? && r.applied.error.None? ==> StoredInRange(r.applied.draft, f)
  {
    var e := ServiceExtractor(classifierReply, extractionReply, suggestionReply, parse);
    if extractionReply.Some? {
      ServiceUpdateRanges(extractionReply.value, parse);
    }
    if suggestionReply.Some? {
      ServiceUpdateRanges(suggestionReply.value, parse);
    }
    assert ExtractorInRange(e);
    AnswerWellApplied(d, f, answer, Some(e));
  }

  // ----- the delegation examples -----

  /** "I don't care" for the armor class, with a classifier that says so and a suggestion of 12, stores 12. */
  lemma DelegatedArmorClass()
    ensures var e := Extractor(Returned(Some(true)), Returned(EMPTY_UPDATE), Returned(EMPTY_UPDATE.(ac := Some(12))));
      ApplyAnswer(EMPTY_DRAFT, Ac, "I don't care", Some(e)) == Resolved(Applied(EMPTY_DRAFT.(ac := Some(12)), None))
  {
    var answer := "I don't care";
    assert Tight(answer) && !IsDigit(answer[0]);
    TrimTight(answer);
    assert DigitPrefix(answer) == 0;
    var e := Extractor(Returned(Some(true)), Returned(EMPTY_UPDATE), Returned(EMPTY_UPDATE.(ac := Some(12))));
    DelegatedTakesSuggestion(EMPTY_DRAFT, Ac, answer, e);
  }

  /** "you decide" for the backstory, with a suggested text, stores that text. */
  lemma DelegatedBackstory(story: string)
    requires story != []
    ensures var e := Extractor(Returned(Some(true)), Returned(EMPTY_UPDATE), Returned(EMPTY_UPDATE.(backstory := Some(story))));
      ApplyAnswer(EMPTY_DRAFT, Backstory, "you decide", Some(e)) == Resolved(Applied(EMPTY_DRAFT.(backstory := Some(story)), None))
  {
    var answer := "you decide";
    assert Tight(answer);
    TrimTight(answer);
    var e := Extractor(Returned(Some(true)), Returned(EMPTY_UPDATE), Returned(EMPTY_UPDATE.(backstory := Some(story))));
    TextFieldChoice(EMPTY_DRAFT, Backstory, answer, e);
    assert ComputeDelegation(answer, Some(e));
  }
}
