/**
 * One conversational step of the character-creation phase of the session
 * state machine (`CharacterCreationState` of the state-machine module):
 * apply the answer to the pending question, then re-ask it, ask the next
 * question, or finish the character and move on to exploring.
 */
module CreationPhase {
  import opened Wrappers
  import opened Text
  import opened Core
  import opened CharacterCreation
  import opened DelegatingCreation

  datatype SessionPhase = CharacterCreationPhase | ExploringPhase

  /** What the machine remembers about a conversation between steps. */
  datatype SessionContext = SessionContext(
    sessionId: string,
    campaignId: Option<string>,
    draft: Option<Draft>,
    pendingField: Option<Field>,
    history: Option<seq<Message>>)

  datatype TransitionResult = TransitionResult(nextPhase: SessionPhase, output: string, context: SessionContext)

  const CREATED := "Character created! "
  const ENTERING := "\nEntering exploring phase..."

  const ASK_NAME := "What's the character's name?"
  const ASK_RACE := "What race is the character (e.g., Human, Elf, Dwarf)?"
  const ASK_CLASS := "What class does the character belong to (e.g., Fighter, Wizard)?"
  const ASK_LEVEL := "What level is the character? (1-20)"
  const ASK_ABILITIES :=
    "Provide ability scores for STR, DEX, CON, INT, WIS, CHA (e.g., '15 14 13 12 10 8') or say 'auto' for the standard array."
  const ASK_AC := "What is the character's armor class?"
  const ASK_MAX_HP := "What is the character's maximum hit points?"
  const ASK_HP := "What is the character's starting hit points?"
  const ASK_BACKSTORY := "Share a brief backstory (under 100 words)."

  /** `promptForField`: the state's own copy of the question for each field. */
  function PromptForField(f: Field): string {
    match f
    case Name => ASK_NAME
    case Race => ASK_RACE
    case Class => ASK_CLASS
    case Level => ASK_LEVEL
    case Abilities => ASK_ABILITIES
    case Ac => ASK_AC
    case MaxHP => ASK_MAX_HP
    case Hp => ASK_HP
    case Backstory => ASK_BACKSTORY
  }

  /** The state re-asks exactly the question the creation service asks. */
  lemma PromptForFieldAgrees(f: Field)
    ensures PromptForField(f) == Prompt(f)
  {
  }

  /** No question ends in white space. */
  lemma PromptEnd(f: Field)
    ensures PromptForField(f) != [] && !IsSpace(PromptForField(f)[|PromptForField(f)| - 1])
  {
    match f
    case Name => assert ASK_NAME[27] == '?';
    case Race => assert ASK_RACE[52] == '?';
    case Class => assert ASK_CLASS[63] == '?';
    case Level => assert ASK_LEVEL[34] == ')';
    case Abilities => assert ASK_ABILITIES[119] == '.';
    case Ac => assert ASK_AC[35] == '?';
    case MaxHP => assert ASK_MAX_HP[42] == '?';
    case Hp => assert ASK_HP[43] == '?';
    case Backstory => assert ASK_BACKSTORY[41] == '.';
  }

  /** `describeCharacter`: name, race, class, level, armor class and hit points. */
  function Describe(c: PlayerCharacter): string {
    c.name + " the " + c.race + " " + c.characterClass + " (Level " + IntToDecimal(c.level)
      + ", AC " + IntToDecimal(c.ac) + ", HP " + IntToDecimal(c.hp) + "/" + IntToDecimal(c.maxHP) + ")."
  }

  /** A finished character seen as a draft again, as the context stores it. */
  function DraftOf(c: PlayerCharacter): (d: Draft)
    ensures d.id == Some(c.id) && d.kind == Some(c.kind) && d.hp == Some(c.hp) && d.maxHP == Some(c.maxHP)
  {
    Draft(Some(c.id), Some(c.kind), Some(c.name), Some(c.race), Some(c.characterClass), Some(c.level),
      Some(c.abilities), Some(c.ac), Some(c.maxHP), Some(c.hp), Some(c.backstory))
  }

  /** Finalising the stored draft of a finished character gives back that character. */
  lemma FinalizeStored(d: Draft, freshId: string, otherId: string)
    requires Finalize(d, freshId).Ok?
    ensures IsComplete(DraftOf(Finalize(d, freshId).value))
    ensures Finalize(DraftOf(Finalize(d, freshId).value), otherId) == Finalize(d, freshId)
  {
    var c := Finalize(d, freshId).value;
    FinalizedIsSound(d, freshId);
    var s := DraftOf(c);
    CompleteIff(s);
    assert forall f :: HasFieldValue(s, f) by {
      forall f ensures HasFieldValue(s, f) {
        assert f.Name? || f.Race? || f.Class? || f.Level? || f.Abilities? || f.Ac? || f.MaxHP? || f.Hp? || f.Backstory?;
      }
    }
  }

  /**
   * After the pending answer (if any) was taken: finish a complete draft,
   * otherwise ask the first missing question. `ctx.draft`, when set, wins
   * over `draft`, the draft the step started from.
   */
  function Decide(ctx: SessionContext, draft: Draft, freshId: string): (r: TransitionResult)
    ensures r.context.sessionId == ctx.sessionId && r.context.campaignId == ctx.campaignId
    ensures r.context.history == ctx.history
    ensures r.nextPhase == ExploringPhase <==> IsComplete(ctx.draft.GetOr(draft))
  {
    var current := ctx.draft.GetOr(draft);
    if IsComplete(current) then
      var c := Finalize(current, freshId).value;
      TransitionResult(ExploringPhase, CREATED + Describe(c) + ENTERING, ctx.(draft := Some(DraftOf(c))))
    else
      match NextQuestion(current)
      case Some(q) =>
        TransitionResult(CharacterCreationPhase, q.prompt, ctx.(draft := Some(current), pendingField := Some(q.field)))
      case None =>
        TransitionResult(CharacterCreationPhase, PromptForField(Name), ctx.(draft := Some(current), pendingField := Some(Name)))
  }

  /**
   * `transition`. A pending question is answered first: an error re-asks it
   * (the draft the answer produced is kept), a rejected answer rejects the
   * whole step, a success clears the pending question. `extractor` is the
   * creation service's optional extractor and `freshId` the id a new
   * character would get.
   */
  function Transition(ctx: SessionContext, message: string, extractor: Option<Extractor>, freshId: string)
    : (r: Call<TransitionResult>)
    ensures r.Threw? <==> (ctx.pendingField.Some?
      && DelegatingCreation.ApplyAnswer(ctx.draft.GetOr(EMPTY_DRAFT), ctx.pendingField.value, message, extractor).Rejected?)
    ensures r.Returned? ==> var c := r.value.context;
      c.sessionId == ctx.sessionId && c.campaignId == ctx.campaignId && c.history == ctx.history
  {
    var draft := ctx.draft.GetOr(EMPTY_DRAFT);
    match ctx.pendingField
    case None => Returned(Decide(ctx, draft, freshId))
    case Some(f) =>
      match DelegatingCreation.ApplyAnswer(draft, f, message, extractor)
      case Rejected => Threw
      case Resolved(Applied(next, error)) =>
        if error.Some? && error.value != [] then
          Returned(TransitionResult(CharacterCreationPhase, Trim(error.value + "\n" + PromptForField(f)),
            ctx.(draft := Some(next), pendingField := Some(f))))
        else
          Returned(Decide(ctx.(draft := Some(next), pendingField := None), draft, freshId))
  }

  // ----- the errors an answer can report -----

  /** The messages `applyAnswerToDraft` reports. */
  predicate KnownError(e: string) {
    e == BLANK_ERROR || e == ABILITIES_ERROR || e == LEVEL_ERROR || e == AC_ERROR || e == MAX_HP_ERROR || e == HP_ERROR
  }

  lemma KnownErrorsTight(e: string)
    requires KnownError(e)
    ensures Tight(e) && e != []
  {
    if e == BLANK_ERROR {
      assert e[|e| - 1] == '.';
    } else if e == ABILITIES_ERROR {
      assert e[0] == 'U' && e[|e| - 1] == '.';
    } else if e == LEVEL_ERROR {
      assert e[|e| - 1] == '.';
    } else if e == AC_ERROR {
      assert e[|e| - 1] == '.';
    } else if e == MAX_HP_ERROR {
      assert e[|e| - 1] == '.';
    } else {
      assert e[|e| - 1] == '.';
    }
  }

  lemma LocalAnswerErrors(d: Draft, f: Field, trimmed: string)
    ensures LocalAnswer(d, f, trimmed).error.Some? ==> KnownError(LocalAnswer(d, f, trimmed).error.value)
  {
    if IsNumberField(f) {
      assert f.Level? || f.Ac? || f.MaxHP? || f.Hp?;
    }
  }

  lemma SuggestedErrors(d: Draft, f: Field, trimmed: string, delegated: bool, e: Extractor)
    ensures var r := Suggested(d, f, trimmed, delegated, e);
      r.Resolved? && r.applied.error.Some? ==> KnownError(r.applied.error.value)
  {
    LocalAnswerErrors(d, f, trimmed);
  }

  lemma ExtractedErrors(d: Draft, f: Field, trimmed: string, delegated: bool, e: Extractor)
    ensures var r := Extracted(d, f, trimmed, delegated, e);
      r.Resolved? && r.applied.error.Some? ==> KnownError(r.applied.error.value)
  {
    SuggestedErrors(d, f, trimmed, delegated, e);
  }

  /** Every error an answer reports is one of the fixed messages. */
  lemma AnswerErrors(d: Draft, f: Field, answer: string, extractor: Option<Extractor>)
    ensures var r := DelegatingCreation.ApplyAnswer(d, f, answer, extractor);
      r.Resolved? && r.applied.error.Some? ==> KnownError(r.applied.error.value)
  {
    var trimmed := Trim(answer);
    var r := DelegatingCreation.ApplyAnswer(d, f, answer, extractor);
    if trimmed != [] {
      var delegated := ComputeDelegation(trimmed, extractor);
      if extractor.None? {
        assert r == Resolved(LocalAnswer(d, f, trimmed));
        LocalAnswerErrors(d, f, trimmed);
      } else {
        var e := extractor.value;
        if IsTextField(f) {
          assert r == Suggested(d, f, trimmed, delegated, e);
          SuggestedErrors(d, f, trimmed, delegated, e);
        } else if !NeedsExtraction(f, trimmed) {
          assert r == Resolved(LocalAnswer(d, f, trimmed));
          LocalAnswerErrors(d, f, trimmed);
        } else {
          assert r == Extracted(d, f, trimmed, delegated, e);
          ExtractedErrors(d, f, trimmed, delegated, e);
        }
      }
    }
  }

  // ----- what a step does -----

  /** A context without a draft starts from the empty draft. */
  lemma MissingDraftIsEmpty(ctx: SessionContext, message: string, extractor: Option<Extractor>, freshId: string)
    requires ctx.draft.None?
    ensures Transition(ctx, message, extractor, freshId)
      == Transition(ctx.(draft := Some(EMPTY_DRAFT)), message, extractor, freshId)
  {
  }

  /**
   * An answer that reports an error keeps the phase, the pending question
   * and the draft, and replies with the error and the question again.
   */
  lemma ErrorReasks(ctx: SessionContext, message: string, extractor: Option<Extractor>, freshId: string)
    requires ctx.pendingField.Some?
    requires var a := DelegatingCreation.ApplyAnswer(ctx.draft.GetOr(EMPTY_DRAFT), ctx.pendingField.value, message, extractor);
      a.Resolved? && a.applied.error.Some?
    ensures var f := ctx.pendingField.value;
      var a := DelegatingCreation.ApplyAnswer(ctx.draft.GetOr(EMPTY_DRAFT), f, message, extractor);
      Transition(ctx, message, extractor, freshId) == Returned(TransitionResult(
        CharacterCreationPhase, a.applied.error.value + "\n" + Prompt(f),
        ctx.(draft := Some(ctx.draft.GetOr(EMPTY_DRAFT)), pendingField := Some(f))))
  {
    var d := ctx.draft.GetOr(EMPTY_DRAFT);
    var f := ctx.pendingField.value;
    var a := DelegatingCreation.ApplyAnswer(d, f, message, extractor);
    AnswerErrors(d, f, message, extractor);
    AnswerWellApplied(d, f, message, extractor);
    var e := a.applied.error.value;
    KnownErrorsTight(e);
    PromptForFieldAgrees(f);
    PromptEnd(f);
    var s := e + "\n" + PromptForField(f);
    assert s[0] == e[0] && s[|s| - 1] == PromptForField(f)[|PromptForField(f)| - 1];
    TrimTight(s);
  }

  /** The draft the step decides on: the answered one, or the stored one when nothing was pending. */
  function Settled(ctx: SessionContext, message: string, extractor: Option<Extractor>): Option<Draft> {
    var d := ctx.draft.GetOr(EMPTY_DRAFT);
    match ctx.pendingField
    case None => Some(d)
    case Some(f) =>
      match DelegatingCreation.ApplyAnswer(d, f, message, extractor)
      case Rejected => None
      case Resolved(a) => if a.error.Some? && a.error.value != [] then None else Some(a.draft)
  }

  /**
   * A complete draft (after the answer) moves to exploring with the
   * finished character stored, and the reply announces it.
   */
  lemma CompleteMovesOn(ctx: SessionContext, message: string, extractor: Option<Extractor>, freshId: string)
    requires Settled(ctx, message, extractor).Some? && IsComplete(Settled(ctx, message, extractor).value)
    ensures var d := Settled(ctx, message, extractor).value;
      var r := Transition(ctx, message, extractor, freshId);
      && Finalize(d, freshId).Ok?
      && r.Returned? && r.value.nextPhase == ExploringPhase
      && r.value.context.draft == Some(DraftOf(Finalize(d, freshId).value))
      && r.value.output == CREATED + Describe(Finalize(d, freshId).value) + ENTERING
  {
    var d := Settled(ctx, message, extractor).value;
    var start := ctx.draft.GetOr(EMPTY_DRAFT);
    if ctx.pendingField.None? {
      assert Transition(ctx, message, extractor, freshId) == Returned(Decide(ctx, start, freshId));
    } else {
      var f := ctx.pendingField.value;
      var a := DelegatingCreation.ApplyAnswer(start, f, message, extractor);
      assert a.Resolved? && a.applied.draft == d;
      assert Transition(ctx, message, extractor, freshId)
        == Returned(Decide(ctx.(draft := Some(d), pendingField := None), start, freshId));
    }
  }

  /**
   * An incomplete draft (after the answer) stays in creation, asks for the
   * first missing field and remembers it as pending; the fallback that asks
   * for the name regardless is never taken.
   */
  lemma IncompleteAsksNext(ctx: SessionContext, message: string, extractor: Option<Extractor>, freshId: string)
    requires Settled(ctx, message, extractor).Some? && !IsComplete(Settled(ctx, message, extractor).value)
    ensures var d := Settled(ctx, message, extractor).value;
      var f := MissingFields(d)[0];
      Transition(ctx, message, extractor, freshId) == Returned(TransitionResult(
        CharacterCreationPhase, Prompt(f), ctx.(draft := Some(d), pendingField := Some(f))))
  {
  }

  /** A step ends in exploring exactly when the answered draft is complete. */
  lemma ExploringIffComplete(ctx: SessionContext, message: string, extractor: Option<Extractor>, freshId: string)
    ensures var r := Transition(ctx, message, extractor, freshId);
      (r.Returned? && r.value.nextPhase == ExploringPhase)
        <==> (Settled(ctx, message, extractor).Some? && IsComplete(Settled(ctx, message, extractor).value))
  {
  }
}
