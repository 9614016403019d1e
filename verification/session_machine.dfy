/**
 * `StateMachineService`: the per-session map of phase and context. Each
 * step records the user's message, lets the handler of the session's phase
 * answer, records the reply and stores the new phase and context.
 */
module SessionMachine {
  import opened Wrappers
  import opened Core
  import opened CharacterCreation
  import opened DelegatingCreation
  import opened CreationPhase

  /** What the map holds for one session. */
  datatype Session = Session(phase: SessionPhase, ctx: SessionContext)

  /** What `step` returns. */
  datatype StepResult = StepResult(
    sessionId: string, phase: SessionPhase, output: string, draft: Option<Draft>, pendingField: Option<Field>)

  /** What `getSession` returns for a known session. */
  datatype SessionView = SessionView(
    sessionId: string, phase: SessionPhase, draft: Option<Draft>, pendingField: Option<Field>)

  datatype Handler = CreationHandler | ExploringHandler

  /**
   * What a step depends on besides the map: the creation service's optional
   * extractor, the id a finished character would get, and the exploring
   * handler, which forwards the conversation to the language model.
   */
  datatype Services = Services(
    extractor: Option<Extractor>,
    freshId: string,
    explore: SessionContext -> Call<TransitionResult>)

  /** `getHandler`: exploring for the exploring phase, character creation for every other. */
  function GetHandler(phase: SessionPhase): (h: Handler)
    ensures h == ExploringHandler <==> phase == ExploringPhase
  {
    match phase
    case ExploringPhase => ExploringHandler
    case _ => CreationHandler
  }

  /** The session a step starts from: the stored one, or a new one in character creation with no history. */
  function Existing(sessions: map<string, Session>, sessionId: string): Session {
    if sessionId in sessions then sessions[sessionId]
    else Session(CharacterCreationPhase, SessionContext(sessionId, None, None, None, Some([])))
  }

  /** The context the handler sees: the stored history (none counts as empty) and the user's message. */
  function WithUser(ctx: SessionContext, message: string): SessionContext {
    ctx.(history := Some(ctx.history.GetOr([]) + [Message(User, message)]))
  }

  /** Let the handler of `phase` answer. */
  function Dispatch(phase: SessionPhase, ctx: SessionContext, message: string, services: Services): Call<TransitionResult> {
    match GetHandler(phase)
    case CreationHandler => Transition(ctx, message, services.extractor, services.freshId)
    case ExploringHandler => services.explore(ctx)
  }

  /** The session stored after the handler answered: its phase, its context and the reply appended. */
  function Stored(r: TransitionResult, withUser: SessionContext): Session {
    var history := r.context.history.GetOr(withUser.history.GetOr([]));
    Session(r.nextPhase, r.context.(history := Some(history + [Message(Assistant, r.output)])))
  }

  /** One step on a snapshot of the map: the stored session and the reply, or the handler's failure. */
  function StepSpec(sessions: map<string, Session>, sessionId: string, message: string, services: Services)
    : Call<(Session, string)>
  {
    var existing := Existing(sessions, sessionId);
    var withUser := WithUser(existing.ctx, message);
    match Dispatch(existing.phase, withUser, message, services)
    case Threw => Threw
    case Returned(r) => Returned((Stored(r, withUser), r.output))
  }

  function View(sessionId: string, s: Session): SessionView {
    SessionView(sessionId, s.phase, s.ctx.draft, s.ctx.pendingField)
  }

  class StateMachineService {
    var sessions: map<string, Session>
    /** The ids of the sessions a step has stored. */
    ghost var stepped: set<string>

    ghost predicate Valid()
      reads this
    {
      sessions.Keys == stepped
    }

    constructor()
      ensures Valid() && sessions == map[] && stepped == {}
    {
      sessions := map[];
      stepped := {};
    }

    /**
     * `step`. A handler that throws rejects the step and nothing is stored;
     * otherwise exactly the entry of `sessionId` is replaced.
     */
    method Step(sessionId: string, message: string, services: Services) returns (r: Call<StepResult>)
      requires Valid()
      modifies this
      ensures Valid()
      ensures r.Threw? <==> StepSpec(old(sessions), sessionId, message, services).Threw?
      ensures r.Threw? ==> sessions == old(sessions) && stepped == old(stepped)
      ensures r.Returned? ==>
        var (s, output) := StepSpec(old(sessions), sessionId, message, services).value;
        && sessions == old(sessions)[sessionId := s]
        && stepped == old(stepped) + {sessionId}
        && r.value == StepResult(sessionId, s.phase, output, s.ctx.draft, s.ctx.pendingField)
      ensures forall id :: id != sessionId && id in old(sessions) ==> id in sessions && sessions[id] == old(sessions)[id]
    {
      var existing := Session(CharacterCreationPhase, SessionContext(sessionId, None, None, None, Some([])));
      if sessionId in sessions {
        existing := sessions[sessionId];
      }
      var history := existing.ctx.history.GetOr([]);
      var withUser := existing.ctx.(history := Some(history + [Message(User, message)]));
      var handler := GetHandler(existing.phase);
      var outcome;
      if handler == ExploringHandler {
        outcome := services.explore(withUser);
      } else {
        outcome := Transition(withUser, message, services.extractor, services.freshId);
      }
      if outcome.Threw? {
        return Threw;
      }
      var TransitionResult(nextPhase, output, context) := outcome.value;
      var nextHistory := context.history.GetOr(withUser.history.GetOr([])) + [Message(Assistant, output)];
      var nextCtx := context.(history := Some(nextHistory));
      sessions := sessions[sessionId := Session(nextPhase, nextCtx)];
      stepped := stepped + {sessionId};
      r := Returned(StepResult(sessionId, nextPhase, output, nextCtx.draft, nextCtx.pendingField));
    }

    /** `getSession`: nothing for an id no step has stored, otherwise its phase, draft and pending field. */
    function GetSession(sessionId: string): (r: Option<SessionView>)
      reads this
      requires Valid()
      ensures r.None? <==> sessionId !in stepped
      ensures r.Some? ==> r.value == View(sessionId, sessions[sessionId])
    {
      if sessionId in sessions then Some(View(sessionId, sessions[sessionId])) else None
    }
  }

  // ----- what a step does -----

  /**
   * A step in character creation passes the handler the history with the
   * user's message appended, and stores that history followed by exactly one
   * assistant message holding the reply; the stored phase is the handler's.
   */
  lemma CreationStepHistory(sessions: map<string, Session>, sessionId: string, message: string, services: Services)
    requires Existing(sessions, sessionId).phase == CharacterCreationPhase
    requires StepSpec(sessions, sessionId, message, services).Returned?
    ensures var before := Existing(sessions, sessionId).ctx;
      var (s, output) := StepSpec(sessions, sessionId, message, services).value;
      var r := Transition(WithUser(before, message), message, services.extractor, services.freshId);
      && r.Returned? && s.phase == r.value.nextPhase && output == r.value.output
      && s.ctx.history == Some(before.history.GetOr([]) + [Message(User, message), Message(Assistant, output)])
      && s.ctx.sessionId == before.sessionId
  {
    var before := Existing(sessions, sessionId).ctx;
    var withUser := WithUser(before, message);
    var r := Transition(withUser, message, services.extractor, services.freshId);
    assert r.Returned?;
    assert r.value.context.history == withUser.history;
    assert before.history.GetOr([]) + [Message(User, message)] + [Message(Assistant, r.value.output)]
      == before.history.GetOr([]) + [Message(User, message), Message(Assistant, r.value.output)];
  }

  /** An unknown session starts in character creation, with the user's message as its whole history. */
  lemma UnknownSessionStarts(sessions: map<string, Session>, sessionId: string, message: string, services: Services)
    requires sessionId !in sessions
    ensures Existing(sessions, sessionId).phase == CharacterCreationPhase
    ensures WithUser(Existing(sessions, sessionId).ctx, message)
      == SessionContext(sessionId, None, None, None, Some([Message(User, message)]))
  {
    assert [] + [Message(User, message)] == [Message(User, message)];
  }

  /**
   * The first message of a new session only opens the interview: the
   * session stays in character creation, waiting for the name, and the
   * reply is the name question.
   */
  lemma FirstStepAsksName(sessions: map<string, Session>, sessionId: string, message: string, services: Services)
    requires sessionId !in sessions
    ensures var r := StepSpec(sessions, sessionId, message, services);
      && r.Returned?
      && r.value.0.phase == CharacterCreationPhase
      && r.value.0.ctx.pendingField == Some(Name)
      && r.value.0.ctx.draft == Some(EMPTY_DRAFT)
      && r.value.1 == Prompt(Name)
  {
    var ctx := SessionContext(sessionId, None, None, None, Some([Message(User, message)]));
    EmptyDraftAsksName();
    assert !IsComplete(EMPTY_DRAFT);
    IncompleteAsksNext(ctx, message, services.extractor, services.freshId);
  }
}
