/**
 * The dungeon-master state chart (`dmMachine`): five states, the events
 * that move between them, the guards, and the context updates of its
 * actions. Every action only appends to the log.
 */
module DmMachine {
  import opened Wrappers
  import opened Text

  datatype DMState = SessionSetup | Exploration | Check | Combat | Meta

  /** The state's name, as the chart stores it in the world flags. */
  function StateName(s: DMState): string {
    match s
    case SessionSetup => "SESSION_SETUP"
    case Exploration => "EXPLORATION"
    case Check => "CHECK"
    case Combat => "COMBAT"
    case Meta => "META"
  }

  lemma StateNameInjective(s: DMState, t: DMState)
    requires StateName(s) == StateName(t)
    ensures s == t
  {
  }

  datatype Player = Player(name: string, abilities: map<string, int>)

  datatype PendingCheck = PendingCheck(ability: string, dc: int, reason: string)

  datatype World = World(location: string, flags: map<string, string>)

  datatype CombatState = CombatState(enemies: seq<string>)

  /** The chart's context; the dice function `rng` lives in the seeded-random model. */
  datatype DMContext = DMContext(
    sessionId: string,
    player: Option<Player>,
    world: World,
    pendingCheck: Option<PendingCheck>,
    combat: Option<CombatState>,
    log: seq<string>)

  datatype CombatOutcome = Victory | Defeat | Flee

  datatype DMEvent =
    | UserMessage(input: string)
    | SuggestCheck(check: PendingCheck, narration: string)
    | DiceRollResult(roll: int, formula: string)
    | StartCombat(enemies: seq<string>, startNarration: Option<string>)
    | EndCombat(outcome: CombatOutcome, endNarration: Option<string>)
    | Save(slot: Option<string>)
    | Load

  const RETURN_FLAG := "__returnState"
  const DEFAULT_NAME := "Wanderer"
  const UNKNOWN_FOE := "Unknown foe"
  const SUCCESS := "Success! Fortune favors you."
  const FAILURE := "Failure. Trouble brews."
  const STEADY := "The narrative holds steady."
  const PERCEPTION_CHECK := PendingCheck("Perception", 12, "scouring the area")
  const ABILITY_NAMES: seq<string> := ["STR", "DEX", "CON", "INT", "WIS", "CHA"]

  /** `createInitialContext`: in the tavern, no flags, nothing logged. */
  function InitialContext(sessionId: string): DMContext {
    DMContext(sessionId, None, World("Tavern of Beginnings", map[]), None, None, [])
  }

  datatype Narration = Narration(narration: string, suggestedCheck: Option<PendingCheck>)

  /** `text.toLowerCase().match(/search|investigate/)`. */
  predicate MentionsSearch(text: string) {
    var lower := ToLower(text);
    Contains(lower, "search") || Contains(lower, "investigate")
  }

  /** `narrate`: the line the narrator adds for an event in a state. */
  function Narrate(state: DMState, ctx: DMContext, event: DMEvent): (r: Narration)
    ensures r.suggestedCheck.Some? ==> r.suggestedCheck == Some(PERCEPTION_CHECK)
  {
    match event
    case UserMessage(input) =>
      var text := Trim(input);
      if state == SessionSetup then
        var name := if ctx.player.Some? then ctx.player.value.name else "Adventurer";
        Narration("Welcome, " + name + ". Session ready.", None)
      else if "/save" <= text then Narration("Acknowledged. Meta options unlocked.", None)
      else if MentionsSearch(text) then Narration("Shadows hide secrets among the clutter.", Some(PERCEPTION_CHECK))
      else Narration("The world listens closely to your intent.", None)
    case SuggestCheck(_, narration) => Narration(narration, None)
    case StartCombat(_, narration) => Narration(narration.GetOr("Danger erupts; blades are drawn."), None)
    case EndCombat(_, narration) => Narration(narration.GetOr("The clash fades and quiet returns."), None)
    case DiceRollResult(roll, _) =>
      if ctx.pendingCheck.Some? then
        Narration(if roll >= ctx.pendingCheck.value.dc then SUCCESS else FAILURE, None)
      else Narration(STEADY, None)
    case _ => Narration(STEADY, None)
  }

  /** A roll against a pending check succeeds exactly when it reaches the difficulty. */
  lemma NarrateRoll(state: DMState, ctx: DMContext, roll: int, formula: string)
    requires ctx.pendingCheck.Some?
    ensures Narrate(state, ctx, DiceRollResult(roll, formula)).narration == SUCCESS <==> roll >= ctx.pendingCheck.value.dc
    ensures Narrate(state, ctx, DiceRollResult(roll, formula)).narration == FAILURE <==> roll < ctx.pendingCheck.value.dc
  {
    assert SUCCESS[0] != FAILURE[0];
  }

  // ----- the actions -----

  /**
   * `applySetup`: the player is named by the trimmed message, or "Wanderer";
   * every ability is 10. `pushLog` appends one entry, so the welcome
   * narration handed to it as a third argument never reaches the log.
   */
  function ApplySetup(ctx: DMContext, input: string): DMContext {
    var name := if Trim(input) == [] then DEFAULT_NAME else Trim(input);
    var player := Player(name, map["STR" := 10, "DEX" := 10, "CON" := 10, "INT" := 10, "WIS" := 10, "CHA" := 10]);
    ctx.(player := Some(player), log := ctx.log + ["Player ready: " + name + "."])
  }

  /** `logExploration`: narrate, take up a suggested check, and point "/save" at the save event. */
  function LogExploration(ctx: DMContext, input: string): DMContext {
    var story := Narrate(Exploration, ctx, UserMessage(input));
    var log := ctx.log + [story.narration];
    var pending := if story.suggestedCheck.Some? then story.suggestedCheck else ctx.pendingCheck;
    if "/save" <= input then ctx.(pendingCheck := pending, log := log + ["Use SYSTEM.SAVE to persist."])
    else ctx.(pendingCheck := pending, log := log)
  }

  /** `acceptCheck`. */
  function AcceptCheck(ctx: DMContext, check: PendingCheck, narration: string): DMContext {
    ctx.(pendingCheck := Some(check), log := ctx.log + [Narrate(Check, ctx, SuggestCheck(check, narration)).narration])
  }

  /**
   * `resolveCheck`: log the roll against the difficulty; nothing without a
   * check. As in `applySetup`, the narration passed to `pushLog` after the
   * entry is dropped.
   */
  function ResolveCheck(ctx: DMContext, roll: int, formula: string): DMContext {
    match ctx.pendingCheck
    case None => ctx
    case Some(check) =>
      var line := "Roll " + IntToDecimal(roll) + " (" + formula + ") vs DC " + IntToDecimal(check.dc) + ".";
      ctx.(log := ctx.log + [line])
  }

  /** `enterCombat`: the enemies of a start-combat event, otherwise an unknown foe. */
  function EnterCombat(ctx: DMContext, event: DMEvent): DMContext {
    var enemies := if event.StartCombat? then event.enemies else [UNKNOWN_FOE];
    ctx.(combat := Some(CombatState(enemies)), log := ctx.log + [Narrate(Combat, ctx, event).narration])
  }

  /** `endCombat`. */
  function EndCombatAction(ctx: DMContext, event: DMEvent): DMContext {
    ctx.(combat := None, log := ctx.log + [Narrate(Combat, ctx, event).narration])
  }

  /** `clearCheck`, the exit action of CHECK. */
  function ClearCheck(ctx: DMContext): DMContext {
    ctx.(pendingCheck := None)
  }

  /** `rememberState`: note the state being left under the return flag. */
  function RememberState(ctx: DMContext, source: DMState): DMContext {
    ctx.(world := ctx.world.(flags := ctx.world.flags[RETURN_FLAG := StateName(source)]),
         log := ctx.log + ["Entering meta control."])
  }

  /** `clearReturn`: drop the return flag. */
  function ClearReturn(ctx: DMContext): DMContext {
    ctx.(world := ctx.world.(flags := ctx.world.flags - {RETURN_FLAG}), log := ctx.log + ["Resuming play."])
  }

  /** `returning(state)`: the return flag names `state`. */
  predicate Returning(ctx: DMContext, s: DMState) {
    RETURN_FLAG in ctx.world.flags && ctx.world.flags[RETURN_FLAG] == StateName(s)
  }

  /** Leave META for the remembered state: COMBAT, then CHECK, else EXPLORATION. */
  function Resume(ctx: DMContext): (DMState, DMContext) {
    if Returning(ctx, Combat) then (Combat, ClearReturn(ctx))
    else if Returning(ctx, Check) then (Check, ClearReturn(ctx))
    else (Exploration, ClearReturn(ctx))
  }

  /** The failed-check guard of CHECK: a pending check the roll falls short of. */
  predicate CheckFails(ctx: DMContext, roll: int) {
    ctx.pendingCheck.Some? && roll < ctx.pendingCheck.value.dc
  }

  /**
   * The transition table. An event a state does not handle changes
   * nothing. Guards read the context before the step; actions then run in
   * the order exit, transition, so leaving CHECK clears the pending check
   * before the transition's own actions see the context.
   */
  function Next(state: DMState, ctx: DMContext, event: DMEvent): (DMState, DMContext) {
    match (state, event)
    case (SessionSetup, UserMessage(input)) => (Exploration, ApplySetup(ctx, input))
    case (Exploration, UserMessage(input)) => (Exploration, LogExploration(ctx, input))
    case (Exploration, SuggestCheck(check, narration)) => (Check, AcceptCheck(ctx, check, narration))
    case (Exploration, StartCombat(_, _)) => (Combat, EnterCombat(ctx, event))
    case (Exploration, Save(_)) => (Meta, RememberState(ctx, Exploration))
    case (Exploration, Load) => (Meta, RememberState(ctx, Exploration))
    case (Check, DiceRollResult(roll, formula)) =>
      if CheckFails(ctx, roll) then (Combat, EnterCombat(ResolveCheck(ClearCheck(ctx), roll, formula), event))
      else (Exploration, ResolveCheck(ClearCheck(ctx), roll, formula))
    case (Check, StartCombat(_, _)) => (Combat, EnterCombat(ClearCheck(ctx), event))
    case (Combat, EndCombat(_, _)) => (Exploration, EndCombatAction(ctx, event))
    case (Combat, Save(_)) => (Meta, RememberState(ctx, Combat))
    case (Combat, Load) => (Meta, RememberState(ctx, Combat))
    case (Meta, Save(_)) => (Meta, ctx.(log := ctx.log + ["Progress saved (mock)."]))
    case (Meta, Load) => Resume(ctx)
    case (Meta, UserMessage(_)) => Resume(ctx)
    case _ => (state, ctx)
  }

  /** A sequence of events from a configuration. */
  function Run(state: DMState, ctx: DMContext, events: seq<DMEvent>): (DMState, DMContext)
    decreases |events|
  {
    if events == [] then (state, ctx)
    else
      var (s, c) := Next(state, ctx, events[0]);
      Run(s, c, events[1..])
  }

  // ----- what the chart guarantees -----

  /**
   * The first message names the player (trimmed, or "Wanderer") with every
   * ability at 10, starts exploring, and logs only the player-ready line.
   */
  lemma SetupStartsExploring(ctx: DMContext, input: string)
    ensures var (s, c) := Next(SessionSetup, ctx, UserMessage(input));
      && s == Exploration
      && c.player.Some?
      && c.player.value.name == (if Trim(input) == [] then DEFAULT_NAME else Trim(input))
      && c.player.value.name != []
      && (forall a :: a in ABILITY_NAMES ==> a in c.player.value.abilities && c.player.value.abilities[a] == 10)
      && c.log == ctx.log + ["Player ready: " + c.player.value.name + "."]
  {
  }

  /**
   * While exploring, a message mentioning "search" or "investigate" (in any
   * letter case, and not a "/save" command) sets up a Perception check
   * against 12; any other message keeps the pending check.
   */
  lemma ExplorationSuggestsCheck(ctx: DMContext, input: string)
    ensures var (s, c) := Next(Exploration, ctx, UserMessage(input));
      var text := Trim(input);
      && s == Exploration
      && (!("/save" <= text) && MentionsSearch(text) ==> c.pendingCheck == Some(PERCEPTION_CHECK))
      && (!(!("/save" <= text) && MentionsSearch(text)) ==> c.pendingCheck == ctx.pendingCheck)
  {
  }

  /**
   * A roll in CHECK leads to COMBAT exactly when a check is pending and the
   * roll is below its difficulty, and to EXPLORATION otherwise; the check is
   * cleared either way, and combat entered this way faces an unknown foe.
   */
  lemma RollDecides(ctx: DMContext, roll: int, formula: string)
    ensures var (s, c) := Next(Check, ctx, DiceRollResult(roll, formula));
      && (s == Combat <==> ctx.pendingCheck.Some? && roll < ctx.pendingCheck.value.dc)
      && (s != Combat ==> s == Exploration)
      && c.pendingCheck.None?
      && (s == Combat ==> c.combat == Some(CombatState([UNKNOWN_FOE])))
  {
  }

  /**
   * Because the exit action runs first, the roll itself is never logged: a
   * roll that passes adds nothing to the log, and one that fails adds only
   * the combat line, narrated without a pending check.
   */
  lemma RollLeavesNoRecord(ctx: DMContext, roll: int, formula: string)
    ensures var (s, c) := Next(Check, ctx, DiceRollResult(roll, formula));
      && (s == Exploration ==> c.log == ctx.log)
      && (s == Combat ==> c.log == ctx.log + [STEADY])
  {
  }

  /** The roll's narration reports success exactly when the chart does not go to COMBAT. */
  lemma NarrationMatchesGuard(ctx: DMContext, roll: int, formula: string)
    requires ctx.pendingCheck.Some?
    ensures Narrate(Check, ctx, DiceRollResult(roll, formula)).narration == SUCCESS
      <==> Next(Check, ctx, DiceRollResult(roll, formula)).0 != Combat
  {
    NarrateRoll(Check, ctx, roll, formula);
  }

  /** Ending combat clears it and returns to exploring. */
  lemma EndCombatReturns(ctx: DMContext, outcome: CombatOutcome, narration: Option<string>)
    ensures var (s, c) := Next(Combat, ctx, EndCombat(outcome, narration));
      s == Exploration && c.combat.None?
  {
  }

  /** Saving or loading while exploring or fighting enters META and remembers where it came from. */
  lemma EnterMeta(state: DMState, ctx: DMContext, event: DMEvent)
    requires state == Exploration || state == Combat
    requires event.Save? || event.Load?
    ensures var (s, c) := Next(state, ctx, event);
      s == Meta && Returning(c, state)
  {
  }

  /** In META a save stays; a load or a message returns to the remembered state and drops the flag. */
  lemma LeaveMeta(ctx: DMContext, event: DMEvent)
    requires Returning(ctx, Exploration) || Returning(ctx, Combat)
    ensures event.Save? ==> Next(Meta, ctx, event).0 == Meta
    ensures event.Load? || event.UserMessage? ==>
      var (s, c) := Next(Meta, ctx, event);
      && (Returning(ctx, Combat) ==> s == Combat)
      && (Returning(ctx, Exploration) ==> s == Exploration)
      && RETURN_FLAG !in c.world.flags
  {
    if Returning(ctx, Exploration) && Returning(ctx, Check) {
      StateNameInjective(Exploration, Check);
    }
  }

  /** Every transition keeps the earlier log as a prefix of the new one. */
  lemma LogGrows(state: DMState, ctx: DMContext, event: DMEvent)
    ensures ctx.log <= Next(state, ctx, event).1.log
  {
  }

  /** So does every run of events. */
  lemma {:induction false} RunLogGrows(state: DMState, ctx: DMContext, events: seq<DMEvent>)
    ensures ctx.log <= Run(state, ctx, events).1.log
    decreases |events|
  {
    if events != [] {
      var (s, c) := Next(state, ctx, events[0]);
      LogGrows(state, ctx, events[0]);
      RunLogGrows(s, c, events[1..]);
    }
  }

  /**
   * What every reachable configuration satisfies: the return flag is set
   * exactly in META and names EXPLORATION or COMBAT; combat is on exactly in
   * COMBAT or in META entered from it; once set up, there is a player.
   */
  predicate Consistent(state: DMState, ctx: DMContext) {
    && ((state == Meta) <==> RETURN_FLAG in ctx.world.flags)
    && (state == Meta ==> Returning(ctx, Exploration) || Returning(ctx, Combat))
    && (ctx.combat.Some? <==> state == Combat || (state == Meta && Returning(ctx, Combat)))
    && (state != SessionSetup ==> ctx.player.Some?)
  }

  lemma InitialConsistent(sessionId: string)
    ensures Consistent(SessionSetup, InitialContext(sessionId))
  {
  }

  /** Every transition keeps a configuration consistent. */
  lemma NextConsistent(state: DMState, ctx: DMContext, event: DMEvent)
    requires Consistent(state, ctx)
    ensures Consistent(Next(state, ctx, event).0, Next(state, ctx, event).1)
  {
    if state == Meta {
      if Returning(ctx, Exploration) && Returning(ctx, Combat) {
        StateNameInjective(Exploration, Combat);
      }
      if Returning(ctx, Check) {
        if Returning(ctx, Exploration) {
          StateNameInjective(Exploration, Check);
        } else {
          StateNameInjective(Combat, Check);
        }
      }
    }
  }

  /** Every run from the initial configuration stays consistent; in particular META never resumes into CHECK. */
  lemma {:induction false} RunConsistent(state: DMState, ctx: DMContext, events: seq<DMEvent>)
    requires Consistent(state, ctx)
    ensures Consistent(Run(state, ctx, events).0, Run(state, ctx, events).1)
    decreases |events|
  {
    if events != [] {
      NextConsistent(state, ctx, events[0]);
      var (s, c) := Next(state, ctx, events[0]);
      RunConsistent(s, c, events[1..]);
    }
  }

  /** From a consistent configuration, leaving META never goes to CHECK. */
  lemma MetaNeverResumesCheck(ctx: DMContext, event: DMEvent)
    requires Consistent(Meta, ctx)
    ensures Next(Meta, ctx, event).0 != Check
  {
    if Returning(ctx, Check) {
      if Returning(ctx, Exploration) {
        StateNameInjective(Exploration, Check);
      } else {
        StateNameInjective(Combat, Check);
      }
    }
  }
}
