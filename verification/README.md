# ai-dungeon-master, modelled in Dafny

This project models the deterministic core of the ai-dungeon-master
repository and proves properties of it. The project is one Dafny module per
source file or shared component.

**Provably fair dice** (`Dice`, `packages/engine/src/dice.ts`)
- `parseExpression` is a scanner for `NdM±K`, with the range limits on count, sides and modifier.
- Each die is taken from the first four bytes, big-endian, of SHA-256 over `seed:index:attempt`.
- Rejection sampling runs against `2^32 - (2^32 mod sides)`, with at most 1001 attempts per die.
- `rollDice` is a loop, proved against a specification function. `roll`, `verify` and the two-roll advantage and disadvantage variants sit on top of it.
- Proved:
  - every die lies in `[1, sides]`;
  - every face has the same number of accepted preimages;
  - the total is the sum of the dice plus the modifier;
  - `verify` accepts what `roll` produced;
  - the selection laws of advantage and disadvantage.
- `DiceSchemas` shows that every successful roll satisfies `zDiceRollResult`.

**Character creation** comes in three copies of one draft machine:
- the engine's `state/character-creation.ts`;
- the chat service's copy, which is the same code;
- the asynchronous service, which adds an extractor and a delegation heuristic.

`CharacterCreation`, `AbilityInput` and `DelegatingCreation` model these copies:
- applying one answer to one field, with clamping and the `hp <= maxHP` coupling;
- the missing fields in their fixed order, and the next question;
- completeness and `finalizeCharacter`;
- the ability-score parser (keywords, six tagged scores, or six numbers).

In the first two copies the NaN check comes after `clamp`, which never returns NaN. So a non-numeric number answer stores the field's minimum, and their "Unable to parse" errors can never occur. The model follows the code: see `CharacterCreation.NonNumericStoresMinimum`. The asynchronous copy tests for NaN first. There, the same answer is refused with the field's error (`DelegatingCreation.NoExtractorNumbers`).

**Extraction** (`Extraction`, both copies of `extraction.service.ts`)
- `firstJsonObject` cuts from the first `{` to the last `}`.
- `normalizeUpdate` trims strings, clamps numbers, keeps the abilities only when all six scores are read, and lowers `hp` to `maxHP`. It is a method, proved against a specification function.
- Both the model's reply and `JSON.parse` are parameters.

**Session machines**
- `CreationPhase` is one step of `CharacterCreationState.transition`.
- `SessionMachine` is `StateMachineService`. It is a class whose `sessions` map each `step` reads and then overwrites for one id only.
- `DmMachine` is the five-state dungeon-master chart: its transition table, guards, `narrate` and the context updates of its actions. `DmRandom` is its Lehmer generator and formula roller.

Two points of the chart follow the code rather than its apparent intent:
- `pushLog(log, entry)` takes two parameters. The narration that `applySetup` and `resolveCheck` pass as a third argument is dropped, so only their first entry is logged.
- CHECK's exit action `clearCheck` runs before the actions of the transition that leaves CHECK. So `resolveCheck` finds no pending check and logs nothing. The guard that chooses COMBAT still sees the check.

**Small helpers**
- `DiceRoller`, `AbilityScores` and `Combat` model the engine helpers and their legacy copies in `packages/engine/src/index.ts`.
- `WebChat` models the web client's prompt hash and canned reply.

**Schemas** (`Zod`, `Entities`, `DiceSchemas`, `GameState`)
- The live Zod schemas are modelled as parsers over a JSON value datatype. Each returns the parsed output or nothing, keeps only the declared keys, and applies the defaults and cross-field refinements.
- Every schema has a round-trip lemma: each value that meets its stated validity is accepted back unchanged.
- Rejection lemmas cover each refinement.

`Wrappers`, `Core` and `Text` hold the shared vocabulary, plus the JavaScript string built-ins the code relies on: `trim`, `\s`, `parseInt`, ASCII `toLowerCase` and decimal printing.

## Model

| member | source | states |
|---|---|---|
| Dice.HexEncode | packages/engine/src/dice.ts:131-133 | hex text has two lower-case hex digits per byte |
| Dice.GenerateSeed | packages/engine/src/dice.ts:131-133 | a generated seed is 64 hex digits (32 bytes) |
| Dice.DeriveSeed | packages/engine/src/dice.ts:141-145 | a derived seed is the 64-digit hex SHA-256 digest of parent followed by context |
| Dice.ActualSeed | packages/engine/src/dice.ts:37 | the seed used is never empty: the given seed when non-empty, a generated one otherwise |
| Dice.ReadUInt32BE | packages/engine/src/dice.ts:271 | the value is below 2^32, its top byte is the first digest byte and its low byte the fourth |
| Dice.GenerateUInt32 | packages/engine/src/dice.ts:266-272 | every draw is an unsigned 32-bit value |
| Dice.HashInputInjective | packages/engine/src/dice.ts:268 | within one seed, different (die, attempt) pairs hash different texts |
| Dice.LimitBounds | packages/engine/src/dice.ts:242-243 | `limit` is a multiple of `sides`, short of 2^32 by less than one block, positive for every die |
| Dice.Face | packages/engine/src/dice.ts:250 | an accepted draw shows a face in `[1, sides]` |
| Dice.FairDieFrom | packages/engine/src/dice.ts:246-260 | the sampler from a given attempt returns a face in `[1, sides]` or fails with the retry error |
| Dice.FairDie | packages/engine/src/dice.ts:241-261 | every die lies in `[1, sides]` |
| Dice.FairDieFromFails | packages/engine/src/dice.ts:246-260 | the sampler fails exactly when every attempt up to 1000 is rejected |
| Dice.FairDieFromFirst | packages/engine/src/dice.ts:246-251 | a successful sample is the face of the first accepted attempt |
| Dice.FairDieFirstAccepted | packages/engine/src/dice.ts:241-261 | a die fails exactly when all 1001 attempts 0..1000 are rejected, otherwise it shows the first accepted attempt's face |
| Dice.RollFairDie | packages/engine/src/dice.ts:241-261 | the `while` loop over `attempt` computes the sampler's function |
| Dice.PreimagesCount | packages/engine/src/dice.ts:249-250 | below any bound, each face has one preimage per whole block of `sides` plus one in the partial block |
| Dice.UniformFaces | packages/engine/src/dice.ts:242-250 | no modulo bias: below `limit` each face has exactly `limit / sides` accepted values |
| Dice.Dice | packages/engine/src/dice.ts:228-236 | a roll has `count` dice, die `i` drawn with index `i`, each in `[1, sides]`; a failing die fails the roll |
| Dice.DiceFailure | packages/engine/src/dice.ts:231-233 | the dice fail exactly when one of the `count` dice fails |
| Dice.DiceFailurePersists | packages/engine/src/dice.ts:231-233 | a failure among the first dice fails the whole roll |
| Dice.RollDice | packages/engine/src/dice.ts:228-236 | the `for` loop pushing into `results` computes the dice function |
| Dice.ScanTail | packages/engine/src/dice.ts:21 | the scanner for `\s*([+-]\s*\d+)?\s*$` returns well-formed parts that spell out its input |
| Dice.ScanExpression | packages/engine/src/dice.ts:21 | the scanner for the whole expression returns well-formed parts that spell out the trimmed text |
| Dice.ScanTailComplete | packages/engine/src/dice.ts:21 | every tail the pattern matches is found by the tail scanner |
| Dice.TailNotDigit | packages/engine/src/dice.ts:21 | the text after the sides' digits never starts with a digit (greedy `\d+`) |
| Dice.ScanComplete | packages/engine/src/dice.ts:21 | every text the pattern matches is found by the scanner with the same numbers |
| Dice.CheckRanges | packages/engine/src/dice.ts:182-218 | accepts exactly `1 <= count <= 100`, `2 <= sides <= 1000`, `abs(modifier) <= 10000` |
| Dice.ParseExpression | packages/engine/src/dice.ts:152-219 | a valid parse is in range and comes from a match of the trimmed text; the empty text is its own error |
| Dice.ParseComplete | packages/engine/src/dice.ts:163-218 | a matching text parses to the range check of its matched numbers |
| Dice.ParseRejectsNonMatching | packages/engine/src/dice.ts:163-174 | a non-empty text the pattern does not match is a format error |
| Dice.RollExpression | packages/engine/src/dice.ts:38-46 | `breakdown` has `count` dice in `[1, sides]`, `result` is their sum plus the modifier, `seed` is the seed used |
| Dice.RollWithSeed | packages/engine/src/dice.ts:31-46 | an invalid expression throws with its parse error, a valid one is rolled |
| Dice.Roll | packages/engine/src/dice.ts:30-47 | the result's seed is never empty and is the supplied seed when one is given |
| Dice.RollDeterminedBySeed | packages/engine/src/dice.ts:37-46 | with a seed supplied, rolling is deterministic |
| Dice.Verify | packages/engine/src/dice.ts:56-75 | true exactly when the expression is valid, the re-rolled dice exist, and the claimed breakdown equals them position by position |
| Dice.VerifyRoundTrip | packages/engine/src/dice.ts:56-75 | `verify` accepts every breakdown `roll` returns, under the returned seed |
| Dice.VerifySeededRoundTrip | packages/engine/src/dice.ts:56-75 | `verify` accepts every breakdown rolled under a given seed |
| Dice.VerifyRejectsTampering | packages/engine/src/dice.ts:67-71 | changing any one die of a genuine breakdown makes `verify` false |
| Dice.RollWithAdvantage | packages/engine/src/dice.ts:83-100 | succeeds exactly when both rolls succeed; the total is one of the two and at least both, the breakdowns are concatenated and the seed is the root seed |
| Dice.RollWithDisadvantage | packages/engine/src/dice.ts:108-125 | the lower total (ties keep roll 1), both breakdowns concatenated, the root seed; rolls under the `disadvantage_1`/`disadvantage_2` derived seeds |
| Dice.KeepsFirstRoll | packages/engine/src/dice.ts:93-96 | roll 1 is kept iff its total is at least (advantage) or at most (disadvantage) roll 2's |
| Dice.RollTwiceVerifiable | packages/engine/src/dice.ts:87-97 | both halves of an advantage or disadvantage breakdown verify against the derived seeds |
| Dice.HashInput | packages/engine/src/dice.ts:268 | `${seed}:${dieIndex}:${attempt}`; `HashInputInjective` proves distinct pairs give distinct texts |
| Dice.Limit | packages/engine/src/dice.ts:242-243 | `range - range % sides`; `LimitBounds` and `UniformFaces` state its meaning |
| Dice.FirstRoll | packages/engine/src/dice.ts:87-90 | the roll under the seed derived with label `_1`; `RollWithAdvantage`, `RollWithDisadvantage` and `KeepsFirstRoll` use it |
| Dice.SecondRoll | packages/engine/src/dice.ts:88-91 | the roll under the seed derived with label `_2`; `RollTwiceVerifiable` shows both halves verify |
| DiceRoller.RandomFace | packages/engine/src/dice-roller.ts:13-15 | `floor(sample * sides) + 1` of a sample in [0, 1) lies in `[1, sides]` |
| DiceRoller.D20Shape | packages/engine/src/dice-roller.ts:37-45 | one d20: a single roll, no modifier, total equal to the roll |
| DiceRoller.AdvantageShape | packages/engine/src/dice-roller.ts:47-58 | advantage keeps both rolls in call order, the higher as base and total, no modifier, `advantage` set; in [1, 20] when both rolls are |
| DiceRoller.DisadvantageShape | packages/engine/src/dice-roller.ts:60-71 | disadvantage keeps both rolls in call order, the lower as base and total, no modifier, `disadvantage` set |
| DiceRoller.AdvantageBeatsDisadvantage | packages/engine/src/index.ts:33-57 | on the same two rolls advantage never totals less than disadvantage |
| DiceRoller.Roller.constructor | packages/engine/src/dice-roller.ts:31 | the roller holds the injected generator and has made no draws |
| DiceRoller.Roller.Roll | packages/engine/src/dice-roller.ts:33-35 | `roll(sides)` is exactly the generator's next answer and uses one draw |
| DiceRoller.Roller.RollD20 | packages/engine/src/dice-roller.ts:37-45 | the single-d20 result of the next draw of 20 sides |
| DiceRoller.Roller.RollD20WithAdvantage | packages/engine/src/dice-roller.ts:47-58 | the advantage result of the next two draws of 20 sides, in call order; exactly two draws |
| DiceRoller.Roller.RollD20WithDisadvantage | packages/engine/src/dice-roller.ts:60-71 | the disadvantage result of the next two draws of 20 sides, in call order; exactly two draws |
| DiceRoller.D20 | packages/engine/src/dice-roller.ts:37-45 | the single-d20 result; `D20Shape` states it |
| DiceRoller.Advantage | packages/engine/src/dice-roller.ts:47-58 | the advantage result; `AdvantageShape` states it |
| DiceRoller.Disadvantage | packages/engine/src/dice-roller.ts:60-71 | the disadvantage result; `DisadvantageShape` states it |
| AbilityScores.GetModifier | packages/engine/src/ability-score-calculator.ts:7-9 | the modifier `m` is the floor of `(score - 10) / 2`: `2m <= score - 10 < 2m + 2` |
| AbilityScores.ModifierExamples | packages/engine/src/ability-score-calculator.ts:7-9 | scores 10, 12, 8, 18 give 0, 1, -1, 4 |
| AbilityScores.ModifierSteps | packages/engine/src/index.ts:62-64 | the modifier is monotone and two more points add exactly one |
| AbilityScores.SumPerm | packages/engine/src/ability-score-calculator.ts:22 | a sum does not depend on the order of its terms |
| AbilityScores.InsertDescending | packages/engine/src/ability-score-calculator.ts:21 | one insertion step of the sort: the first `i + 1` elements become sorted largest first, a permutation |
| AbilityScores.SortDescending | packages/engine/src/ability-score-calculator.ts:21 | `sort((a, b) => b - a)` in place: sorted largest first and a permutation of the old contents |
| AbilityScores.SumFirst | packages/engine/src/ability-score-calculator.ts:22 | `slice(0, n).reduce(+)` is the sum of the first `n` elements |
| AbilityScores.SortedTopThree | packages/engine/src/ability-score-calculator.ts:20-22 | the first three of four dice sorted largest first sum to all four minus the smallest |
| AbilityScores.TopThreeRange | packages/engine/src/index.ts:76-81 | with dice in [1, 6] a stat lies in [3, 18] |
| AbilityScores.RollStat | packages/engine/src/ability-score-calculator.ts:19-23 | a stat uses four d6 draws and is their sum without the smallest |
| AbilityScores.RollAbilityScores | packages/engine/src/ability-score-calculator.ts:11-33 | 24 draws, four per stat, in the order strength, dexterity, constitution, intelligence, wisdom, charisma |
| AbilityScores.StatsRange | packages/engine/src/ability-score-calculator.ts:19-32 | a roller answering d6 draws in [1, 6] gives every stat in [3, 18] |
| AbilityScores.TopThree | packages/engine/src/ability-score-calculator.ts:20-22 | four dice less the smallest; `SortedTopThree` proves the sort-and-slice computes it and `TopThreeRange` bounds it |
| AbilityScores.StatsFrom | packages/engine/src/ability-score-calculator.ts:25-32 | six stats from consecutive draws; `RollAbilityScores` is proved equal to it and `StatsRange` bounds it |
| Combat.ArmorClassExample | packages/engine/src/combat-calculator.ts:5-7 | `calculateArmorClass(10, 2, 3)` is 15 |
| Combat.ArmorClassMonotone | packages/engine/src/index.ts:96-98 | armour class never falls when base, dexterity modifier or armour bonus rises; the difference of two armour classes is the sum of the parts' differences, so each part adds one for one |
| Combat.CeilQuarter | packages/engine/src/combat-calculator.ts:10 | `Math.ceil(n / 4)` is the `c` with `4(c - 1) < n <= 4c` |
| Combat.ProficiencyBonus | packages/engine/src/combat-calculator.ts:9-11 | the bonus `b` is `ceil(level / 4) + 1`: `4(b - 2) < level <= 4(b - 1)` |
| Combat.ProficiencyExamples | packages/engine/src/combat-calculator.ts:9-11 | levels 1, 5, 9, 13 give 2, 3, 4, 5 |
| Combat.ProficiencyTiers | packages/engine/src/combat-calculator.ts:9-11 | levels `4k+1 .. 4k+4` share the bonus `k + 2` |
| Combat.ProficiencyMonotone | packages/engine/src/index.ts:100-102 | the bonus never falls as the level rises |
| Combat.ArmorClass | packages/engine/src/combat-calculator.ts:5-7 | the plain sum of base, dexterity modifier and armour bonus; its meaning is stated by `ArmorClassMonotone` (differences add up part by part) and `ArmorClassExample` |
| WebChat.CreateInitialMessages | apps/web/src/lib/chat.ts:20-29 | exactly one message: id 1, author assistant, the intro copy, the given timestamp |
| WebChat.ToInt32 | apps/web/src/lib/chat.ts:44 | `acc \|= 0` gives a signed 32-bit value congruent to its input modulo 2^32 |
| WebChat.ToInt32Congruent | apps/web/src/lib/chat.ts:44 | two values congruent modulo 2^32 give the same int32 |
| WebChat.Units | apps/web/src/lib/chat.ts:43 | a character is one UTF-16 code unit, or a surrogate pair above U+FFFF |
| WebChat.Utf16 | apps/web/src/lib/chat.ts:42-43 | the code units that `length` counts and `charCodeAt` reads: between one and two per character |
| WebChat.StepCongruent | apps/web/src/lib/chat.ts:43-44 | one hash step respects congruence modulo 2^32 |
| WebChat.HashIsPoly | apps/web/src/lib/chat.ts:40-47 | the hash is the polynomial `sum code_i * 31^(n-1-i)` modulo 2^32, read as signed int32 |
| WebChat.HashRange | apps/web/src/lib/chat.ts:40-47 | the empty prompt hashes to 0 and every hash is a signed 32-bit integer |
| WebChat.StepAgrees | apps/web/src/lib/chat.ts:43-44 | `((acc << 5) - acc + code) \| 0` equals `31 * acc + code` wrapped to int32 |
| WebChat.HashPrompt | apps/web/src/lib/chat.ts:40-47 | the `for` loop computes the hash of the prompt's code units, a signed 32-bit value |
| WebChat.ReplyIndex | apps/web/src/lib/chat.ts:36-37 | `Math.abs(hash) % 5` is a valid index of the replies |
| WebChat.PickAutoReply | apps/web/src/lib/chat.ts:35-38 | the reply is always one of the five canned replies |
| WebChat.HashOf | apps/web/src/lib/chat.ts:40-47 | the hash one unit at a time; `HashIsPoly` proves it is the polynomial and `HashPrompt` that the loop computes it |
| DmMachine.StateNameInjective | packages/engine/src/dm-machine.ts:3 | distinct states have distinct names, so the remembered name identifies one state |
| DmMachine.Narrate | packages/engine/src/dm-machine.ts:35-62 | the only check the narrator ever suggests is Perception against 12 |
| DmMachine.NarrateRoll | packages/engine/src/dm-machine.ts:54-58 | with a pending check the roll narrates success exactly when `roll >= dc` and failure exactly when `roll < dc` |
| DmMachine.SetupStartsExploring | packages/engine/src/dm-machine.ts:100-108 | the first message goes to EXPLORATION and names the player by the trimmed input or "Wanderer", every ability 10; only the player-ready line is logged |
| DmMachine.ExplorationSuggestsCheck | packages/engine/src/dm-machine.ts:110-117 | while exploring, a non-"/save" message mentioning search or investigate in any case sets up Perception DC 12; any other keeps the pending check |
| DmMachine.RollDecides | packages/engine/src/dm-machine.ts:162-175 | a roll in CHECK goes to COMBAT iff a check is pending and `roll < dc`, otherwise to EXPLORATION; the check is cleared and a foe-less combat faces "Unknown foe" |
| DmMachine.RollLeavesNoRecord | packages/engine/src/dm-machine.ts:124-128 | since the exit action clears the check first, a passing roll logs nothing and a failing one logs only the combat narration |
| DmMachine.NarrationMatchesGuard | packages/engine/src/dm-machine.ts:167 | the roll narrates success exactly when the chart does not go to COMBAT |
| DmMachine.EndCombatReturns | packages/engine/src/dm-machine.ts:176-178 | ending combat returns to EXPLORATION with no combat |
| DmMachine.EnterMeta | packages/engine/src/dm-machine.ts:90-93 | SAVE or LOAD from EXPLORATION or COMBAT enters META remembering the state left |
| DmMachine.LeaveMeta | packages/engine/src/dm-machine.ts:183-195 | in META a save stays; LOAD or a message returns to the remembered COMBAT or EXPLORATION and removes the return flag |
| DmMachine.LogGrows | packages/engine/src/dm-machine.ts:33 | every transition keeps the old log as a prefix of the new one |
| DmMachine.RunLogGrows | packages/engine/src/dm-machine.ts:144-199 | so does every run of events |
| DmMachine.InitialConsistent | packages/engine/src/dm-machine.ts:83-88 | the initial context satisfies the chart's invariant |
| DmMachine.NextConsistent | packages/engine/src/dm-machine.ts:144-199 | every transition keeps the invariant: return flag exactly in META naming EXPLORATION or COMBAT, combat on exactly in COMBAT or META entered from it, a player after setup |
| DmMachine.RunConsistent | packages/engine/src/dm-machine.ts:144-199 | every run from a consistent configuration stays consistent |
| DmMachine.MetaNeverResumesCheck | packages/engine/src/dm-machine.ts:186-195 | from a consistent configuration the CHECK branch out of META is never taken |
| DmMachine.InitialContext | packages/engine/src/dm-machine.ts:83-88 | the tavern, no flags, no player, no check, no combat, an empty log; `InitialConsistent` proves it meets the chart invariant |
| DmMachine.MentionsSearch | packages/engine/src/dm-machine.ts:41 | "search" or "investigate" anywhere in the lower-cased text; `ExplorationSuggestsCheck` states its effect |
| DmMachine.ApplySetup | packages/engine/src/dm-machine.ts:100-108 | the setup action; `SetupStartsExploring` states the player it creates and the log line it adds |
| DmMachine.LogExploration | packages/engine/src/dm-machine.ts:110-117 | the exploration action; `ExplorationSuggestsCheck` states when it sets the Perception check and `LogGrows` that it only appends |
| DmMachine.AcceptCheck | packages/engine/src/dm-machine.ts:119-122 | the check is stored and the narration logged; `NextConsistent` shows a pending check exists in CHECK |
| DmMachine.ResolveCheck | packages/engine/src/dm-machine.ts:124-128 | logs the roll against the DC only with a pending check; `RollLeavesNoRecord` shows the exit action leaves none |
| DmMachine.EnterCombat | packages/engine/src/dm-machine.ts:130-134 | combat with the event's enemies or "Unknown foe"; `RollDecides` and `NextConsistent` state where it is used |
| DmMachine.EndCombatAction | packages/engine/src/dm-machine.ts:136-139 | combat is cleared and the narration logged; `EndCombatReturns` states it |
| DmMachine.ClearCheck | packages/engine/src/dm-machine.ts:141 | the exit action of CHECK drops the pending check; `RollLeavesNoRecord` relies on it running first |
| DmMachine.RememberState | packages/engine/src/dm-machine.ts:90-93 | the return flag names the state left; `EnterMeta` states it |
| DmMachine.ClearReturn | packages/engine/src/dm-machine.ts:95-98 | the return flag is removed and "Resuming play." logged; `LeaveMeta` states it |
| DmMachine.Resume | packages/engine/src/dm-machine.ts:186-195 | the remembered COMBAT, then CHECK, else EXPLORATION; `LeaveMeta` and `MetaNeverResumesCheck` state what it returns |
| DmMachine.Next | packages/engine/src/dm-machine.ts:144-199 | the transition table; `NextConsistent`, `LogGrows`, `RollDecides`, `EnterMeta` and `LeaveMeta` state its behaviour |
| DmMachine.Run | packages/engine/src/dm-machine.ts:144-199 | events applied one after another; `RunConsistent` and `RunLogGrows` state what every run keeps |
| DmRandom.JsRem | packages/engine/src/dm-machine.ts:65-66 | JavaScript `%`: the remainder is smaller than the modulus and has the sign of the dividend |
| DmRandom.ProductNotMultiple | packages/engine/src/dm-machine.ts:66 | 16807 times a state in [1, 2^31 - 2] is never a multiple of 2^31 - 1 |
| DmRandom.StartLive | packages/engine/src/dm-machine.ts:65 | the start `seed % 2147483647 \|\| 1` is non-zero and below the modulus; for a non-negative seed it is in [1, 2^31 - 2] |
| DmRandom.StepLive | packages/engine/src/dm-machine.ts:66 | a step keeps the state non-zero, below the modulus, and of the same sign |
| DmRandom.IterateLive | packages/engine/src/dm-machine.ts:64-67 | so does any number of steps |
| DmRandom.SeededRandom.constructor | packages/engine/src/dm-machine.ts:64-65 | the closure's state starts at the start value of the seed |
| DmRandom.SeededRandom.Sample | packages/engine/src/dm-machine.ts:66 | a sample advances the state one step and returns `state - 1` over 2147483646, in [0, 1) from a positive state |
| DmRandom.ParseModifier | packages/engine/src/dm-machine.ts:76 | an absent modifier is 0 |
| DmRandom.ModifierRoundTrip | packages/engine/src/dm-machine.ts:72-76 | every modifier's text (`+K`, `-K`, or nothing) parses back to it |
| DmRandom.FormulaTextTrimmed | packages/engine/src/dm-machine.ts:72 | a formula's text has nothing for `trim` to remove |
| DmRandom.SidesParts | packages/engine/src/dm-machine.ts:72-76 | the sides group takes exactly the digits before the modifier |
| DmRandom.TextParts | packages/engine/src/dm-machine.ts:72-75 | the count group takes exactly the digits before the `d` |
| DmRandom.ParseParts | packages/engine/src/dm-machine.ts:72-76 | digits, `d`, digits and a modifier parse to their count, sides and modifier |
| DmRandom.ParseFormatted | packages/engine/src/dm-machine.ts:72-76 | every formula's text parses back to the same formula |
| DmRandom.DieRange | packages/engine/src/dm-machine.ts:78 | `1 + floor(sample * sides)` from a positive state lies in [1, sides] |
| DmRandom.TotalRange | packages/engine/src/dm-machine.ts:77-78 | `count` dice from a positive state sum to between `count` and `count * sides` |
| DmRandom.FormulaRng.constructor | packages/engine/src/dm-machine.ts:69-70 | the roller owns a fresh generator started from the seed |
| DmRandom.FormulaRng.Roll | packages/engine/src/dm-machine.ts:71-80 | an unsupported formula is an error and takes no sample; otherwise exactly `count` samples, totalled as dice plus modifier |
| DmRandom.RollRange | packages/engine/src/dm-machine.ts:71-80 | from a positive state a roll lies in [count + K, count * sides + K] |
| DmRandom.Start | packages/engine/src/dm-machine.ts:65 | `seed % 2147483647 \|\| 1`; `StartLive` proves the start is live |
| DmRandom.Step | packages/engine/src/dm-machine.ts:66 | `value * 16807 % 2147483647`; `StepLive` proves a step keeps the state live |
| DmRandom.Iterate | packages/engine/src/dm-machine.ts:64-67 | the closure's state after `n` samples; `IterateLive` proves it stays live |
| DmRandom.ParseFormula | packages/engine/src/dm-machine.ts:72-76 | `/^(\d+)d(\d+)([+-]\d+)?$/i` on the trimmed formula; `ParseFormatted` and `ParseParts` prove every formula's text parses back to it |
| DmRandom.Die | packages/engine/src/dm-machine.ts:78 | `1 + Math.floor(sample * sides)`; `DieRange` bounds it to [1, sides] |
| DmRandom.Total | packages/engine/src/dm-machine.ts:77-78 | the sum of `count` dice; `TotalRange` bounds it |
| SessionMachine.GetHandler | apps/api/src/modules/state-machine/state-machine.service.ts:52-61 | the exploring handler exactly for the exploring phase, character creation for every other |
| SessionMachine.StateMachineService.constructor | apps/api/src/modules/state-machine/state-machine.service.ts:9 | the service starts with no sessions |
| SessionMachine.StateMachineService.Step | apps/api/src/modules/state-machine/state-machine.service.ts:16-44 | a throwing handler stores nothing; otherwise exactly the entry of `sessionId` is replaced by the handler's phase and context plus the reply, and the result mirrors it; every other session is unchanged |
| SessionMachine.StateMachineService.GetSession | apps/api/src/modules/state-machine/state-machine.service.ts:46-50 | nothing exactly for an id never stepped, otherwise its phase, draft and pending field |
| SessionMachine.CreationStepHistory | apps/api/src/modules/state-machine/state-machine.service.ts:21-33 | in character creation the stored history is the old one plus exactly the user's message and one assistant message with the reply |
| SessionMachine.UnknownSessionStarts | apps/api/src/modules/state-machine/state-machine.service.ts:17-25 | an unknown session starts in character creation, its history only the user's message |
| SessionMachine.FirstStepAsksName | apps/api/src/modules/state-machine/state-machine.service.ts:16-44 | a new session's first step stays in character creation, stores the empty draft, waits for the name and asks for it |
| SessionMachine.Existing | apps/api/src/modules/state-machine/state-machine.service.ts:17-20 | the stored session or a new one in character creation with no history; `UnknownSessionStarts` states the latter |
| SessionMachine.WithUser | apps/api/src/modules/state-machine/state-machine.service.ts:21-25 | the user's message appended to the history; `CreationStepHistory` states the history a step stores |
| SessionMachine.Dispatch | apps/api/src/modules/state-machine/state-machine.service.ts:27-28 | the handler for the phase, then its transition; `GetHandler` states which handler |
| SessionMachine.StepSpec | apps/api/src/modules/state-machine/state-machine.service.ts:16-44 | the new session map and reply of one step; `StateMachineService.Step` is proved equal to it, and `CreationStepHistory` and `FirstStepAsksName` state its results |
| CreationPhase.PromptForFieldAgrees | apps/api/src/modules/state-machine/states/character-creation.state.ts:63-88 | the state's question for every field is the creation service's |
| CreationPhase.PromptEnd | apps/api/src/modules/state-machine/states/character-creation.state.ts:63-88 | no question is empty or ends in white space |
| CreationPhase.DraftOf | apps/api/src/modules/state-machine/states/character-creation.state.ts:42 | the stored draft keeps the character's id, kind and hit points |
| CreationPhase.FinalizeStored | apps/api/src/modules/state-machine/states/character-creation.state.ts:36-43 | the stored finished character is a complete draft, and finalising it again gives the same character whatever id is offered |
| CreationPhase.Decide | apps/api/src/modules/state-machine/states/character-creation.state.ts:35-60 | session, campaign and history are kept, and the phase becomes exploring exactly when the draft is complete |
| CreationPhase.Transition | apps/api/src/modules/state-machine/states/character-creation.state.ts:13-61 | the step throws exactly when the pending answer throws; otherwise session, campaign and history are kept |
| CreationPhase.KnownErrorsTight | apps/api/src/modules/character-creation/character-creation.service.ts:77-80 | every error message is non-empty and neither starts nor ends in white space |
| CreationPhase.AnswerErrors | apps/api/src/modules/character-creation/character-creation.service.ts:71-215 | every error an answer reports is one of the fixed messages |
| CreationPhase.MissingDraftIsEmpty | apps/api/src/modules/state-machine/states/character-creation.state.ts:14 | a context without a draft steps as if it held the empty draft |
| CreationPhase.ErrorReasks | apps/api/src/modules/state-machine/states/character-creation.state.ts:24-31 | an answer with an error keeps the phase, draft and pending field, and replies with the error, a newline and the same question |
| CreationPhase.CompleteMovesOn | apps/api/src/modules/state-machine/states/character-creation.state.ts:36-44 | a complete answered draft finalises, moves to exploring, stores the character and announces "Character created!" with its description |
| CreationPhase.IncompleteAsksNext | apps/api/src/modules/state-machine/states/character-creation.state.ts:46-60 | an incomplete answered draft stays in creation and asks the first missing field, now pending; the name fallback is never taken |
| CreationPhase.ExploringIffComplete | apps/api/src/modules/state-machine/states/character-creation.state.ts:32-44 | a step ends in exploring exactly when the answered draft is complete |
| CreationPhase.PromptForField | apps/api/src/modules/state-machine/states/character-creation.state.ts:63-88 | the state's own question per field; `PromptForFieldAgrees` proves it equals the service's and `PromptEnd` its shape |
| CreationPhase.Describe | apps/api/src/modules/state-machine/states/character-creation.state.ts:90-92 | name, race, class, level, AC and hp/maxHP in one line; `CompleteMovesOn` states the message it is part of |
| Core.AbilityIndex | packages/engine/src/state/character-creation.ts:5 | every ability has its place in the order STR, DEX, CON, INT, WIS, CHA |
| Core.Clamp | packages/engine/src/state/character-creation.ts:260-263 | NaN becomes the minimum; a number inside the range is kept, one above becomes the maximum, one below the minimum; the result always lies in the range |
| CharacterCreation.FieldIndex | packages/engine/src/state/character-creation.ts:51-61 | every field has its place in `REQUIRED_FIELDS` |
| CharacterCreation.Missing | apps/api/src/modules/chat/character-creation.service.ts:188-190 | the filter keeps exactly the listed fields the draft does not satisfy, and no more of them than were listed |
| CharacterCreation.MissingAppend | apps/api/src/modules/chat/character-creation.service.ts:189 | filtering a concatenation is concatenating the filtered parts |
| CharacterCreation.CollectMissingFields | packages/engine/src/state/character-creation.ts:176-184 | the engine's `forEach`/`push` loop gives exactly the chat copy's `filter` of `REQUIRED_FIELDS` |
| CharacterCreation.MissingInOrder | packages/engine/src/state/character-creation.ts:176-184 | missing fields come in `REQUIRED_FIELDS` order, each at most once |
| CharacterCreation.ConsInFieldOrder | apps/api/src/modules/chat/character-creation.service.ts:189 | a field placed before later fields keeps the list in field order |
| CharacterCreation.MissingSorted | apps/api/src/modules/chat/character-creation.service.ts:189 | filtering a list in field order leaves it in field order |
| CharacterCreation.CompleteIff | packages/engine/src/state/character-creation.ts:193-203 | a draft is complete exactly when every field has a value |
| CharacterCreation.NextQuestion | packages/engine/src/state/character-creation.ts:186-191 | no question exactly when the draft is complete; otherwise an unsatisfied field with its own prompt, every earlier field satisfied |
| CharacterCreation.FirstMissing | apps/api/src/modules/chat/character-creation.service.ts:192-197 | every field before the first missing one is satisfied |
| CharacterCreation.EmptyDraftAsksName | packages/engine/src/state/character-creation.ts:63 | the empty draft misses every field and is asked its name first |
| CharacterCreation.MissingAllUnset | apps/api/src/modules/chat/character-creation.service.ts:188-190 | with nothing satisfied, every listed field is missing |
| CharacterCreation.Finalize | packages/engine/src/state/character-creation.ts:205-226 | an error with "Character draft is incomplete" exactly when the draft is incomplete; otherwise every field copied, kind `character`, the existing id kept, `hp = min(hp, maxHP)` |
| CharacterCreation.FinalizedIsSound | apps/api/src/modules/chat/character-creation.service.ts:203-224 | a finished character has non-blank texts, level >= 1, AC >= 5, every ability >= 1 and `1 <= hp <= maxHP` |
| CharacterCreation.ApplyAnswer | packages/engine/src/state/character-creation.ts:114-174 | a blank answer returns the draft unchanged with "Please provide a response."; the only other error is an abilities answer that does not parse; an error never changes the draft |
| CharacterCreation.NumbersClamped | packages/engine/src/state/character-creation.ts:129-161 | level, AC, maxHP and hp are stored within [1,20], [5,99], [1,999] and [1,999] (hp's lower bound given a valid maxHP) |
| CharacterCreation.AnswerStores | packages/engine/src/state/character-creation.ts:124-170 | a non-blank answer is never refused except by the abilities parser: name, race, class and backstory store the trimmed text; level and AC store `parseInt` clamped to [1,20] and [5,99]; maxHP stores its clamped value and lowers hp to it; hp is capped by the kept maxHP, or sets maxHP when there is none; abilities store the parsed scores |
| CharacterCreation.NonNumericStoresMinimum | apps/api/src/modules/chat/character-creation.service.ts:137-169 | an unreadable number stores the field's minimum with no error, since the NaN check follows the clamp |
| CharacterCreation.AnswerKeepsMaxHPValid | apps/api/src/modules/chat/character-creation.service.ts:151-169 | no answer leaves a stored maxHP below 1 |
| CharacterCreation.HpAnswersBound | packages/engine/src/state/character-creation.ts:143-161 | after a maxHP or hp answer `hp <= maxHP`; an hp answer with no maxHP sets maxHP to the same value |
| CharacterCreation.AnswerKeepsHpWithinMax | apps/api/src/modules/chat/character-creation.service.ts:151-169 | every answer keeps `hp <= maxHP` |
| CharacterCreation.OtherFieldsKept | packages/engine/src/state/character-creation.ts:124-173 | only the answered field changes, apart from the hp/maxHP coupling; id and kind never change |
| CharacterCreation.AnswerSatisfies | apps/api/src/modules/chat/character-creation.service.ts:132-182 | a non-blank usable answer satisfies its field |
| CharacterCreation.AnswerKeepsSatisfied | apps/api/src/modules/chat/character-creation.service.ts:132-185 | no answer unsatisfies a field that was satisfied |
| CharacterCreation.ApplyAllSatisfies | apps/api/src/modules/chat/character-creation.service.ts:122-201 | over a run of answers, a field satisfied before or answered along the way is satisfied at the end |
| CharacterCreation.AnswersComplete | apps/api/src/modules/chat/character-creation.service.ts:199-201 | answering all nine fields with usable answers, in any order, gives a complete draft with nothing missing |
| CharacterCreation.Prompt | packages/engine/src/state/character-creation.ts:38-49 | the question per field; `NextQuestion` and `CreationPhase.PromptForFieldAgrees` state where it is used |
| CharacterCreation.HasFieldValue | packages/engine/src/state/character-creation.ts:228-253 | the per-field satisfaction test; `CompleteIff`, `Missing` and `AnswerSatisfies` state its role |
| CharacterCreation.MissingFields | apps/api/src/modules/chat/character-creation.service.ts:188-190 | the filter of `REQUIRED_FIELDS`; `CollectMissingFields` proves the engine's loop computes it and `MissingInOrder` its order |
| CharacterCreation.IsComplete | packages/engine/src/state/character-creation.ts:193-203 | nothing missing; `CompleteIff` proves it holds exactly when every field has a value |
| CharacterCreation.WithMaxHP | packages/engine/src/state/character-creation.ts:143-153 | store maxHP and lower hp to it; `HpAnswersBound` and `AnswerStores` state the result |
| CharacterCreation.WithHp | packages/engine/src/state/character-creation.ts:154-161 | hp capped by the kept maxHP, or maxHP set to it when missing; `HpAnswersBound` and `AnswerStores` state the result |
| AbilityInput.StandardScores | packages/engine/src/state/character-creation.ts:65-73 | the record has exactly the abilities of the order, each with a value from the standard array |
| AbilityInput.GenerateStandardAbilityScores | apps/api/src/modules/chat/character-creation.service.ts:74-80 | the `forEach` fills exactly the record `StandardScores` describes |
| AbilityInput.StandardScoresAt | packages/engine/src/state/character-creation.ts:69-71 | with no repeated ability, position `i` gets `STANDARD_ARRAY[min(i, 5)]` |
| AbilityInput.StandardDefault | packages/engine/src/state/character-creation.ts:5-6 | the default order gives STR 15, DEX 14, CON 13, INT 12, WIS 10, CHA 8 |
| AbilityInput.KeyAt | packages/engine/src/state/character-creation.ts:83 | an ability is found exactly when the text starts with its three-letter key |
| AbilityInput.TagValue | packages/engine/src/state/character-creation.ts:83 | `\s*[:=]?\s*(\d{1,2})` matches a non-empty stretch and reads a value below 100 |
| AbilityInput.SkipSpaces | packages/engine/src/state/character-creation.ts:83 | `\s*` never lengthens the text |
| AbilityInput.LeadingDigits | packages/engine/src/state/character-creation.ts:83 | `\d{1,2}` reads one or two digits, a value below 100 |
| AbilityInput.LeadingDigitsOf | packages/engine/src/state/character-creation.ts:83 | one or two digits before a space or the end are read whole |
| AbilityInput.TagPrefix | packages/engine/src/state/character-creation.ts:83 | a tag match spans a non-empty prefix and carries a value below 100 |
| AbilityInput.TagMatches | packages/engine/src/state/character-creation.ts:82-84 | every value `matchAll` collects is below 100 |
| AbilityInput.SkipSeparator | packages/engine/src/state/character-creation.ts:83 | `[:=]?` never lengthens the text |
| AbilityInput.LeadingDigitsGreedy | packages/engine/src/state/character-creation.ts:83 | `\d{1,2}` reads two digits, or one digit not followed by another, whole |
| AbilityInput.TagValueOfParts | packages/engine/src/state/character-creation.ts:83 | after a key, white space, an optional ':' or '=', white space and the digits of a match are read whole, with the digits' value |
| AbilityInput.TagPrefixOfParts | packages/engine/src/state/character-creation.ts:83 | the parts of a match, greedily read, give the match's tag and length |
| AbilityInput.TagPrefixComplete | packages/engine/src/state/character-creation.ts:83 | wherever the pattern matches (an independent description: key, `\s*`, `[:=]?`, `\s*`, greedy `\d{1,2}`), `TagPrefix` reports that match's tag and length |
| AbilityInput.TagValueSplit | packages/engine/src/state/character-creation.ts:83 | what is read after a key is white space, an optional ':' or '=', white space and one or two digits, greedily |
| AbilityInput.TagPrefixSound | packages/engine/src/state/character-creation.ts:83 | whatever `TagPrefix` reports is the match the pattern makes at the start of the text |
| AbilityInput.GreedyParts | packages/engine/src/state/character-creation.ts:83 | any match can be read greedily over the same text |
| AbilityInput.TagPrefixFindsAny | packages/engine/src/state/character-creation.ts:83 | wherever any match of the pattern starts the text, `TagPrefix` finds one |
| AbilityInput.TagPrefixFinds | packages/engine/src/state/character-creation.ts:83 | `TagPrefix` finds a match exactly when some match of the pattern starts the text |
| AbilityInput.MatchAllFrom | packages/engine/src/state/character-creation.ts:82-84 | every text has a `matchAll` result: matches in order without overlap, each the regular expression's own match at its position, none starting in the text around them |
| AbilityInput.TagMatchesOfMatchAll | packages/engine/src/state/character-creation.ts:82-84 | given such a `matchAll` result, `TagMatches` returns exactly its tags in order |
| AbilityInput.TagMatchesAreMatchAll | packages/engine/src/state/character-creation.ts:82-84 | for every text `TagMatches` returns the tags of its `matchAll` result |
| AbilityInput.ParseOfMatchAll | packages/engine/src/state/character-creation.ts:82-96 | a normalized non-keyword answer whose `matchAll` matches name every ability is read as those matches' clamped values, a later match overwriting an earlier one |
| AbilityInput.TagMap | packages/engine/src/state/character-creation.ts:86-92 | the map holds exactly the tagged abilities, every score clamped to [1, 30] |
| AbilityInput.TaggedAbilitiesAt | packages/engine/src/state/character-creation.ts:93 | an ability is tagged exactly when some tag names it |
| AbilityInput.TagMapLast | packages/engine/src/state/character-creation.ts:88-92 | a tagged ability's score is its last tag's value, clamped |
| AbilityInput.DigitTokens | packages/engine/src/state/character-creation.ts:98-101 | the non-empty pieces of the split are runs of digits |
| AbilityInput.PositionalScores | packages/engine/src/state/character-creation.ts:103-110 | six numbers fill all six abilities, each clamped to [1, 30] |
| AbilityInput.ParseAbilityInput | packages/engine/src/state/character-creation.ts:75-113 | whatever is accepted names all six abilities with scores in [1, 30]; a blank answer gives null |
| AbilityInput.KeywordAnyCase | packages/engine/src/state/character-creation.ts:76-80 | "auto", "standard", "default" or "yes" in any letter case, with surrounding white space, give the standard array |
| AbilityInput.TagValueOfDigits | packages/engine/src/state/character-creation.ts:83 | after a key, ':' and one or two digits before a space or the end are read whole |
| AbilityInput.TagPrefixOfWord | packages/engine/src/state/character-creation.ts:83 | the tag pattern matches a word `key:value` exactly |
| AbilityInput.TagMatchesOfText | packages/engine/src/state/character-creation.ts:82-84 | `matchAll` over tag words separated by spaces finds exactly those tags |
| AbilityInput.ParseOfTags | apps/api/src/modules/chat/character-creation.service.ts:93-103 | a normalized non-keyword answer whose tags name every ability is read as those tags |
| AbilityInput.SixTagsMap | apps/api/src/modules/chat/character-creation.service.ts:94-99 | six tags STR..CHA map each ability to its clamped value |
| AbilityInput.ExplicitTagsParse | packages/engine/src/state/character-creation.ts:82-96 | "str:a dex:b con:c int:d wis:e cha:f" is read as those values, each clamped to [1, 30] |
| AbilityInput.DigitTokensOfText | apps/api/src/modules/chat/character-creation.service.ts:105-108 | the runs of digits of numbers written with spaces are the numbers' decimal texts |
| AbilityInput.NoTagsWithoutLetters | apps/api/src/modules/chat/character-creation.service.ts:89-91 | a text with no lower-case letter holds no tag |
| AbilityInput.PositionalOfDecimals | apps/api/src/modules/chat/character-creation.service.ts:110-116 | positional scores of six decimal texts are the numbers clamped |
| AbilityInput.ParseOfNumbers | apps/api/src/modules/chat/character-creation.service.ts:105-117 | a normalized non-keyword answer with no tags and six runs of digits is read positionally |
| AbilityInput.SixNumbersParse | packages/engine/src/state/character-creation.ts:98-110 | six numbers separated by spaces are STR..CHA in order, each clamped to [1, 30] |
| AbilityInput.TaggedAbilities | packages/engine/src/state/character-creation.ts:93 | the abilities some tag names; `TaggedAbilitiesAt` proves it |
| AbilityInput.InOrder | packages/engine/src/state/character-creation.ts:103-110 | six values clamped into STR..CHA; `PositionalOfDecimals` and `SixTagsMap` tie it to the parser |
| DelegatingCreation.SomeContained | apps/api/src/modules/character-creation/character-creation.service.ts:309-332 | true exactly when some listed phrase occurs in the text |
| DelegatingCreation.LocalDelegationHeuristicIff | apps/api/src/modules/character-creation/character-creation.service.ts:307-333 | the heuristic fires exactly when one of the delegation phrases occurs in the trimmed, lower-cased answer |
| DelegatingCreation.DelegationPhraseFirst | apps/api/src/modules/character-creation/character-creation.service.ts:307-333 | a lower-case answer that starts with a delegation phrase counts as delegating |
| DelegatingCreation.ServiceExtractor | apps/api/src/modules/character-creation/extraction.service.ts:14-79 | each call of the injected service throws exactly when its chat call threw; otherwise the classifier gives the reply's `delegated === true` verdict and extraction and suggestion give the reply's normalised update |
| DelegatingCreation.ComputeDelegation | apps/api/src/modules/character-creation/character-creation.service.ts:282-294 | the classifier's verdict when it returns a boolean; the local heuristic when there is no extractor, the call throws or the result is not a boolean |
| DelegatingCreation.DelegationSources | apps/api/src/modules/character-creation/character-creation.service.ts:282-294 | a true or false verdict overrides the heuristic; no extractor, a thrown call and a non-boolean all fall back to it |
| DelegatingCreation.KeywordScores | apps/api/src/modules/character-creation/character-creation.service.ts:62-69 | scores exactly for the four keywords (trimmed, any case), and then the standard array in the default order |
| DelegatingCreation.KeywordScoresAgree | apps/api/src/modules/character-creation/character-creation.service.ts:62-69 | whatever this parser accepts, the full parser of the other copies accepts with the same scores: STR 15, DEX 14, CON 13, INT 12, WIS 10, CHA 8 |
| DelegatingCreation.StoreText | apps/api/src/modules/character-creation/character-creation.service.ts:85-105 | the field holds the text; nothing else changes and `hp <= maxHP` is kept |
| DelegatingCreation.StoreNumber | apps/api/src/modules/character-creation/character-creation.service.ts:106-188 | level and ac stored as given; maxHP lowers a larger hp; hp is capped by maxHP, which defaults to the new hp; only the field and its hp/maxHP partner change; an in-range value stays in range |
| DelegatingCreation.TakeOffer | apps/api/src/modules/character-creation/character-creation.service.ts:88-207 | taking a field from an update changes only that field (and the hp/maxHP partner), keeps `hp <= maxHP`, and stores in range when the update is in range |
| DelegatingCreation.LocalNumber | apps/api/src/modules/character-creation/character-creation.service.ts:115-187 | refused, with the draft unchanged, exactly when `parseInt` fails; otherwise the clamped value is stored in its range |
| DelegatingCreation.LocalAbilities | apps/api/src/modules/character-creation/character-creation.service.ts:189-202 | refused, with the draft unchanged, exactly when the answer is not a keyword; changes only the scores |
| DelegatingCreation.LocalAnswer | apps/api/src/modules/character-creation/character-creation.service.ts:84-211 | the answer without help: an error exactly for unreadable numbers and non-keyword abilities, the draft then unchanged; otherwise only the field changes and numbers land in range |
| DelegatingCreation.Suggested | apps/api/src/modules/character-creation/character-creation.service.ts:110-113 | rejected exactly when the user delegated and the suggestion call threw; a resolved result is well applied |
| DelegatingCreation.DigitRunAllDigits | apps/api/src/modules/character-creation/character-creation.service.ts:107 | `/^\d+$/` holds exactly for a non-empty run of digits |
| DelegatingCreation.Extracted | apps/api/src/modules/character-creation/character-creation.service.ts:107-114 | extraction, then suggestion, then the local answer: every resolved result is well applied |
| DelegatingCreation.ApplyAnswer | apps/api/src/modules/character-creation/character-creation.service.ts:71-215 | a blank answer is refused with the draft unchanged; without an extractor the local answer decides; a rejection needs an extractor and a non-blank answer |
| DelegatingCreation.AnswerWellApplied | apps/api/src/modules/character-creation/character-creation.service.ts:71-215 | every resolved answer changes only its field (and the hp/maxHP partner), keeps `hp <= maxHP`, leaves the draft alone on error, and stores numbers in range when the extractor's are |
| DelegatingCreation.NoExtractorNumbers | apps/api/src/modules/character-creation/character-creation.service.ts:115-187 | without an extractor an unreadable number is refused with its field's own message, and a readable one is stored clamped |
| DelegatingCreation.NoExtractorAbilities | apps/api/src/modules/character-creation/character-creation.service.ts:189-202 | without an extractor a keyword stores the standard array and anything else is refused with the abilities message |
| DelegatingCreation.SpelledOutStaysLocal | apps/api/src/modules/character-creation/character-creation.service.ts:107 | a number given as digits, or a keyword for the abilities, is handled the same with or without an extractor |
| DelegatingCreation.ExtractionFirst | apps/api/src/modules/character-creation/character-creation.service.ts:107-114 | a number or abilities answer that is not spelled out goes to extraction first, then to suggestion under the computed delegation |
| DelegatingCreation.DelegatedTakesSuggestion | apps/api/src/modules/character-creation/character-creation.service.ts:110-113 | when the user delegated and extraction found nothing, the suggested value is stored |
| DelegatingCreation.DigitRunParses | apps/api/src/modules/character-creation/character-creation.service.ts:107-115 | `parseInt` reads every run of digits |
| DelegatingCreation.LocalDigits | apps/api/src/modules/character-creation/character-creation.service.ts:115-120 | a run of digits is never refused by the local answer |
| DelegatingCreation.DigitsStayLocal | apps/api/src/modules/character-creation/character-creation.service.ts:107-120 | a numeric answer made of digits never consults the extractor and is never refused |
| DelegatingCreation.TextFieldChoice | apps/api/src/modules/character-creation/character-creation.service.ts:85-105 | a text field stores the suggestion exactly when the user delegated and a non-empty value was suggested; otherwise the trimmed answer |
| DelegatingCreation.ServiceUpdateRanges | apps/api/src/modules/character-creation/extraction.service.ts:142-171 | every number the extraction service hands over lies in its clamping range, whatever the model replied |
| DelegatingCreation.ServiceAnswersInRange | apps/api/src/modules/character-creation/character-creation.service.ts:106-188 | with the injected service, a resolved numeric answer is stored in its range whichever branch supplied it |
| DelegatingCreation.DelegatedArmorClass | apps/api/src/modules/character-creation/character-creation.service.ts:122-130 | "I don't care" for the armor class, with a delegating classifier and a suggested 12, stores 12 |
| DelegatingCreation.DelegatedBackstory | apps/api/src/modules/character-creation/character-creation.service.ts:204-208 | "you decide" for the backstory stores the suggested text |
| DelegatingCreation.LocalDelegationHeuristic | apps/api/src/modules/character-creation/character-creation.service.ts:307-333 | a delegation phrase in the trimmed, lower-cased text; `LocalDelegationHeuristicIff` proves it |
| DelegatingCreation.NeedsExtraction | apps/api/src/modules/character-creation/character-creation.service.ts:107-194 | numbers that are not digit runs and abilities that are not keywords go to the extractor; `SpelledOutStaysLocal`, `DigitsStayLocal` and `ExtractionFirst` state the two sides |
| Extraction.IndexOf | apps/api/src/modules/character-creation/extraction.service.ts:128 | no index exactly when the character is absent; otherwise its first position |
| Extraction.LastIndexOf | apps/api/src/modules/character-creation/extraction.service.ts:129 | no index exactly when the character is absent; otherwise its last position |
| Extraction.FirstJsonObject | apps/api/src/modules/character-creation/extraction.service.ts:127-132 | nothing exactly when a brace is missing or the last '}' does not follow the first '{'; otherwise the text between them, braces included |
| Extraction.FirstJsonObjectOfBraced | apps/api/src/modules/character-creation/extraction.service.ts:127-132 | a reply that is exactly one braced text without inner braces comes back whole |
| Extraction.AsInt | apps/api/src/modules/character-creation/extraction.service.ts:142 | a number is kept; `undefined`, booleans and objects never read as a number |
| Extraction.TextField | apps/api/src/modules/character-creation/extraction.service.ts:137-140 | kept exactly for a string that is not blank, and then trimmed |
| Extraction.NumberField | apps/api/src/modules/character-creation/extraction.service.ts:144-154 | present exactly when `asInt` reads the value, then within the bounds and unchanged when already inside them |
| Extraction.ReadScores | apps/api/src/modules/character-creation/extraction.service.ts:159-162 | an ability is read exactly when `asInt` reads its key, and is then clamped to 1..30 |
| Extraction.AbilitiesField | apps/api/src/modules/character-creation/extraction.service.ts:156-166 | kept exactly for an object whose six keys all read, and then a full record with scores in 1..30 |
| Extraction.NormalizeAbilities | apps/api/src/modules/character-creation/extraction.service.ts:156-166 | the loop over the six keys gives the abilities field |
| Extraction.NormalizeUpdate | apps/api/src/modules/character-creation/extraction.service.ts:134-174 | the key-by-key construction gives the normalised update |
| Extraction.NormalizedRanges | apps/api/src/modules/character-creation/extraction.service.ts:144-171 | level in 1..20, ac in 5..99, maxHP and hp in 1..999, `hp <= maxHP` when both are present, abilities complete in 1..30 |
| Extraction.NormalizedTextPresence | apps/api/src/modules/character-creation/extraction.service.ts:137-140 | each text key is present exactly when it is a non-blank string, and is kept trimmed |
| Extraction.NormalizedNumberPresence | apps/api/src/modules/character-creation/extraction.service.ts:144-166 | each number is present exactly when `asInt` reads it; the abilities exactly when all six keys read; a level, AC or maxHP already in range is kept as it is |
| Extraction.NormalizedExamples | apps/api/src/modules/character-creation/extraction.service.ts:144-171 | 99, 1, 2000 and -5 become 20, 5, 999 and 1; hp 30 with maxHP 24 becomes 24 |
| Extraction.UpdateFromReply | apps/api/src/modules/character-creation/extraction.service.ts:14-56 | no JSON object, or a failing parse, gives the empty update; otherwise the normalised parse |
| Extraction.DelegationFromReply | apps/api/src/modules/character-creation/extraction.service.ts:62-79 | true exactly when the first JSON object parses and its `delegated` is literally `true` |
| Extraction.Normalized | apps/api/src/modules/character-creation/extraction.service.ts:134-174 | `normalizeUpdate` as a value; `NormalizedRanges`, `NormalizedTextPresence` and `NormalizedNumberPresence` state it, and `NormalizeUpdate` proves the method computes it |
| Text.TrimStartSpec | packages/engine/src/state/character-creation.ts:119 | the start of a trim removes exactly a white-space prefix and stops at the first other character |
| Text.TrimEndSpec | packages/engine/src/state/character-creation.ts:119 | the end of a trim removes exactly a white-space suffix and stops at the last other character |
| Text.Trim | packages/engine/src/state/character-creation.ts:119 | the result has white space at neither end and is no longer than the input |
| Text.TrimBlank | packages/engine/src/state/character-creation.ts:119-122 | an answer trims to nothing exactly when it is all white space |
| Text.TrimPadded | packages/engine/src/state/character-creation.ts:119 | surrounding a tight text with white space and trimming gives the text back |
| Text.TrimTight | packages/engine/src/state/character-creation.ts:119 | a text without white space at either end is its own trim |
| Text.NatToDecimal | packages/engine/src/dm-machine.ts:73 | the decimal text of a number is non-empty, all digits, with no leading zero |
| Text.DecimalRoundTrip | packages/engine/src/dm-machine.ts:74-76 | reading back the decimal text of a number gives that number |
| Text.NatToDecimalInjective | packages/engine/src/dm-machine.ts:74-76 | distinct numbers have distinct decimal texts |
| Text.ParseIntSome | packages/engine/src/state/character-creation.ts:130 | `parseInt` gives a number exactly when a digit follows the leading white space and an optional sign |
| Text.ParseIntDigits | packages/engine/src/state/character-creation.ts:130 | on a run of digits `parseInt` is its decimal value |
| Text.ToLowerAt | packages/engine/src/state/character-creation.ts:76 | lower-casing maps each character on its own, A-Z to a-z, others unchanged |
| Text.IsSpace | packages/engine/src/state/character-creation.ts:119 | the white space `trim` removes and `\s` matches; `TrimStartSpec` and `TrimEndSpec` use it |
| Text.TrimStart | packages/engine/src/state/character-creation.ts:119 | no longer than the input; `TrimStartSpec` proves it removes exactly a white-space prefix |
| Text.TrimEnd | packages/engine/src/state/character-creation.ts:119 | no longer than the input; `TrimEndSpec` proves it removes exactly a white-space suffix |
| Text.ParseInt | packages/engine/src/state/character-creation.ts:130 | `parseInt(s, 10)`; `ParseIntSome` and `ParseIntDigits` state when it reads a number and which |
| Text.ToLower | packages/engine/src/state/character-creation.ts:76 | keeps the length; `ToLowerAt` states the character-by-character mapping |
| Zod.AsNumber | packages/models/src/schemas/entities.ts:10 | accepts only a JSON number, and returns it |
| Zod.AsInt | packages/models/src/schemas/entities.ts:16 | accepts exactly the JSON numbers with no fractional part, and returns that integer |
| Zod.AsIntMin | packages/models/src/schemas/entities.ts:11-12 | accepts only an integer at least the bound |
| Zod.AsIntIn | packages/models/src/schemas/entities.ts:10 | accepts only an integer within both bounds |
| Zod.IntRoundTrip | packages/models/src/schemas/entities.ts:10-13 | an integer written as a JSON number is accepted back unchanged by every integer schema whose bounds it meets |
| Zod.AsString | packages/models/src/schemas/entities.ts:46 | accepts only a string, and returns it |
| Zod.AsNonEmpty | packages/models/src/schemas/entities.ts:44 | accepts only a non-empty string |
| Zod.AsFormatted | packages/models/src/schemas/core.ts:8 | accepts only a string that passes the format check (UUID, datetime) |
| Zod.AsBool | packages/models/src/schemas/dice.ts:18 | accepts only a boolean, and returns it |
| Zod.Each | packages/models/src/schemas/entities.ts:17 | every element passes, the outputs keep the order and the count |
| Zod.EachAll | packages/models/src/schemas/entities.ts:17 | when every element passes, the array passes with exactly those outputs |
| Zod.EachFails | packages/models/src/schemas/entities.ts:17 | one failing element fails the whole array |
| Zod.ArrayOf | packages/models/src/schemas/entities.ts:17 | only an array passes, with one output per element, in order |
| Zod.Encoded | packages/models/src/schemas/entities.ts:17 | the encoding writes one JSON value per element, in order |
| Zod.ArrayRoundTrip | packages/models/src/schemas/entities.ts:17 | an array of encoded elements reads back as the elements when each element does |
| Zod.RecordOf | packages/models/src/schemas/entities.ts:13 | only an object passes; its keys are kept, every key passes the key schema and every value the value schema |
| Zod.EncodedRecord | packages/models/src/schemas/entities.ts:13 | the encoding keeps the keys and encodes each value |
| Zod.RecordRoundTrip | packages/models/src/schemas/entities.ts:13 | a record of encoded values reads back as the values when each key and value does |
| Zod.Required | packages/models/src/schemas/entities.ts:10-15 | a required property passes only when present and accepted |
| Zod.Optional | packages/models/src/schemas/entities.ts:16 | an absent property passes as `undefined`; a present one must pass the schema |
| Zod.Default | packages/models/src/schemas/entities.ts:17-19 | an absent property takes the default; a present one must pass the schema |
| Zod.ParseAbility | packages/models/src/schemas/core.ts:11-13 | accepts only the six ability names, each as itself |
| Zod.AbilityRoundTrip | packages/models/src/schemas/core.ts:11-13 | every ability's name is accepted back as that ability |
| Zod.ParseSpeaker | packages/models/src/schemas/core.ts:16-18 | accepts only AI, PLAYER and SYSTEM |
| Zod.SpeakerRoundTrip | packages/models/src/schemas/core.ts:16-18 | every speaker is accepted back |
| Zod.ParseLanguage | packages/models/src/schemas/core.ts:21-23 | accepts only `en` and `he` |
| Zod.LanguageRoundTrip | packages/models/src/schemas/core.ts:21-23 | every language is accepted back |
| Zod.ParseRating | packages/models/src/schemas/core.ts:26-28 | accepts only E, PG-13 and R |
| Zod.RatingRoundTrip | packages/models/src/schemas/core.ts:26-28 | every rating is accepted back |
| Zod.ParseDamageType | packages/models/src/schemas/core.ts:31-36 | accepts only the thirteen damage type names |
| Zod.DamageTypeRoundTrip | packages/models/src/schemas/core.ts:31-36 | every damage type is accepted back |
| Zod.ParseCondition | packages/models/src/schemas/core.ts:39-44 | accepts only the ten condition names |
| Zod.ConditionRoundTrip | packages/models/src/schemas/core.ts:39-44 | every condition is accepted back |
| Entities.SixKeys | packages/models/src/schemas/entities.ts:13-14 | six keys that are all ability names are exactly the six ability names |
| Entities.NameIsKey | packages/models/src/schemas/core.ts:11 | every ability's name is a key the record accepts |
| Entities.ParseAbilities | packages/models/src/schemas/entities.ts:13-15 | accepts only an object whose keys are exactly the six ability names, scored in 1..30, and returns those scores |
| Entities.EncodeAt | packages/models/src/schemas/entities.ts:13 | the encoded record holds each ability's score under its name |
| Entities.AbilitiesRoundTrip | packages/models/src/schemas/entities.ts:13-15 | every full table of scores in 1..30 is accepted back unchanged |
| Entities.StatFields | packages/models/src/schemas/entities.ts:9-19 | the properties pass only with ac in 5..35, maxHP at least 1, hp at least 0 and valid scores; absent damage lists default to empty |
| Entities.ParseStatBlock | packages/models/src/schemas/entities.ts:9-21 | every accepted stat block is valid, with `hp <= maxHP` |
| Entities.DamageTypesRoundTrip | packages/models/src/schemas/entities.ts:17-19 | every list of damage types is accepted back |
| Entities.EncodeHoldsStats | packages/models/src/schemas/entities.ts:9-19 | the encoding holds every property of the stat block |
| Entities.StatFieldsRoundTrip | packages/models/src/schemas/entities.ts:9-19 | any object holding a stat block's properties reads them back |
| Entities.StatBlockRoundTrip | packages/models/src/schemas/entities.ts:9-21 | every valid stat block is accepted back unchanged |
| Entities.StatBlockRejectsExcessHp | packages/models/src/schemas/entities.ts:20 | an object with hp above maxHP is rejected |
| Entities.StatBlockDefaults | packages/models/src/schemas/entities.ts:17-19 | absent resist, vuln and immune become empty lists |
| Entities.ParseCreatureKind | packages/models/src/schemas/entities.ts:24-26 | accepts only character, npc and monster |
| Entities.ParseItem | packages/models/src/schemas/entities.ts:45-48 | an item's quantity, when given, is at least 1 |
| Entities.ItemRoundTrip | packages/models/src/schemas/entities.ts:45-48 | every item with no quantity or a positive one is accepted back |
| Entities.OwnFields | packages/models/src/schemas/entities.ts:42-49 | the creature's own properties pass only with a UUID id, a non-empty name and positive quantities; absent lists default to empty |
| Entities.ParseCreature | packages/models/src/schemas/entities.ts:29-51 | every accepted creature is valid, with `hp <= maxHP`; absent inventory and conditions become empty |
| Entities.HoldsStatsUnion | packages/models/src/schemas/entities.ts:29-40 | properties outside the stat block's do not disturb it |
| Entities.CreatureHoldsStats | packages/models/src/schemas/entities.ts:29-40 | a creature's flat object holds its stat block |
| Entities.CreatureKeys | packages/models/src/schemas/entities.ts:41-49 | a creature's own properties share no key with the stat block's |
| Entities.CreatureHoldsOwn | packages/models/src/schemas/entities.ts:42-49 | a creature's flat object holds its own properties |
| Entities.ItemsRoundTrip | packages/models/src/schemas/entities.ts:45-48 | every inventory with positive quantities is accepted back |
| Entities.ConditionsRoundTrip | packages/models/src/schemas/entities.ts:49 | every list of conditions is accepted back |
| Entities.OwnFieldsRoundTrip | packages/models/src/schemas/entities.ts:42-49 | any object holding a valid creature's own properties reads them back |
| Entities.CreatureRoundTrip | packages/models/src/schemas/entities.ts:29-51 | every valid creature is accepted back unchanged |
| Entities.CreatureRejectsExcessHp | packages/models/src/schemas/entities.ts:50 | a creature with hp above maxHP is rejected |
| DiceSchemas.ParseDiceRollResult | packages/models/src/schemas/dice.ts:8-14 | every accepted roll result has a non-empty breakdown of dice each at least 1 and a non-empty seed |
| DiceSchemas.RollResultRoundTrip | packages/models/src/schemas/dice.ts:8-14 | every valid roll result is accepted back unchanged |
| DiceSchemas.EmptyBreakdownRejected | packages/models/src/schemas/dice.ts:10-12 | an empty breakdown is rejected |
| DiceSchemas.ExpressionRollValid | packages/engine/src/dice.ts:38-46 | a roll of a valid expression under a non-empty seed satisfies the roll-result schema |
| DiceSchemas.RollSatisfiesSchema | packages/engine/src/dice.ts:30-47 | every successful roll satisfies the roll-result schema and is accepted back unchanged |
| DiceSchemas.ParseDiceVerificationResult | packages/models/src/schemas/dice.ts:17-23 | every accepted verification carries a non-empty reason whenever its verdict is negative |
| DiceSchemas.VerificationRoundTrip | packages/models/src/schemas/dice.ts:17-23 | every valid verification result is accepted back unchanged |
| DiceSchemas.FailureNeedsError | packages/models/src/schemas/dice.ts:20-23 | a negative verdict without a reason is rejected |
| DiceSchemas.EmptyErrorRejected | packages/models/src/schemas/dice.ts:19 | an empty reason is rejected, even beside a positive verdict |
| GameState.Creatures | packages/models/src/schemas/game-state.ts:11 | every creature of an accepted array is valid |
| GameState.CreaturesRoundTrip | packages/models/src/schemas/game-state.ts:11 | every array of valid creatures is accepted back |
| GameState.ParsePartyState | packages/models/src/schemas/game-state.ts:10-16 | an accepted party has valid creatures and only creatures of kind `character` among its characters; absent companions become empty |
| GameState.PartyRoundTrip | packages/models/src/schemas/game-state.ts:10-16 | every valid party is accepted back unchanged |
| GameState.PartyRejectsNonCharacter | packages/models/src/schemas/game-state.ts:13-15 | a party with a non-character among its characters is rejected |
| GameState.ParseEffect | packages/models/src/schemas/game-state.ts:19-24 | an accepted effect has two identifiers, and an expiry round only when the object gives an integer one |
| GameState.EffectRoundTrip | packages/models/src/schemas/game-state.ts:19-24 | every valid effect is accepted back unchanged |
| GameState.FractionalExpiryRejected | packages/models/src/schemas/game-state.ts:23 | a fractional expiry round is rejected |
| GameState.Effects | packages/models/src/schemas/game-state.ts:33 | every effect of an accepted array is valid |
| GameState.EffectsRoundTrip | packages/models/src/schemas/game-state.ts:33 | every array of valid effects is accepted back |
| GameState.ParseEntities | packages/models/src/schemas/game-state.ts:32 | an accepted record keeps its keys, each an identifier, each value a valid creature |
| GameState.EntitiesRoundTrip | packages/models/src/schemas/game-state.ts:32 | every record of valid creatures under identifiers is accepted back |
| GameState.Ids | packages/models/src/schemas/game-state.ts:30 | every element of an accepted identifier array is an identifier |
| GameState.IdsRoundTrip | packages/models/src/schemas/game-state.ts:30 | every array of identifiers is accepted back |
| GameState.EncounterFields | packages/models/src/schemas/game-state.ts:27-33 | the properties pass only when typed as declared; absent effects become empty |
| GameState.ParseEncounter | packages/models/src/schemas/game-state.ts:27-36 | an accepted encounter has its active creature in the initiative order and every creature of that order among its entities |
| GameState.EncodeHoldsEncounter | packages/models/src/schemas/game-state.ts:27-33 | the encoding holds every property of the encounter |
| GameState.EncounterFieldsRoundTrip | packages/models/src/schemas/game-state.ts:27-33 | any object holding an encounter's properties reads them back |
| GameState.EncounterRoundTrip | packages/models/src/schemas/game-state.ts:27-36 | every valid encounter is accepted back unchanged |
| GameState.EncounterRejectsAbsentActive | packages/models/src/schemas/game-state.ts:34 | an encounter whose active creature is not in the initiative order is rejected |
| GameState.EncounterRejectsUnknownId | packages/models/src/schemas/game-state.ts:35 | an encounter whose initiative names a creature it does not hold is rejected |
| GameState.Numbers | packages/models/src/schemas/game-state.ts:44 | only an array passes, with one number per element |
| GameState.ParseRollLog | packages/models/src/schemas/game-state.ts:39-46 | an accepted roll log has an identifier, and a reason exactly when the object has one |
| GameState.RollLogRoundTrip | packages/models/src/schemas/game-state.ts:39-46 | every valid roll log is accepted back unchanged |
| GameState.RollLogs | packages/models/src/schemas/game-state.ts:54 | every roll log of an accepted array is valid |
| GameState.RollLogsRoundTrip | packages/models/src/schemas/game-state.ts:54 | every array of valid roll logs is accepted back |
| GameState.ParseTurn | packages/models/src/schemas/game-state.ts:49-55 | an accepted turn has an identifier, an ISO timestamp and valid rolls; absent rolls become empty |
| GameState.TurnRoundTrip | packages/models/src/schemas/game-state.ts:49-55 | every valid turn is accepted back unchanged |
| GameState.TurnRejectsBadTimestamp | packages/models/src/schemas/game-state.ts:51 | a timestamp that is not an ISO datetime is rejected |
| GameState.Turns | packages/models/src/schemas/game-state.ts:92 | every turn of an accepted array is valid |
| GameState.TurnsRoundTrip | packages/models/src/schemas/game-state.ts:92 | every array of valid turns is accepted back |
| GameState.ParseCanonKind | packages/models/src/schemas/game-state.ts:58-60 | accepts only NPC, Location, Faction, Item and Lore |
| GameState.CanonKindRoundTrip | packages/models/src/schemas/game-state.ts:58-60 | every canon kind is accepted back |
| GameState.TrimmedNonEmpty | packages/models/src/schemas/game-state.ts:66 | an accepted text is trimmed and not empty |
| GameState.TrimmedNonEmptyIff | packages/models/src/schemas/game-state.ts:66 | a text is rejected exactly when it is all white space, and otherwise becomes its trim |
| GameState.TrimmedNonEmptyPadded | packages/models/src/schemas/game-state.ts:66 | white space around a tight, non-empty text is dropped |
| GameState.ParseCanon | packages/models/src/schemas/game-state.ts:63-69 | an accepted fact's summary is the trim of the given one and not empty; `locked` is false when absent; data is present exactly when given |
| GameState.CanonRoundTrip | packages/models/src/schemas/game-state.ts:63-69 | every valid canon fact is accepted back unchanged |
| GameState.CanonRejectsBlankSummary | packages/models/src/schemas/game-state.ts:66 | a blank summary is rejected |
| GameState.Canon | packages/models/src/schemas/game-state.ts:80 | every fact of an accepted array is valid |
| GameState.CanonListRoundTrip | packages/models/src/schemas/game-state.ts:80 | every array of valid facts is accepted back |
| GameState.ParseSettings | packages/models/src/schemas/game-state.ts:76-79 | accepted settings are exactly the language and rating names given |
| GameState.SettingsRoundTrip | packages/models/src/schemas/game-state.ts:76-79 | all settings are accepted back |
| GameState.ParseFlagValue | packages/models/src/schemas/game-state.ts:83 | fails exactly on values that are neither string, number nor boolean |
| GameState.FlagValueRoundTrip | packages/models/src/schemas/game-state.ts:83 | every flag value is accepted back |
| GameState.ParseQuestFlag | packages/models/src/schemas/game-state.ts:81-84 | an accepted flag has the given string key and a value that passes the union |
| GameState.QuestFlagRoundTrip | packages/models/src/schemas/game-state.ts:81-84 | every quest flag is accepted back |
| GameState.QuestFlags | packages/models/src/schemas/game-state.ts:81-84 | only an array passes, with one flag per element |
| GameState.QuestFlagsRoundTrip | packages/models/src/schemas/game-state.ts:81-84 | every array of quest flags is accepted back |
| GameState.CampaignSchema | packages/models/src/schemas/game-state.ts:72-85 | an accepted campaign is valid (identifier, trimmed non-empty name, ISO creation time, valid canon); absent canon and flags become empty |
| GameState.EncodeHoldsCampaign | packages/models/src/schemas/game-state.ts:72-85 | the encoding holds every property of the campaign |
| GameState.CampaignFieldsRoundTrip | packages/models/src/schemas/game-state.ts:72-85 | any object holding a valid campaign's properties reads it back |
| GameState.CampaignRoundTrip | packages/models/src/schemas/game-state.ts:72-85 | every valid campaign is accepted back unchanged |
| GameState.CampaignRejectsBlankName | packages/models/src/schemas/game-state.ts:74 | a blank campaign name is rejected |
| GameState.ParseCampaign | packages/models/src/schemas/game-state.ts:106 | returns exactly when the schema accepts, and then a valid campaign; throws otherwise |
| GameState.ParseCampaignRoundTrip | packages/models/src/schemas/game-state.ts:106 | every valid campaign parses back unchanged |
| GameState.ParseSessionState | packages/models/src/schemas/game-state.ts:93-97 | an accepted state has a valid party and, when present, a valid encounter; the encounter is present exactly when given |
| GameState.EncodeHoldsSessionState | packages/models/src/schemas/game-state.ts:93-97 | the encoding holds every property of the state |
| GameState.SessionStateFromFields | packages/models/src/schemas/game-state.ts:93-97 | the state is read back from properties that each read back |
| GameState.SessionStateRoundTrip | packages/models/src/schemas/game-state.ts:93-97 | every valid state is accepted back unchanged |
| GameState.SessionSchema | packages/models/src/schemas/game-state.ts:88-99 | an accepted session is valid; an absent timeline becomes empty |
| GameState.EncodeHoldsSession | packages/models/src/schemas/game-state.ts:88-99 | the encoding holds every property of the session |
| GameState.SessionFieldsRoundTrip | packages/models/src/schemas/game-state.ts:88-99 | any object holding a valid session's properties reads it back |
| GameState.SessionRoundTrip | packages/models/src/schemas/game-state.ts:88-99 | every valid session is accepted back unchanged |
| GameState.SessionRejectsBadEncounter | packages/models/src/schemas/game-state.ts:95 | a session whose encounter is rejected is rejected as a whole |
| GameState.ParseSession | packages/models/src/schemas/game-state.ts:105 | returns exactly when the schema accepts, and then a valid session; throws otherwise |
| GameState.ParseSessionRoundTrip | packages/models/src/schemas/game-state.ts:105 | every valid session parses back unchanged |

## Left out

- SHA-256 (FIPS 180-4) is not implemented. It is the parameter `sha256`, an arbitrary function to 32-byte digests.
- `randomBytes(32)`, behind a generated seed, is the parameter `entropy`.
- `Math.random` is not modelled, in `MathRandomNumberGenerator` or in the legacy roller of `index.ts`. Random numbers are the parameter `rng` of `DiceRoller` and the `Roller` of `AbilityScores`.
- `safeUUID`, `Date.now` and `formatTimestamp` depend on the clock, randomness or the locale. A finished character's fresh id is the parameter `freshId`, and `formatTimestamp` is not modelled.
- The language model and the network are out of scope. This covers `ChatService.sendChat`, the prompt builders of both `extraction.service.ts` copies, and `exploring.state.ts`.
  - The model's replies are parameters; a reply of `None` is a chat call that threw.
  - The exploring handler is the parameter `explore` of `SessionMachine`.
  - The asynchronous service's extractor is an optional oracle, `DelegatingCreation.Extractor`.
- `JSON.parse` is the parameter `parse`; the normaliser works over the raw-value datatype `Extraction.RawValue`.
- `Extraction.AsInt`: JSON numbers are integers here. `Math.trunc` of a fractional or infinite number is not modelled.
- Zod's JSON numbers are exact reals, so floating-point limits and NaN are not modelled.
- Zod's error messages, issue paths and error aggregation are not modelled. A rejection is `None`, and `parseSession`/`parseCampaign` fail with the single `ZodError`.
- The UUID (RFC 4122) and ISO 8601 datetime checks inside Zod are not modelled. They are the opaque predicates of `Zod.Formats`.
- The legacy schema files (`schemas/character.ts`, `combat.ts`, `creatures.ts`, `logging.ts`, `campaign.ts`, `session.ts`, `versioning.ts`) are not part of this model. They import definitions that `schemas/core.ts` does not provide.
- The type-only model files declare shapes with no behaviour.
- Regular expressions are written as explicit scanners: the dice grammar, the ability tags, `search|investigate` and the formula pattern.
- Lower-casing covers ASCII only. Every keyword, tag and phrase compared after `toLowerCase` is ASCII, but non-ASCII characters that JavaScript lower-cases to ASCII letters are not modelled: KELVIN SIGN (U+212A) becomes "k" and LATIN CAPITAL LETTER I WITH DOT ABOVE (U+0130) becomes "i" plus a combining dot. So an answer such as "STR 15 DEX 14 ..." written with such characters may match a key or keyword in JavaScript but not in the model.
- `in` on plain objects is a key lookup. Prototype properties are not modelled.
- Of xstate, only the transition table, the guards and the context updates are modelled. Left out are `interpret`, `demoFlow` and the state restored by LOAD. `rememberState` is modelled as recording the name of the state being left. Whether xstate's `meta.state` holds that state when the action runs is not modelled.
- SessionMachine.StateMachineService.Step: each step is modelled as one atomic read, transition and write. In the source the sessions map is read at line 17, the handler is awaited at line 28 and the entry is written at line 35. Two overlapping steps for the same session can therefore lose an update; that interleaving is not captured.
- The random number generator stored in the chart's context is not part of the chart model. Rolls arrive as `DICE.ROLL_RESULT` events.
- `DmRandom.FormulaRng.Roll`: the sample `(state - 1) / 2147483646` is computed exactly. The floating-point rounding of `Math.floor(sample() * sides)` is not modelled.
- NestJS modules, controllers, DTOs, the UI, storage and the orchestrator are framework glue, and are not part of this model.
