/**
 * Vocabulary shared by the game packages: the six abilities, creature kinds,
 * damage types and conditions, conversation messages, and the `clamp` helper
 * every character-building path uses.
 */
module Core {
  import opened Wrappers

  datatype Ability = STR | DEX | CON | INT | WIS | CHA

  /** The declared order of the abilities. */
  const ABILITY_ORDER: seq<Ability> := [STR, DEX, CON, INT, WIS, CHA]

  /** Ability scores keyed by ability (a JavaScript record). */
  type Scores = map<Ability, int>

  /** Every ability has a score. */
  predicate FullScores(m: Scores) {
    forall a: Ability :: a in m
  }

  /** The position of `a` in `ABILITY_ORDER`. */
  function AbilityIndex(a: Ability): (i: nat)
    ensures i < |ABILITY_ORDER| && ABILITY_ORDER[i] == a
  {
    match a
    case STR => 0
    case DEX => 1
    case CON => 2
    case INT => 3
    case WIS => 4
    case CHA => 5
  }

  datatype CreatureKind = Character | Npc | Monster

  datatype DamageType =
    | Bludgeoning | Piercing | Slashing | Fire | Cold | Lightning
    | Thunder | Poison | Acid | Psychic | Necrotic | Radiant | Force

  datatype Condition =
    | Prone | Grappled | Restrained | Stunned | Unconscious
    | Poisoned | Frightened | Charmed | Blinded | Deafened

  datatype Role = User | Assistant | System

  datatype Message = Message(role: Role, content: string)

  function Min(a: int, b: int): int { if a <= b then a else b }

  function Max(a: int, b: int): int { if a >= b then a else b }

  /**
   * `clamp(value, min, max)` of the character code: NaN (here `None`, the
   * result of a failed `parseInt`) becomes the minimum, any number is pulled
   * into `[lo, hi]`. The result is never NaN.
   */
  function Clamp(value: Option<int>, lo: int, hi: int): (r: int)
    ensures lo <= hi ==> lo <= r <= hi
    ensures value.None? ==> r == lo
    ensures value.Some? && lo <= value.value <= hi ==> r == value.value
    ensures value.Some? && lo <= hi && value.value > hi ==> r == hi
    ensures value.Some? && value.value < lo ==> r == lo
  {
    match value
    case None => lo
    case Some(v) => Max(lo, Min(hi, v))
  }
}
