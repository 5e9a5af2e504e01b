/**
 * The records the services exchange: abilities, skill entries, characters and the custom
 * content a user can author.  Optional JavaScript properties become `Option`s, or the empty
 * string / empty list where the code only ever tests them for truthiness.
 */
module Types {
  import opened Wrappers

  /** The six abilities, under the keys the code uses (`'STR'`, ..., `'CHA'`). */
  datatype Ability = STR | DEX | CON | INT | WIS | CHA {
    function Key(): (k: string)
      ensures |k| == 3
    {
      match this
      case STR => "STR"
      case DEX => "DEX"
      case CON => "CON"
      case INT => "INT"
      case WIS => "WIS"
      case CHA => "CHA"
    }
  }

  /** The order in which every loop of the code visits the abilities. */
  const AllAbilities: seq<Ability> := [STR, DEX, CON, INT, WIS, CHA]

  lemma AllAbilitiesListsEach(a: Ability)
    ensures a in AllAbilities
  {
  }

  /** Where an ability stands in `AllAbilities`. */
  function Position(a: Ability): (i: nat)
    ensures i < |AllAbilities| && AllAbilities[i] == a
  {
    match a
    case STR => 0
    case DEX => 1
    case CON => 2
    case INT => 3
    case WIS => 4
    case CHA => 5
  }

  /** Each ability is listed exactly once. */
  lemma PositionOfListed(i: nat)
    requires i < |AllAbilities|
    ensures Position(AllAbilities[i]) == i
  {
  }

  /** A complete `{STR, DEX, CON, INT, WIS, CHA}` record. */
  datatype AbilityScores = AbilityScores(
    strength: int, dexterity: int, constitution: int,
    intelligence: int, wisdom: int, charisma: int)
  {
    function Get(a: Ability): int {
      match a
      case STR => strength
      case DEX => dexterity
      case CON => constitution
      case INT => intelligence
      case WIS => wisdom
      case CHA => charisma
    }

    /** `scores[a] = v`. */
    function With(a: Ability, v: int): (r: AbilityScores)
      ensures r.Get(a) == v
      ensures forall b :: b != a ==> r.Get(b) == Get(b)
    {
      match a
      case STR => this.(strength := v)
      case DEX => this.(dexterity := v)
      case CON => this.(constitution := v)
      case INT => this.(intelligence := v)
      case WIS => this.(wisdom := v)
      case CHA => this.(charisma := v)
    }
  }

  /** The same score for every ability. */
  function Uniform(v: int): (r: AbilityScores)
    ensures forall a :: r.Get(a) == v
  {
    AbilityScores(v, v, v, v, v, v)
  }

  /** `abilities[a] || 10`: a score of 0 (or a missing one) counts as 10. */
  function ScoreOr10(s: AbilityScores, a: Ability): (r: int)
    ensures r != 0
  {
    if s.Get(a) != 0 then s.Get(a) else 10
  }

  /**
   * One entry of `character.skills`.  The `Character` type declares `proficient`, while
   * `SkillService` writes and reads `isProficient`; both are kept, each possibly absent.
   */
  datatype SkillEntry = SkillEntry(bonus: int, proficient: Option<bool>, isProficient: Option<bool>)

  datatype HitPoints = HitPoints(current: int, max: int)

  /**
   * `character.personality.traits` is a list where the creation wizard fills it in, but
   * `ActionOrchestrator` treats it as a string; both shapes occur.
   */
  datatype Traits = TraitsAbsent | TraitsText(text: string) | TraitsList(items: seq<string>)

  /** `character.personality`; an empty string stands for an absent or empty field. */
  datatype Personality = Personality(traits: Traits, ideals: string, bonds: string, flaws: string)

  /** The descriptive, optional part of a character that only the prompts read. */
  datatype Persona = Persona(
    traits: seq<string>, background: string, personality: Option<Personality>,
    alignment: string, secrets: seq<string>, backstory: string,
    emotionalState: string, shortTermGoal: string, wounds: seq<string>)

  const NoPersona := Persona([], "", None, "", [], "", "", "", [])

  datatype NpcRelation = NpcRelation(reputation: string, history: seq<string>)

  datatype Character = Character(
    id: string, name: string, level: int, race: string, characterClass: string, gender: string,
    abilities: AbilityScores, skills: map<string, SkillEntry>, feats: seq<string>,
    armor: string, hp: HitPoints, ac: int, initiative: int,
    persona: Persona, npcRelations: Option<map<string, NpcRelation>>)

  /** `character.level || 1`. */
  function LevelOr1(c: Character): (l: int)
    ensures l != 0
  {
    if c.level != 0 then c.level else 1
  }

  /** Where a piece of content comes from: the `source` field. */
  datatype Source = Official | Custom

  /** A user-defined race; `abilityBonus` keeps the insertion order of its keys. */
  datatype CustomRace = CustomRace(
    id: string, name: string, description: string, size: string, speed: int,
    abilityBonus: seq<(string, int)>, features: seq<string>, source: Source)

  datatype ClassFeature = ClassFeature(level: int, name: string, description: string)

  datatype CustomClass = CustomClass(
    id: string, name: string, description: string, hitDice: int,
    primaryAbility: string, customFeatures: seq<ClassFeature>, source: Source)

  datatype CustomFeat = CustomFeat(
    id: string, name: string, description: string, prerequisite: string, source: Source)

  /** The part of a world record the services read; an absent field is the empty string. */
  datatype World = World(name: string, description: string, difficulty: string)

  /** The user's content file: each section optional, each a dictionary keyed by name. */
  datatype CustomContent = CustomContent(
    races: Option<map<string, CustomRace>>, classes: Option<map<string, CustomClass>>,
    feats: Option<map<string, CustomFeat>>)

  /** `{ valid, error? }`, the shape every validator returns. */
  datatype Validation = Validation(valid: bool, error: Option<string>)
}
