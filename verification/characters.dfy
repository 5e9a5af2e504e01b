/**
 * `CharacterService`: a new first-level character from a creation request, checked against
 * the merged rules and finished with the rules engine's armour class and hit points.
 */
module Characters {
  import opened Wrappers
  import opened Text
  import opened Tables
  import opened Types
  import opened Calculations
  import opened Rules
  import Skills

  /**
   * The request body `createCharacter` reads.  An absent name or gender is the empty string
   * (both are only tested for truthiness); absent feats are the empty list.
   */
  datatype CharacterRequest = CharacterRequest(
    name: string, race: string, characterClass: string, gender: string, feats: seq<string>)

  /** The skill list of `initializeSkills`, in its order. */
  const SkillList: seq<string> := [
    "Acrobatics", "Animal Handling", "Arcana", "Athletics", "Deception", "History", "Insight",
    "Intimidation", "Investigation", "Medicine", "Nature", "Perception", "Performance",
    "Persuasion", "Religion", "Sleight of Hand", "Stealth", "Survival"]

  /** The list names the skills of `SkillService`'s table, in the same order. */
  lemma SkillListIsSkillTable()
    ensures |SkillList| == |Skills.SkillAbilities|
    ensures forall i :: 0 <= i < |SkillList| ==> SkillList[i] == Skills.SkillAbilities[i].0
  {
  }

  /** Every new skill entry: `{ proficient: false, bonus: 0 }`. */
  const UntrainedSkill := SkillEntry(0, Some(false), None)

  /** `race.abilityBonus?.[key] || 0`. */
  function RacialBonus(bonus: seq<(string, int)>, key: string): int {
    Lookup(bonus, key).GetOr(0)
  }

  /** A starting score: 10, the race's bonus for the ability, and its `all` bonus. */
  function StartingScore(bonus: seq<(string, int)>, a: Ability): int {
    10 + RacialBonus(bonus, a.Key()) + RacialBonus(bonus, "all")
  }

  /** `{ STR: 10 + (abilityBonus?.STR || 0), ... }`. */
  function RacialScores(bonus: seq<(string, int)>): (r: AbilityScores)
    ensures forall a :: r.Get(a) == 10 + RacialBonus(bonus, a.Key())
  {
    AbilityScores(
      10 + RacialBonus(bonus, "STR"), 10 + RacialBonus(bonus, "DEX"), 10 + RacialBonus(bonus, "CON"),
      10 + RacialBonus(bonus, "INT"), 10 + RacialBonus(bonus, "WIS"), 10 + RacialBonus(bonus, "CHA"))
  }

  function RaceNotFound(race: string): string {
    "Race '" + race + "' not found in available races"
  }

  function ClassNotFound(characterClass: string): string {
    "Class '" + characterClass + "' not found in available classes"
  }

  const NameRequired := "Character name is required"

  class CharacterService {
    const rulesEngine: RulesEngine

    constructor(rulesEngine: RulesEngine)
      ensures this.rulesEngine == rulesEngine
    {
      this.rulesEngine := rulesEngine;
    }

    /** `initializeSkills`: every skill of the list, untrained. */
    method InitializeSkills() returns (skills: map<string, SkillEntry>)
      ensures skills.Keys == Skills.SkillNames
      ensures forall k :: k in skills ==> skills[k] == UntrainedSkill
    {
      skills := map[];
      var i := 0;
      while i < |SkillList|
        invariant 0 <= i <= |SkillList|
        invariant skills.Keys == set j | 0 <= j < i :: SkillList[j]
        invariant forall k :: k in skills ==> skills[k] == UntrainedSkill
      {
        skills := skills[SkillList[i] := UntrainedSkill];
        i := i + 1;
      }
      SkillListIsSkillTable();
      assert skills.Keys == Skills.SkillNames by {
        forall k | k in Skills.SkillNames ensures k in skills.Keys {
          var j :| 0 <= j < |Skills.SkillAbilities| && Skills.SkillAbilities[j].0 == k;
          assert SkillList[j] == k;
        }
      }
    }

    /** The score record of `createCharacter`, with the `all` bonus added in a second pass. */
    method StartingScores(bonus: seq<(string, int)>) returns (abilities: AbilityScores)
      ensures forall a :: abilities.Get(a) == StartingScore(bonus, a)
    {
      var base := RacialScores(bonus);
      abilities := base;
      var all := RacialBonus(bonus, "all");
      if all != 0 {
        var i := 0;
        while i < |AllAbilities|
          invariant 0 <= i <= |AllAbilities|
          invariant forall a :: abilities.Get(a) == base.Get(a) + (if Position(a) < i then all else 0)
        {
          var a := AllAbilities[i];
          PositionOfListed(i);
          abilities := abilities.With(a, abilities.Get(a) + all);
          i := i + 1;
        }
      }
      forall a ensures abilities.Get(a) == StartingScore(bonus, a) {
        AllAbilitiesListsEach(a);
      }
    }

    /**
     * `createCharacter`: the race is checked first, then the class (both against the given
     * merged rules), then the name.  The scores are 10 plus the race's bonuses; armour class
     * and hit points come from the engine, whose own merged rules decide the hit die.  The id is
     * `char-` followed by `now`, the clock reading in milliseconds.
     */
    method CreateCharacter(data: CharacterRequest, mergedRules: RuleSet, now: nat) returns (r: Result<Character>)
      ensures data.race !in mergedRules.races ==> r == Failure(RaceNotFound(data.race))
      ensures data.race in mergedRules.races && data.characterClass !in mergedRules.classes ==>
                r == Failure(ClassNotFound(data.characterClass))
      ensures data.race in mergedRules.races && data.characterClass in mergedRules.classes && IsBlank(data.name) ==>
                r == Failure(NameRequired)
      ensures r.Success? <==>
                data.race in mergedRules.races && data.characterClass in mergedRules.classes && !IsBlank(data.name)
      ensures r.Success? ==>
                var c := r.value;
                && c.id == "char-" + IntToString(now)
                && c.name == Trim(data.name) && c.name != []
                && c.level == 1 && c.race == data.race && c.characterClass == data.characterClass
                && c.gender == (if data.gender == "" then "Other" else data.gender)
                && c.feats == data.feats && c.armor == "Leather"
                && (forall a :: c.abilities.Get(a) == StartingScore(mergedRules.races[data.race].AbilityBonus(), a))
                && c.initiative == Modifier(c.abilities.dexterity)
                && c.ac == 10 + c.initiative
                && c.hp.max == rulesEngine.EngineHP(c) && c.hp.current == c.hp.max
                && c.skills.Keys == Skills.SkillNames
                && (forall k :: k in c.skills ==> c.skills[k] == UntrainedSkill)
                && c.persona == NoPersona && c.npcRelations.None?
      ensures r.Success? && data.characterClass !in rulesEngine.mergedRules.classes ==> r.value.hp.max == 8
      ensures r.Success? && data.characterClass in rulesEngine.mergedRules.classes ==>
                var raw := HitDieOr8(rulesEngine.mergedRules.classes[data.characterClass])
                           + Modifier(r.value.abilities.constitution);
                r.value.hp.max == if raw < 1 then 1 else raw
    {
      if data.race !in mergedRules.races {
        return Failure(RaceNotFound(data.race));
      }
      if data.characterClass !in mergedRules.classes {
        return Failure(ClassNotFound(data.characterClass));
      }
      if data.name == "" || Trim(data.name) == [] {
        return Failure(NameRequired);
      }
      var abilities := StartingScores(mergedRules.races[data.race].AbilityBonus());
      var skills := InitializeSkills();
      var gender := if data.gender == "" then "Other" else data.gender;
      var character := Character("char-" + IntToString(now), Trim(data.name), 1, data.race,
        data.characterClass, gender, abilities, skills, data.feats, "Leather", HitPoints(10, 10), 12, Modifier(abilities.dexterity), NoPersona, None);
      character := character.(ac := RulesEngine.CalculateAC(character));
      var hpMax := rulesEngine.CalculateHP(character);
      character := character.(hp := HitPoints(hpMax, hpMax));
      if data.characterClass in rulesEngine.mergedRules.classes {
        EngineHPAtFirstLevel(rulesEngine, character);
      }
      return Success(character);
    }
  }
}
