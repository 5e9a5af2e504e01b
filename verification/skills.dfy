/**
 * `SkillService`: the eighteen skills and their abilities, the proficiency tiers this service
 * uses, skill bonuses, the class skill lists, the initial skill sheet, its re-basing on level up,
 * the display of a bonus and the recommended difficulty classes.
 */
module Skills {
  import opened Wrappers
  import opened Text
  import opened Tables
  import opened Types
  import opened Calculations

  /** `SKILL_ABILITY_MAP`, in its insertion order. */
  const SkillAbilities: seq<(string, Ability)> := [
    ("Acrobatics", DEX),
    ("Animal Handling", WIS),
    ("Arcana", INT),
    ("Athletics", STR),
    ("Deception", CHA),
    ("History", INT),
    ("Insight", WIS),
    ("Intimidation", CHA),
    ("Investigation", INT),
    ("Medicine", WIS),
    ("Nature", INT),
    ("Perception", WIS),
    ("Performance", CHA),
    ("Persuasion", CHA),
    ("Religion", INT),
    ("Sleight of Hand", DEX),
    ("Stealth", DEX),
    ("Survival", WIS)
  ]

  /** The names of the eighteen skills. */
  const SkillNames: set<string> := KeySet(SkillAbilities)

  lemma SkillNamesDistinct()
    ensures DistinctKeys(SkillAbilities)
  {
  }

  /** `SKILL_ABILITY_MAP[skillName]`. */
  function SkillAbility(skillName: string): (r: Option<Ability>)
    ensures r.Some? <==> skillName in SkillNames
  {
    Lookup(SkillAbilities, skillName)
  }

  /**
   * `getProficiencyBonus`: 2 up to level 8, 3 for levels 9 to 16, 4 from 17 on.  Levels 5-8
   * and 13-16 fall in the lower tier, unlike the character advancement table.
   */
  function ProficiencyTier(level: int): (p: int)
    ensures p == 2 <==> level <= 8
    ensures p == 3 <==> 9 <= level <= 16
    ensures p == 4 <==> 17 <= level
  {
    if level < 5 then 2
    else if level < 9 then 2
    else if level < 13 then 3
    else if level < 17 then 3
    else 4
  }

  /**
   * The tiers agree with `Calculations.ProficiencyBonus` (the advancement table) exactly for
   * levels 1 to 4; at level 5 the tiers give 2 where the table gives 3.
   */
  lemma TiersAgreeWithAdvancementOnlyUpToLevel4(level: int)
    ensures ProficiencyTier(level) == ProficiencyBonus(level) <==> 1 <= level <= 4
  {
    var p := ProficiencyBonus(level);
    if level <= 0 {
      assert p <= 1;
    } else if level <= 4 {
      assert p == 2;
    } else if level <= 8 {
      assert p == 3;
    } else if level <= 16 {
      assert p >= 4;
    } else {
      assert p >= 6;
    }
  }

  /** `{ bonus, abilityMod, profBonus }`. */
  datatype SkillBonus = SkillBonus(bonus: int, abilityMod: int, profBonus: int)

  /** `character.skills?.[skillName]?.isProficient || false`. */
  predicate MarkedProficient(c: Character, skillName: string) {
    skillName in c.skills && c.skills[skillName].isProficient == Some(true)
  }

  /**
   * `calculateSkillBonus`: an unknown skill gives all zeroes; otherwise the modifier of the
   * skill's ability (a score of 0 counts as 10) plus the tier of `level || 1` when the skill's
   * entry says `isProficient`.
   */
  function CalculateSkillBonus(skillName: string, c: Character): (r: SkillBonus)
    ensures SkillAbility(skillName).None? ==> r == SkillBonus(0, 0, 0)
    ensures SkillAbility(skillName).Some? ==>
              r.abilityMod == Modifier(ScoreOr10(c.abilities, SkillAbility(skillName).value)) &&
              r.bonus == r.abilityMod + r.profBonus
    ensures SkillAbility(skillName).Some? && MarkedProficient(c, skillName) ==> r.profBonus == ProficiencyTier(LevelOr1(c))
    ensures !MarkedProficient(c, skillName) ==> r.profBonus == 0
  {
    match SkillAbility(skillName)
    case None => SkillBonus(0, 0, 0)
    case Some(ability) =>
      var abilityMod := Modifier(ScoreOr10(c.abilities, ability));
      var profBonus := if MarkedProficient(c, skillName) then ProficiencyTier(LevelOr1(c)) else 0;
      SkillBonus(abilityMod + profBonus, abilityMod, profBonus)
  }

  /**
   * The service reads `isProficient`, but the character record's own field is `proficient`:
   * a skill marked only `proficient: true` earns no proficiency bonus here.
   */
  lemma ProficientFieldIsIgnored(skillName: string, c: Character, bonus: int)
    requires skillName in SkillNames
    requires skillName in c.skills && c.skills[skillName] == SkillEntry(bonus, Some(true), None)
    ensures CalculateSkillBonus(skillName, c).profBonus == 0
    ensures CalculateSkillBonus(skillName, c).bonus == Modifier(ScoreOr10(c.abilities, SkillAbility(skillName).value))
  {
  }

  /** The `classProficiencies` table both `initializeSkillsForClass` and `getClassProficiencies` hold. */
  const ClassSkillLists: seq<(string, seq<string>)> := [
    ("Barbarian", ["Athletics", "Intimidation"]),
    ("Bard", ["Acrobatics", "Animal Handling", "Arcana", "Athletics", "Deception", "History", "Insight",
              "Intimidation", "Investigation", "Medicine", "Nature", "Perception", "Performance",
              "Persuasion", "Religion", "Sleight of Hand", "Stealth", "Survival"]),
    ("Cleric", ["Insight", "Medicine", "Persuasion", "Religion"]),
    ("Druid", ["Animal Handling", "Arcana", "Insight", "Medicine", "Nature", "Perception", "Religion", "Survival"]),
    ("Fighter", ["Acrobatics", "Animal Handling", "Athletics", "History", "Insight", "Intimidation",
                 "Perception", "Survival"]),
    ("Monk", ["Acrobatics", "Athletics", "History", "Insight", "Religion", "Stealth"]),
    ("Paladin", ["Athletics", "Insight", "Intimidation", "Medicine", "Persuasion", "Religion"]),
    ("Ranger", ["Animal Handling", "Athletics", "Insight", "Investigation", "Nature", "Perception",
                "Stealth", "Survival"]),
    ("Rogue", ["Acrobatics", "Athletics", "Deception", "Insight", "Intimidation", "Investigation",
               "Perception", "Performance", "Persuasion", "Sleight of Hand", "Stealth"]),
    ("Sorcerer", ["Arcana", "Deception", "Insight", "Intimidation", "Perception", "Persuasion"]),
    ("Warlock", ["Arcana", "Deception", "History", "Insight", "Intimidation", "Investigation", "Nature", "Religion"]),
    ("Wizard", ["Arcana", "History", "Insight", "Investigation", "Medicine", "Religion"])
  ]

  /** `getClassProficiencies`: the class's list, or `[]` for a class the table lacks. */
  function ClassProficiencies(characterClass: string): (r: seq<string>)
    ensures Lookup(ClassSkillLists, characterClass).None? ==> r == []
    ensures Lookup(ClassSkillLists, characterClass).Some? ==> r == Lookup(ClassSkillLists, characterClass).value
  {
    Lookup(ClassSkillLists, characterClass).GetOr([])
  }

  /** Every skill a class list names is one of the eighteen. */
  lemma ClassListsNameSkills(characterClass: string)
    ensures forall s :: s in ClassProficiencies(characterClass) ==> s in SkillNames
  {
    var bard := ClassSkillLists[1].1;
    assert bard == seq(|SkillAbilities|, j requires 0 <= j < |SkillAbilities| => SkillAbilities[j].0);
    assert forall i, s :: 0 <= i < |ClassSkillLists| && s in ClassSkillLists[i].1 ==> s in bard;
    forall s | s in bard
      ensures s in SkillNames
    {
      var j :| 0 <= j < |bard| && bard[j] == s;
      assert SkillAbilities[j].0 == s;
    }
  }

  /** One entry of the initial sheet: the ability modifier, plus the bonus if proficient. */
  function InitialEntry(abilities: AbilityScores, ability: Ability, proficient: bool, profBonus: int): (e: SkillEntry)
    ensures e.isProficient == Some(proficient) && e.proficient.None?
    ensures e.bonus - Modifier(ScoreOr10(abilities, ability)) == (if proficient then profBonus else 0)
  {
    SkillEntry(Modifier(ScoreOr10(abilities, ability)) + (if proficient then profBonus else 0), None, Some(proficient))
  }

  /** A skill sheet over a skill table: one entry per skill. */
  function Sheet(table: seq<(string, Ability)>, proficiencies: seq<string>, abilities: AbilityScores, profBonus: int)
    : (m: map<string, SkillEntry>)
    ensures m.Keys == KeySet(table)
  {
    map k | k in KeySet(table) :: InitialEntry(abilities, Lookup(table, k).value, k in proficiencies, profBonus)
  }

  /** The sheet `initializeSkillsForClass` builds: one entry per skill. */
  function InitialSkills(characterClass: string, abilities: AbilityScores, level: int): (m: map<string, SkillEntry>)
    ensures m.Keys == SkillNames
  {
    Sheet(SkillAbilities, ClassProficiencies(characterClass), abilities, ProficiencyTier(level))
  }

  /** A skill is marked proficient on the initial sheet exactly when the class list names it. */
  lemma InitialProficienciesAreClassList(characterClass: string, abilities: AbilityScores, level: int)
    ensures var m := InitialSkills(characterClass, abilities, level);
            forall k :: k in m && m[k].isProficient == Some(true) <==> k in ClassProficiencies(characterClass)
  {
    ClassListsNameSkills(characterClass);
  }

  /** The `forEach` of `initializeSkillsForClass` over a table whose keys are distinct. */
  method FillSheet(table: seq<(string, Ability)>, proficiencies: seq<string>, abilities: AbilityScores, profBonus: int)
    returns (skills: map<string, SkillEntry>)
    requires DistinctKeys(table)
    ensures skills == Sheet(table, proficiencies, abilities, profBonus)
  {
    skills := map[];
    var i := 0;
    while i < |table|
      invariant 0 <= i <= |table|
      invariant skills.Keys == set j | 0 <= j < i :: table[j].0
      invariant forall j :: 0 <= j < i ==>
                  skills[table[j].0] == InitialEntry(abilities, table[j].1, table[j].0 in proficiencies, profBonus)
    {
      var (skillName, ability) := table[i];
      skills := skills[skillName := InitialEntry(abilities, ability, skillName in proficiencies, profBonus)];
      i := i + 1;
    }
    forall j | 0 <= j < |table|
      ensures Lookup(table, table[j].0) == Some(table[j].1)
    {
      LookupFirst(table, j);
    }
  }

  /** `initializeSkillsForClass`: the class's list (or none) decides which skills are proficient. */
  method InitializeSkillsForClass(characterClass: string, abilities: AbilityScores, level: int)
    returns (skills: map<string, SkillEntry>)
    ensures skills == InitialSkills(characterClass, abilities, level)
  {
    var proficiencies := ClassProficiencies(characterClass);
    var profBonus := ProficiencyTier(level);
    SkillNamesDistinct();
    skills := FillSheet(SkillAbilities, proficiencies, abilities, profBonus);
  }

  /** `Array.prototype.slice(0, count)` on the class list, negative counts included. */
  function RecommendedSkills(characterClass: string, count: int): (r: seq<string>)
    ensures var all := ClassProficiencies(characterClass);
            |r| == (if count >= 0 then (if count < |all| then count else |all|)
                    else (if |all| + count > 0 then |all| + count else 0)) &&
            r == all[..|r|]
  {
    var all := ClassProficiencies(characterClass);
    var end := if count >= 0 then (if count < |all| then count else |all|)
               else (if |all| + count > 0 then |all| + count else 0);
    all[..end]
  }

  /** A skill entry after re-basing: proficient entries move by `d`. */
  function Shift(e: SkillEntry, d: int): (r: SkillEntry)
    ensures r.isProficient == e.isProficient && r.proficient == e.proficient
    ensures e.isProficient == Some(true) ==> r.bonus == e.bonus + d
    ensures e.isProficient != Some(true) ==> r == e
  {
    if e.isProficient == Some(true) then e.(bonus := e.bonus + d) else e
  }

  /** The whole sheet re-based by `d`. */
  function LevelUp(skills: map<string, SkillEntry>, d: int): (m: map<string, SkillEntry>)
    ensures m.Keys == skills.Keys
    ensures d == 0 ==> m == skills
  {
    map k | k in skills :: Shift(skills[k], d)
  }

  /**
   * `updateSkillsOnLevelUp`: the sheet unchanged when the tier does not move, otherwise every
   * proficient entry shifted by the change in tier.
   */
  method UpdateSkillsOnLevelUp(skills: map<string, SkillEntry>, previousLevel: int, newLevel: int)
    returns (updated: map<string, SkillEntry>)
    ensures updated == LevelUp(skills, ProficiencyTier(newLevel) - ProficiencyTier(previousLevel))
  {
    var bonusDifference := ProficiencyTier(newLevel) - ProficiencyTier(previousLevel);
    if bonusDifference == 0 {
      return skills;
    }
    updated := skills;
    var pending := skills.Keys;
    while pending != {}
      invariant pending <= skills.Keys && updated.Keys == skills.Keys
      invariant forall k :: k in skills ==>
                  updated[k] == if k in pending then skills[k] else Shift(skills[k], bonusDifference)
      decreases |pending|
    {
      var skillName :| skillName in pending;
      if updated[skillName].isProficient == Some(true) {
        updated := updated[skillName := updated[skillName].(bonus := updated[skillName].bonus + bonusDifference)];
      }
      pending := pending - {skillName};
    }
  }

  /** Two level-ups in a row re-base by the sum of their shifts. */
  lemma LevelUpComposes(skills: map<string, SkillEntry>, d1: int, d2: int)
    ensures LevelUp(LevelUp(skills, d1), d2) == LevelUp(skills, d1 + d2)
  {
    var a, b := LevelUp(LevelUp(skills, d1), d2), LevelUp(skills, d1 + d2);
    assert forall k :: k in a ==> a[k] == b[k];
  }

  /** Re-basing a sheet by the change in proficiency bonus gives the sheet built with the new bonus. */
  lemma SheetLevelUp(table: seq<(string, Ability)>, proficiencies: seq<string>, abilities: AbilityScores, p1: int, p2: int)
    ensures LevelUp(Sheet(table, proficiencies, abilities, p1), p2 - p1) == Sheet(table, proficiencies, abilities, p2)
  {
    var a, b := LevelUp(Sheet(table, proficiencies, abilities, p1), p2 - p1), Sheet(table, proficiencies, abilities, p2);
    assert forall k :: k in a ==> a[k] == b[k];
  }

  /**
   * Re-basing is consistent with building afresh: the sheet built at one level and updated to
   * another is the sheet built at the other level.
   */
  lemma LevelUpRebasesInitialSheet(characterClass: string, abilities: AbilityScores, level1: int, level2: int)
    ensures LevelUp(InitialSkills(characterClass, abilities, level1), ProficiencyTier(level2) - ProficiencyTier(level1))
            == InitialSkills(characterClass, abilities, level2)
  {
    SheetLevelUp(SkillAbilities, ClassProficiencies(characterClass), abilities, ProficiencyTier(level1), ProficiencyTier(level2));
  }

  /** `formatBonus`: a sign always, `+0` for zero. */
  function FormatBonus(bonus: int): (r: string)
    ensures r != [] && (r[0] == '+' || r[0] == '-') && AllDigits(r[1..])
    ensures r[0] == '+' <==> bonus >= 0
  {
    if bonus > 0 then "+" + IntToString(bonus)
    else if bonus < 0 then IntToString(bonus)
    else "+0"
  }

  /** Reading a formatted bonus back gives the bonus. */
  lemma FormatBonusRoundTrip(bonus: int)
    ensures SignedValue(FormatBonus(bonus)) == bonus
  {
    if bonus > 0 {
      assert FormatBonus(bonus)[1..] == NatToString(bonus);
      DigitsValueOfNatToString(bonus);
    } else if bonus < 0 {
      assert FormatBonus(bonus) == IntToString(bonus);
      IntToStringRoundTrip(bonus);
    } else {
      assert FormatBonus(bonus)[1..] == NatToString(0);
      DigitsValueOfNatToString(0);
    }
  }

  datatype Difficulty = Trivial | Easy | Medium | Hard | VeryHard | NearlyImpossible {
    function Rank(): (n: nat)
      ensures n < 6
    {
      match this
      case Trivial => 0
      case Easy => 1
      case Medium => 2
      case Hard => 3
      case VeryHard => 4
      case NearlyImpossible => 5
    }
  }

  /** `recommendDC`: 5, 10, ..., 30 from trivial to nearly impossible. */
  function RecommendDC(difficulty: Difficulty): (dc: int)
    ensures dc == 5 * (difficulty.Rank() + 1)
  {
    match difficulty
    case Trivial => 5
    case Easy => 10
    case Medium => 15
    case Hard => 20
    case VeryHard => 25
    case NearlyImpossible => 30
  }

  /** A harder check never has a lower DC. */
  lemma RecommendDCIncreasing(d1: Difficulty, d2: Difficulty)
    requires d1.Rank() < d2.Rank()
    ensures RecommendDC(d1) < RecommendDC(d2)
  {
  }
}
