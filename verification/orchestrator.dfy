/**
 * `ActionOrchestrator`: one player action taken through intent analysis, a d20 check, the
 * personality's effect on NPCs, the relationship stub and the formatting of the suggested next
 * actions.
 *
 * The language model's answers (the parsed intent, the narrative, the suggestions) and the
 * d20 draw are parameters.
 */
module Orchestrator {
  import opened Wrappers
  import opened Text
  import opened Tables
  import opened Types
  import opened Calculations
  import opened Words
  import Dice
  import Skills
  import Prompts

  /** `SKILL_ABILITY_MAP`, in its insertion order. */
  const SkillAbilityMap: seq<(string, Ability)> := [
    ("Athletics", STR),
    ("Acrobatics", DEX),
    ("Stealth", DEX),
    ("Sleight of Hand", DEX),
    ("Perception", WIS),
    ("Insight", WIS),
    ("Medicine", WIS),
    ("Animal Handling", WIS),
    ("Survival", WIS),
    ("Arcana", INT),
    ("History", INT),
    ("Investigation", INT),
    ("Nature", INT),
    ("Religion", INT),
    ("Deception", CHA),
    ("Intimidation", CHA),
    ("Performance", CHA),
    ("Persuasion", CHA)
  ]

  /** `SKILL_ABILITY_MAP[skill]`. */
  function SkillAbility(skill: string): (r: Option<Ability>)
    ensures r.Some? <==> skill in KeySet(SkillAbilityMap)
  {
    Lookup(SkillAbilityMap, skill)
  }

  /** Where each entry of the orchestrator's table stands in `SkillService`'s, and back. */
  const ToServiceOrder: seq<nat> := [3, 0, 16, 15, 11, 6, 9, 1, 17, 2, 5, 8, 10, 14, 4, 7, 12, 13]
  const FromServiceOrder: seq<nat> := [1, 7, 9, 0, 14, 10, 5, 15, 11, 6, 12, 4, 16, 17, 13, 3, 2, 8]

  /** The two tables hold the same entries, in different orders. */
  lemma SameEntries()
    ensures |ToServiceOrder| == |SkillAbilityMap| && |FromServiceOrder| == |Skills.SkillAbilities|
    ensures forall i :: 0 <= i < |SkillAbilityMap| ==>
              ToServiceOrder[i] < |Skills.SkillAbilities| && Skills.SkillAbilities[ToServiceOrder[i]] == SkillAbilityMap[i]
    ensures forall j :: 0 <= j < |Skills.SkillAbilities| ==>
              FromServiceOrder[j] < |SkillAbilityMap| && SkillAbilityMap[FromServiceOrder[j]] == Skills.SkillAbilities[j]
  {
  }

  /** The orchestrator's table and `SkillService`'s give every skill the same ability. */
  lemma SkillTablesAgree(skill: string)
    ensures SkillAbility(skill) == Skills.SkillAbility(skill)
  {
    var mine := SkillAbility(skill);
    var theirs := Skills.SkillAbility(skill);
    SameEntries();
    if mine.Some? {
      var i :| 0 <= i < |SkillAbilityMap| && SkillAbilityMap[i] == (skill, mine.value);
      var j := ToServiceOrder[i];
      Skills.SkillNamesDistinct();
      LookupFirst(Skills.SkillAbilities, j);
    }
  }

  /**
   * `getSkillModifier`: 0 for an unknown skill; otherwise the modifier of the skill's ability
   * (a score of 0 counts as 10), raised to the entry's stored bonus when the character has an
   * entry for the skill and it is higher.
   */
  function GetSkillModifier(c: Character, skill: string): (r: int)
    ensures SkillAbility(skill).None? ==> r == 0
    ensures SkillAbility(skill).Some? ==>
              var abilityMod := Modifier(ScoreOr10(c.abilities, SkillAbility(skill).value));
              && r >= abilityMod
              && (skill !in c.skills ==> r == abilityMod)
              && (skill in c.skills ==> r == if c.skills[skill].bonus > abilityMod then c.skills[skill].bonus else abilityMod)
  {
    match SkillAbility(skill)
    case None => 0
    case Some(ability) =>
      var abilityMod := Modifier(ScoreOr10(c.abilities, ability));
      var profBonus := if skill in c.skills then
                         var skillBonus := c.skills[skill].bonus;
                         if skillBonus - abilityMod > 0 then skillBonus - abilityMod else 0
                       else 0;
      abilityMod + profBonus
  }

  /** `getProficiencyBonus`: 2 up to level 8 (levels below 1 included), 3 for 9 to 16, 4 from 17 on. */
  function GetProficiencyBonus(level: int): (p: int)
    ensures p == 2 <==> level <= 8
    ensures p == 3 <==> 9 <= level <= 16
    ensures p == 4 <==> 17 <= level
  {
    if level < 5 then 2
    else if level < 9 then 2
    else if level < 13 then 3
    else if level < 17 then 3
    else 4
  }

  /** The orchestrator's tiers are `SkillService`'s, level for level. */
  lemma ProficiencyTiersAgree(level: int)
    ensures GetProficiencyBonus(level) == Skills.ProficiencyTier(level)
  {
  }

  /**
   * `ActionIntent`.  The type is kept as the string the model returned (`'combat'`,
   * `'dialogue'`, ... or anything else it says); absent fields are `None`.
   */
  datatype Intent = Intent(
    kind: string, skill: Option<string>, ability: Option<Ability>, difficulty: Option<int>,
    requiresRoll: bool, reasoning: string)

  /** A JSON value where the code compares with `=== true`: a boolean, or anything else. */
  datatype Flag = Bool(b: bool) | NotBoolean

  /** The fields of the parsed reply; an absent or `null` string is `""`, an absent number 0. */
  datatype ParsedIntent = ParsedIntent(kind: string, skill: string, difficulty: int, requiresRoll: Flag, reasoning: string)

  /** What `analyzeIntent` returns when the reply cannot be parsed. */
  const ParseErrorIntent := Intent("freeform", None, None, None, false, "Parse error")

  /**
   * `analyzeIntent` after the model has answered: `None` stands for a reply that does not
   * parse, which falls back to a free-form action without a roll.  Otherwise each field takes
   * its default when falsy, the ability comes from the skill table, and a roll is required only
   * for a literal `true`.
   */
  function AnalyzeIntent(reply: Option<ParsedIntent>): (intent: Intent)
    ensures reply.None? ==> intent == ParseErrorIntent
    ensures reply.Some? ==>
              var p := reply.value;
              && intent.kind == (if p.kind != "" then p.kind else "freeform")
              && (intent.skill.Some? <==> p.skill != "")
              && (p.skill != "" ==> intent.skill == Some(p.skill) && intent.ability == SkillAbility(p.skill))
              && (p.skill == "" ==> intent.ability.None?)
              && (intent.difficulty.Some? <==> p.difficulty != 0)
              && (p.difficulty != 0 ==> intent.difficulty == Some(p.difficulty))
              && (intent.requiresRoll <==> p.requiresRoll == Bool(true))
              && intent.reasoning == (if p.reasoning != "" then p.reasoning else "Automated analysis")
  {
    match reply
    case None => ParseErrorIntent
    case Some(p) =>
      var ability := if p.skill != "" then SkillAbility(p.skill) else None;
      Intent(
        if p.kind != "" then p.kind else "freeform",
        if p.skill != "" then Some(p.skill) else None,
        ability,
        if p.difficulty != 0 then Some(p.difficulty) else None,
        p.requiresRoll == Bool(true),
        if p.reasoning != "" then p.reasoning else "Automated analysis")
  }

  /** `DiceResult`. */
  datatype DiceResult = DiceResult(
    roll: int, abilityMod: int, profBonus: int, modifier: int, total: int, success: bool,
    margin: int, criticalHit: bool, criticalMiss: bool)

  /** `intent.difficulty || 10`. */
  function DifficultyOr10(intent: Intent): (dc: int)
    ensures intent.difficulty.Some? && intent.difficulty.value != 0 ==> dc == intent.difficulty.value
    ensures intent.difficulty.None? || intent.difficulty.value == 0 ==> dc == 10
  {
    if intent.difficulty.Some? && intent.difficulty.value != 0 then intent.difficulty.value else 10
  }

  /**
   * `rollDice`, with `u` the draw behind the d20.  A skill gives the skill modifier and no
   * proficiency; otherwise a combat action uses the better of the STR and DEX modifiers plus
   * the proficiency of `level || 1`; anything else adds nothing.  The check succeeds when the
   * total reaches the difficulty, whatever the die shows.
   */
  function RollDice(c: Character, intent: Intent, u: real): (r: DiceResult)
    requires 0.0 <= u < 1.0
    ensures 1 <= r.roll <= 20 && r.roll == Dice.RollD20(u)
    ensures intent.skill.Some? && intent.skill.value != "" ==>
              r.abilityMod == GetSkillModifier(c, intent.skill.value) && r.profBonus == 0
    ensures !(intent.skill.Some? && intent.skill.value != "") && intent.kind == "combat" ==>
              var strMod := Modifier(c.abilities.strength);
              var dexMod := Modifier(c.abilities.dexterity);
              && r.abilityMod == (if dexMod >= strMod then dexMod else strMod)
              && r.profBonus == GetProficiencyBonus(LevelOr1(c))
    ensures !(intent.skill.Some? && intent.skill.value != "") && intent.kind != "combat" ==>
              r.abilityMod == 0 && r.profBonus == 0
    ensures r.modifier == r.abilityMod + r.profBonus && r.total == r.roll + r.modifier
    ensures r.success <==> r.total >= DifficultyOr10(intent)
    ensures r.margin == r.total - DifficultyOr10(intent)
    ensures r.criticalHit <==> r.roll == 20
    ensures r.criticalMiss <==> r.roll == 1
  {
    var roll := Dice.RollD20(u);
    var (abilityMod, profBonus) :=
      if intent.skill.Some? && intent.skill.value != "" then (GetSkillModifier(c, intent.skill.value), 0)
      else if intent.kind == "combat" then
        var dexMod := Modifier(c.abilities.dexterity);
        var strMod := Modifier(c.abilities.strength);
        (if dexMod >= strMod then dexMod else strMod, GetProficiencyBonus(LevelOr1(c)))
      else (0, 0);
    var modifier := abilityMod + profBonus;
    var total := roll + modifier;
    var difficulty := DifficultyOr10(intent);
    DiceResult(roll, abilityMod, profBonus, modifier, total, total >= difficulty, total - difficulty, roll == 20, roll == 1)
  }

  /** A natural 20 and a natural 1 never coincide, and neither decides success on its own. */
  lemma CriticalsExclusive(c: Character, intent: Intent, u: real)
    requires 0.0 <= u < 1.0
    ensures var r := RollDice(c, intent, u);
            && !(r.criticalHit && r.criticalMiss)
            && (r.success <==> r.margin >= 0)
  {
  }

  /** A combat roll with no skill adds at least 2 to the better physical modifier. */
  lemma CombatAddsProficiency(c: Character, intent: Intent, u: real)
    requires 0.0 <= u < 1.0
    requires intent.skill.None? && intent.kind == "combat"
    ensures var r := RollDice(c, intent, u);
            r.modifier >= Modifier(c.abilities.strength) + 2 && r.modifier >= Modifier(c.abilities.dexterity) + 2
  {
  }

  const NoInteraction := "No NPC interaction"
  const Charming := "Charming personality: NPCs are more receptive (CHA bonus applies)"
  const Intimidating := "Intimidating demeanor: NPCs respect strength (STR can apply)"
  const Deceptive := "Deceptive nature: NPCs may be fooled but trust is hard to earn"
  const Just := "Idealistic about justice: Lawful NPCs are more helpful"
  const Free := "Values freedom: Chaotic NPCs respect this character"

  /** What `toLowerCase` on a list of traits throws. */
  const TraitsLowerError := "personality.toLowerCase is not a function"

  /**
   * `character.personality?.traits || 'neutral'` as the string the rules read, or the error a
   * list of traits raises there (a list, even an empty one, is truthy and has no
   * `toLowerCase`).
   */
  function TraitsText(c: Character): (r: Result<string>)
    ensures r.Failure? <==> c.persona.personality.Some? && c.persona.personality.value.traits.TraitsList?
  {
    if c.persona.personality.None? then Success("neutral")
    else match c.persona.personality.value.traits
      case TraitsAbsent => Success("neutral")
      case TraitsText(t) => Success(if t != "" then t else "neutral")
      case TraitsList(_) => Failure(TraitsLowerError)
  }

  /** `character.personality?.ideals || 'survival'`. */
  function IdealsOrSurvival(c: Character): string {
    if c.persona.personality.Some? && c.persona.personality.value.ideals != "" then c.persona.personality.value.ideals
    else "survival"
  }

  /** The closing line: the CHA modifier with its sign. */
  function CharismaLine(c: Character): (r: string)
    ensures r == "CHA modifier " + Skills.FormatBonus(Modifier(c.abilities.charisma)) + " affects persuasion"
  {
    var charisma := Modifier(c.abilities.charisma);
    "CHA modifier " + (if charisma >= 0 then "+" else "") + IntToString(charisma) + " affects persuasion"
  }

  /**
   * `analyzePersonalityInfluence`: nothing outside dialogue; in dialogue the first rule that
   * matches wins, traits before ideals, in the order charm, intimidat, deceptive, justice,
   * freedom, and the CHA line when none does.
   */
  function PersonalityInfluence(c: Character, intent: Intent): (r: Result<string>)
    ensures intent.kind != "dialogue" ==> r == Success(NoInteraction)
    ensures intent.kind == "dialogue" ==> (r.Failure? <==> TraitsText(c).Failure?)
    ensures intent.kind == "dialogue" && TraitsText(c).Success? ==>
              var p := ToLower(TraitsText(c).value);
              var ideals := ToLower(IdealsOrSurvival(c));
              && (Contains(p, "charm") ==> r.value == Charming)
              && (!Contains(p, "charm") && Contains(p, "intimidat") ==> r.value == Intimidating)
              && (!Contains(p, "charm") && !Contains(p, "intimidat") && Contains(p, "deceptive") ==> r.value == Deceptive)
              && (!Contains(p, "charm") && !Contains(p, "intimidat") && !Contains(p, "deceptive") ==>
                    (Contains(ideals, "justice") ==> r.value == Just)
                    && (!Contains(ideals, "justice") && Contains(ideals, "freedom") ==> r.value == Free)
                    && (!Contains(ideals, "justice") && !Contains(ideals, "freedom") ==> r.value == CharismaLine(c)))
  {
    if intent.kind != "dialogue" then Success(NoInteraction)
    else match TraitsText(c)
      case Failure(e) => Failure(e)
      case Success(traits) =>
        var personality := ToLower(traits);
        var ideals := ToLower(IdealsOrSurvival(c));
        if Contains(personality, "charm") then Success(Charming)
        else if Contains(personality, "intimidat") then Success(Intimidating)
        else if Contains(personality, "deceptive") then Success(Deceptive)
        else if Contains(ideals, "justice") then Success(Just)
        else if Contains(ideals, "freedom") then Success(Free)
        else Success(CharismaLine(c))
  }

  /** Without traits and ideals, dialogue reports the CHA modifier. */
  lemma PlainCharacterGetsCharismaLine(c: Character, intent: Intent)
    requires intent.kind == "dialogue" && c.persona.personality.None?
    ensures PersonalityInfluence(c, intent) == Success(CharismaLine(c))
  {
    LowerCaseFixed("neutral");
    LowerCaseFixed("survival");
    DefaultsMatchNoRule();
  }

  /** The default traits and ideals hold none of the words the rules look for. */
  lemma DefaultsMatchNoRule()
    ensures !Contains("neutral", "charm") && !Contains("neutral", "intimidat") && !Contains("neutral", "deceptive")
    ensures !Contains("survival", "justice") && !Contains("survival", "freedom")
  {
    FirstLetterAbsent("neutral", "charm");
    FirstLetterAbsent("neutral", "intimidat");
    FirstLetterAbsent("neutral", "deceptive");
    FirstLetterAbsent("survival", "justice");
    FirstLetterAbsent("survival", "freedom");
  }

  /** Lower-casing leaves a word of lower-case ASCII letters as it is. */
  lemma LowerCaseFixed(s: string)
    requires forall i :: 0 <= i < |s| ==> IsAsciiLower(s[i])
    ensures ToLower(s) == s
  {
    assert forall i :: 0 <= i < |s| ==> ToLower(s)[i] == s[i];
  }

  /** A word whose first letter never occurs in the text is not contained in it. */
  lemma FirstLetterAbsent(s: string, sub: string)
    requires |sub| > 0 && forall i :: 0 <= i < |s| ==> s[i] != sub[0]
    ensures !Contains(s, sub)
  {
    forall i | 0 <= i <= |s| - |sub| ensures !ContainsAt(s, sub, i) {
      assert s[i..i + |sub|][0] == s[i];
    }
  }

  /** The points a relationship moves: up after success, more for a kind one; down otherwise. */
  function PointsChange(success: bool, personality: string): (d: int)
    ensures success ==> d == (if Contains(personality, "kind") then 5 else 3)
    ensures !success ==> d == (if Contains(personality, "deceptive") then -5 else -2)
    ensures success <==> d > 0
  {
    if success then (if Contains(personality, "kind") then 5 else 3)
    else (if Contains(personality, "deceptive") then -5 else -2)
  }

  /**
   * `evolveRelationships`: gives the character an empty relation record when it has none, and
   * always reports a change.  The points it computes are only logged.
   */
  method EvolveRelationships(c: Character, success: bool, personality: string) returns (updated: Character, changed: bool)
    ensures changed
    ensures updated == c.(npcRelations := if c.npcRelations.None? then Some(map[]) else c.npcRelations)
  {
    updated := c;
    if updated.npcRelations.None? {
      updated := updated.(npcRelations := Some(map[]));
    }
    var pointsChange := PointsChange(success, personality);
    return updated, true;
  }

  /**
   * What `formatActionText` yields: white space collapsed and trimmed, then, for a single word
   * holding a lower-to-upper letter pair, the camel case split and lower-cased.
   */
  function FormattedAction(action: string): string
  {
    var formatted := Trim(CollapseSpaces(action));
    if !HasSpace(formatted) && HasCamelPair(formatted) then ToLower(SplitCamel(formatted)) else formatted
  }

  /** A formatted action is tidy: single spaces only, none at either end. */
  lemma FormattedActionTidy(action: string)
    ensures Tidy(FormattedAction(action))
  {
    var formatted := Trim(CollapseSpaces(action));
    TrimTidy(CollapseSpaces(action));
    if !HasSpace(formatted) && HasCamelPair(formatted) {
      CamelSplitTidy(formatted);
    }
  }

  /** Splitting and lower-casing a single word leaves it tidy. */
  lemma CamelSplitTidy(s: string)
    requires !HasSpace(s)
    ensures Tidy(ToLower(SplitCamel(s)))
  {
    ToLowerKeepsTidy(SplitCamel(s));
  }

  /** `formatActionText`: the collapsed text, replaced by its split form when it is one camel-case word. */
  method FormatActionText(action: string) returns (formatted: string)
    ensures formatted == FormattedAction(action)
  {
    formatted := Trim(CollapseSpaces(action));
    if !HasSpace(formatted) && HasCamelPair(formatted) {
      formatted := ToLower(SplitCamel(formatted));
    }
  }

  /** Lower-casing keeps every white-space character where it is. */
  lemma ToLowerKeepsSpace(s: string)
    requires HasSpace(s)
    ensures HasSpace(ToLower(s))
  {
    var i :| 0 <= i < |s| && IsSpace(s[i]);
    assert IsSpace(ToLower(s)[i]);
  }

  /** A tidy text is its own collapsed and trimmed form. */
  lemma TidyIsFixed(r: string)
    requires Tidy(r)
    ensures Trim(CollapseSpaces(r)) == r
  {
    CollapseSingleSpaced(r);
    TidyTrim(r);
  }

  /** A tidy text that is not a single camel-case word formats to itself. */
  lemma FormattedFixed(r: string)
    requires Tidy(r) && (HasSpace(r) || !HasCamelPair(r))
    ensures FormattedAction(r) == r
  {
    TidyIsFixed(r);
  }

  /** A formatted action is never again a single camel-case word. */
  lemma FormattedSettled(action: string)
    ensures HasSpace(FormattedAction(action)) || !HasCamelPair(FormattedAction(action))
  {
    var formatted := Trim(CollapseSpaces(action));
    if !HasSpace(formatted) && HasCamelPair(formatted) {
      ToLowerKeepsSpace(SplitCamel(formatted));
    }
  }

  /** Formatting an already formatted action changes nothing. */
  lemma FormattedActionIdempotent(action: string)
    ensures FormattedAction(FormattedAction(action)) == FormattedAction(action)
  {
    FormattedActionTidy(action);
    FormattedSettled(action);
    FormattedFixed(FormattedAction(action));
  }

  /** `translations` of `sanitizeForLanguage`, values copied character by character. */
  const ClassTranslations: seq<(string, string)> := [
    ("Barbarian", "\U{00D0}\U{2019}\U{00D0}\U{00B0}\U{00D1}\U{20AC}\U{00D0}\U{00B2}\U{00D0}\U{00B0}\U{00D1}\U{20AC}"),
    ("Bard", "\U{00D0}\U{2018}\U{00D0}\U{00B0}\U{00D1}\U{20AC}\U{00D0}\U{00B4}"),
    ("Cleric", "\U{00D0}\U{00A1}\U{00D0}\U{00B2}\U{00D1}\U{00D1}\U{2030}\U{00D0}\U{00B5}\U{00D0}\U{00BD}\U{00D0}\U{00BD}\U{00D0}\U{00B8}\U{00D0}\U{00BA}"),
    ("Druid", "\U{00D0}\U{201D}\U{00D1}\U{20AC}\U{00D1}\U{0192}\U{00D0}\U{00B8}\U{00D0}\U{00B4}"),
    ("Fighter", "\U{00D0}\U{2019}\U{00D0}\U{00BE}\U{00D0}\U{00B8}\U{00D0}\U{00BD}"),
    ("Monk", "\U{00D0}\U{0153}\U{00D0}\U{00BE}\U{00D0}\U{00BD}\U{00D0}\U{00B0}\U{00D1}\U{2026}"),
    ("Paladin", "\U{00D0}\U{0178}\U{00D0}\U{00B0}\U{00D0}\U{00BB}\U{00D0}\U{00B0}\U{00D0}\U{00B4}\U{00D0}\U{00B8}\U{00D0}\U{00BD}"),
    ("Ranger", "\U{00D0}\U{00A0}\U{00D0}\U{00B5}\U{00D0}\U{00B9}\U{00D0}\U{00BD}\U{00D0}\U{00B4}\U{00D0}\U{00B6}\U{00D0}\U{00B5}\U{00D1}\U{20AC}"),
    ("Rogue", "\U{00D0}\U{00A0}\U{00D0}\U{00B0}\U{00D0}\U{00B7}\U{00D0}\U{00B1}\U{00D0}\U{00BE}\U{00D0}\U{00B9}\U{00D0}\U{00BD}\U{00D0}\U{00B8}\U{00D0}\U{00BA}"),
    ("Sorcerer", "\U{00D0}\U{00A7}\U{00D0}\U{00B0}\U{00D1}\U{20AC}\U{00D0}\U{00BE}\U{00D0}\U{00B4}\U{00D0}\U{00B5}\U{00D0}\U{00B9}"),
    ("Warlock", "\U{00D0}\U{0161}\U{00D0}\U{00BE}\U{00D0}\U{00BB}\U{00D0}\U{00B4}\U{00D1}\U{0192}\U{00D0}\U{00BD}"),
    ("Wizard", "\U{00D0}\U{2019}\U{00D0}\U{00BE}\U{00D0}\U{00BB}\U{00D1}\U{02C6}\U{00D0}\U{00B5}\U{00D0}\U{00B1}\U{00D0}\U{00BD}\U{00D0}\U{00B8}\U{00D0}\U{00BA}")
  ]

  lemma ClassKeysNonEmpty()
    ensures forall i :: 0 <= i < |ClassTranslations| ==> |ClassTranslations[i].0| > 0
  {
  }

  /** What `sanitizeForLanguage` yields: English text as is, otherwise every class name replaced as a whole word. */
  function Sanitized(text: string, language: Prompts.Language): (r: string)
    ensures language == Prompts.En ==> r == text
  {
    ClassKeysNonEmpty();
    if language == Prompts.En then text else ReplaceAllWords(ClassTranslations, text, false)
  }

  /** `sanitizeForLanguage`: one case-sensitive whole-word replacement per table entry, in order. */
  method SanitizeForLanguage(text: string, language: Prompts.Language) returns (result: string)
    ensures result == Sanitized(text, language)
  {
    if language == Prompts.En {
      return text;
    }
    ClassKeysNonEmpty();
    result := text;
    var i := 0;
    while i < |ClassTranslations|
      invariant 0 <= i <= |ClassTranslations|
      invariant ReplaceAllWords(ClassTranslations[i..], result, false) == ReplaceAllWords(ClassTranslations, text, false)
    {
      var (en, ru) := ClassTranslations[i];
      assert ClassTranslations[i..][1..] == ClassTranslations[i + 1..];
      result := ReplaceWord(result, en, ru, false);
      i := i + 1;
    }
  }

  /** Text that names no class comes back unchanged in either language. */
  lemma SanitizeWithoutClassNames(text: string, language: Prompts.Language)
    requires forall i :: 0 <= i < |ClassTranslations| ==> !Occurs(text, ClassTranslations[i].0, false)
    ensures Sanitized(text, language) == text
  {
    ClassKeysNonEmpty();
    ReplaceAllWordsAbsent(ClassTranslations, text, false);
  }

  /** `ActionResult`. */
  datatype ActionOutcome = ActionOutcome(
    intent: Intent, diceResult: Option<DiceResult>, narrative: string, suggestedActions: seq<string>,
    npcInfluence: string, relationshipChanged: bool)

  /**
   * `processAction`.  The model's parsed intent (`None` when it does not parse), its narrative
   * and its suggestions are parameters, as is the d20 draw `u`.  It fails exactly when the
   * personality rules throw; otherwise a dice result exists exactly when the intent asks for a
   * roll, the relationship changes exactly for a dialogue with a roll (and only then does the
   * character gain a relation record), and every suggestion is formatted then localised, none
   * dropped.
   */
  method ProcessAction(
    character: Character, language: Prompts.Language, reply: Option<ParsedIntent>, u: real,
    narrative: string, suggestions: seq<string>)
    returns (r: Result<ActionOutcome>, updated: Character)
    requires 0.0 <= u < 1.0
    ensures var intent := AnalyzeIntent(reply);
            r.Failure? <==> PersonalityInfluence(character, intent).Failure?
    ensures r.Failure? ==> updated == character
    ensures r.Success? ==>
              var o := r.value;
              var intent := AnalyzeIntent(reply);
              && o.intent == intent && o.narrative == narrative
              && (o.diceResult.Some? <==> intent.requiresRoll)
              && (o.diceResult.Some? ==> o.diceResult.value == RollDice(character, intent, u))
              && o.npcInfluence == PersonalityInfluence(character, intent).value
              && (o.relationshipChanged <==> intent.kind == "dialogue" && intent.requiresRoll)
              && o.suggestedActions == LocalizedSuggestions(suggestions, language)
              && updated == (if o.relationshipChanged && character.npcRelations.None?
                             then character.(npcRelations := Some(map[])) else character)
  {
    updated := character;
    var intent := AnalyzeIntent(reply);
    var diceResult: Option<DiceResult> := None;
    if intent.requiresRoll {
      diceResult := Some(RollDice(character, intent, u));
    }
    var influence := PersonalityInfluence(character, intent);
    if influence.Failure? {
      return Failure(influence.error), updated;
    }
    var relationshipChanged := false;
    if intent.kind == "dialogue" && diceResult.Some? {
      updated, relationshipChanged := EvolveRelationships(character, diceResult.value.success, IdealsOrEmpty(character));
    }
    var suggested := LocalizedSuggestions(suggestions, language);
    return Success(ActionOutcome(intent, diceResult, narrative, suggested, influence.value, relationshipChanged)), updated;
  }

  /** `ss.map(f)`. */
  function MapStrings(f: string -> string, ss: seq<string>): (r: seq<string>)
    ensures |r| == |ss|
  {
    if ss == [] then [] else MapStrings(f, ss[..|ss| - 1]) + [f(ss[|ss| - 1])]
  }

  /** Each element of the map is `f` of the element in the same place. */
  lemma {:induction false} MapStringsEach(f: string -> string, ss: seq<string>)
    ensures forall i :: 0 <= i < |ss| ==> MapStrings(f, ss)[i] == f(ss[i])
  {
    if ss != [] {
      var n := |ss| - 1;
      MapStringsEach(f, ss[..n]);
      assert forall i :: 0 <= i < n ==> ss[..n][i] == ss[i];
    }
  }

  /** A suggestion formatted, then localised. */
  function LocalizedSuggestion(suggestion: string, language: Prompts.Language): string {
    Sanitized(FormattedAction(suggestion), language)
  }

  /** The suggestions each formatted, then localised, in order. */
  function LocalizedSuggestions(suggestions: seq<string>, language: Prompts.Language): seq<string> {
    MapStrings(s => LocalizedSuggestion(s, language), suggestions)
  }

  /** Every suggestion is kept, in its place, formatted and then localised. */
  lemma LocalizedSuggestionsEach(suggestions: seq<string>, language: Prompts.Language)
    ensures |LocalizedSuggestions(suggestions, language)| == |suggestions|
    ensures forall i :: 0 <= i < |suggestions| ==>
              LocalizedSuggestions(suggestions, language)[i] == Sanitized(FormattedAction(suggestions[i]), language)
  {
    MapStringsEach(s => LocalizedSuggestion(s, language), suggestions);
  }

  /** `character.personality?.ideals || ''`. */
  function IdealsOrEmpty(c: Character): string {
    if c.persona.personality.Some? then c.persona.personality.value.ideals else ""
  }

  /** A reply that does not parse never rolls, never changes a relationship and reports no NPC interaction. */
  lemma ParseErrorIsQuiet(character: Character, language: Prompts.Language, u: real, narrative: string)
    requires 0.0 <= u < 1.0
    ensures var intent := AnalyzeIntent(None);
            && !intent.requiresRoll && intent.kind != "dialogue"
            && PersonalityInfluence(character, intent) == Success(NoInteraction)
  {
  }
}
