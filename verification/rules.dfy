/**
 * `RulesEngine`: the core rules read from the rules file, merged with the user's custom
 * content, and the engine's own modifier, armour class, hit point and attack formulas.
 *
 * The rules file is not part of this model: what it holds is a parameter, and every section
 * the services never look inside is an opaque JSON value.  A race, class or feat entry keeps
 * only the fields the services read.
 */
module Rules {
  import opened Wrappers
  import opened Types
  import opened Calculations
  import opened Dice

  /** A JSON value, for the sections the engine only passes on. */
  datatype Json =
    | JsonNull
    | JsonBool(b: bool)
    | JsonNumber(n: int)
    | JsonString(s: string)
    | JsonArray(items: seq<Json>)
    | JsonObject(fields: seq<(string, Json)>)

  /**
   * An entry of the races, classes or feats section: one read from the rules file (a missing
   * `hitDice` is 0, a missing `abilityBonus` empty), or a user-defined one.
   */
  datatype RuleEntry =
    | CoreEntry(hitDice: int, abilityBonus: seq<(string, int)>)
    | RaceEntry(race: CustomRace)
    | ClassEntry(cls: CustomClass)
    | FeatEntry(feat: CustomFeat)
  {
    /** `entry.hitDice`, 0 where the entry has none. */
    function HitDice(): int {
      match this
      case CoreEntry(h, _) => h
      case ClassEntry(c) => c.hitDice
      case _ => 0
    }

    /** `entry.abilityBonus`, empty where the entry has none. */
    function AbilityBonus(): seq<(string, int)> {
      match this
      case CoreEntry(_, b) => b
      case RaceEntry(r) => r.abilityBonus
      case _ => []
    }
  }

  /** The shape shared by `coreRules` and `mergedRules`. */
  datatype RuleSet = RuleSet(
    races: map<string, RuleEntry>, classes: map<string, RuleEntry>, feats: map<string, RuleEntry>,
    spells: Json, monsters: Json, skills: Json, conditions: Json, mechanics: Json, equipment: Json)

  function Armor(name: string, ac: int, kind: string): Json {
    JsonObject([("name", JsonString(name)), ("ac", JsonNumber(ac)), ("type", JsonString(kind))])
  }

  /** The built-in armour table: one light, one medium and one heavy armour. */
  const DefaultEquipment := JsonObject([("armor", JsonObject([
    ("light", JsonArray([Armor("Leather", 11, "light")])),
    ("medium", JsonArray([Armor("Chain Mail", 16, "medium")])),
    ("heavy", JsonArray([Armor("Plate", 18, "heavy")]))]))])

  const EmptyObject := JsonObject([])

  /** The core rules before anything is loaded. */
  const DefaultCore := RuleSet(map[], map[], map[], EmptyObject, EmptyObject, EmptyObject,
                               EmptyObject, EmptyObject, DefaultEquipment)

  /** The merged rules of a freshly constructed engine: every section empty. */
  const EmptyRules := RuleSet(map[], map[], map[], EmptyObject, EmptyObject, EmptyObject,
                              EmptyObject, EmptyObject, EmptyObject)

  /** The sections of the rules file the engine copies, each possibly absent. */
  datatype RulesFile = RulesFile(
    races: Option<map<string, RuleEntry>>, classes: Option<map<string, RuleEntry>>,
    feats: Option<map<string, RuleEntry>>, spellsSample: Option<Json>,
    monstersSample: Option<Json>, skills: Option<Json>, conditions: Option<Json>)

  /** The core rules after the present sections of `data` replace those of `core`. */
  function Load(core: RuleSet, data: RulesFile): (r: RuleSet)
    ensures r.races == data.races.GetOr(core.races)
    ensures r.classes == data.classes.GetOr(core.classes)
    ensures r.feats == data.feats.GetOr(core.feats)
    ensures r.spells == data.spellsSample.GetOr(core.spells)
    ensures r.monsters == data.monstersSample.GetOr(core.monsters)
    ensures r.skills == data.skills.GetOr(core.skills)
    ensures r.conditions == data.conditions.GetOr(core.conditions)
    ensures r.mechanics == core.mechanics && r.equipment == core.equipment
  {
    core.(races := data.races.GetOr(core.races), classes := data.classes.GetOr(core.classes),
          feats := data.feats.GetOr(core.feats), spells := data.spellsSample.GetOr(core.spells),
          monsters := data.monstersSample.GetOr(core.monsters), skills := data.skills.GetOr(core.skills),
          conditions := data.conditions.GetOr(core.conditions))
  }

  /** `customContent.races || {}`, as rule entries. */
  function CustomRaces(content: CustomContent): map<string, RuleEntry> {
    var rs := content.races.GetOr(map[]);
    map k | k in rs :: RaceEntry(rs[k])
  }

  function CustomClasses(content: CustomContent): map<string, RuleEntry> {
    var cs := content.classes.GetOr(map[]);
    map k | k in cs :: ClassEntry(cs[k])
  }

  function CustomFeats(content: CustomContent): map<string, RuleEntry> {
    var fs := content.feats.GetOr(map[]);
    map k | k in fs :: FeatEntry(fs[k])
  }

  /** `{ ...core, ...custom }`: every key of both, the custom entry where both have one. */
  function MergeSection(core: map<string, RuleEntry>, custom: map<string, RuleEntry>): (m: map<string, RuleEntry>)
    ensures m.Keys == core.Keys + custom.Keys
    ensures forall k :: k in custom ==> m[k] == custom[k]
    ensures forall k :: k in core && k !in custom ==> m[k] == core[k]
  {
    core + custom
  }

  /** `mergeRules`: custom races, classes and feats over the core ones; the rest from core. */
  function Merge(core: RuleSet, content: CustomContent): (r: RuleSet)
    ensures r.races == MergeSection(core.races, CustomRaces(content))
    ensures r.classes == MergeSection(core.classes, CustomClasses(content))
    ensures r.feats == MergeSection(core.feats, CustomFeats(content))
    ensures r.spells == core.spells && r.monsters == core.monsters && r.skills == core.skills
    ensures r.conditions == core.conditions && r.mechanics == core.mechanics
    ensures r.equipment == core.equipment
  {
    RuleSet(MergeSection(core.races, CustomRaces(content)),
            MergeSection(core.classes, CustomClasses(content)),
            MergeSection(core.feats, CustomFeats(content)),
            core.spells, core.monsters, core.skills, core.conditions, core.mechanics, core.equipment)
  }

  /** A custom race is found under its key after merging, whatever the core rules hold. */
  lemma CustomRaceWins(core: RuleSet, content: CustomContent, name: string)
    requires content.races.Some? && name in content.races.value
    ensures name in Merge(core, content).races
    ensures Merge(core, content).races[name] == RaceEntry(content.races.value[name])
  {
  }

  /** A core class no custom class shadows survives the merge unchanged. */
  lemma CoreClassSurvives(core: RuleSet, content: CustomContent, name: string)
    requires name in core.classes
    requires content.classes.None? || name !in content.classes.value
    ensures name in Merge(core, content).classes
    ensures Merge(core, content).classes[name] == core.classes[name]
  {
  }

  /** With no custom content at all, merging reproduces the core rules. */
  lemma MergeWithoutCustomContent(core: RuleSet)
    ensures Merge(core, CustomContent(None, None, None)) == core
  {
  }

  /** `classData.hitDice || 8`. */
  function HitDieOr8(e: RuleEntry): (h: int)
    ensures h != 0
    ensures e.HitDice() != 0 ==> h == e.HitDice()
  {
    if e.HitDice() != 0 then e.HitDice() else 8
  }

  /** `{ roll, total, isCrit, isMiss }`. */
  datatype AttackRoll = AttackRoll(roll: int, total: int, isCrit: bool, isMiss: bool)

  class RulesEngine {
    var coreRules: RuleSet
    const customContent: CustomContent
    var mergedRules: RuleSet

    /** The constructor sets the core rules' defaults and leaves the merged rules empty. */
    constructor(customContent: CustomContent)
      ensures this.customContent == customContent
      ensures coreRules == DefaultCore && mergedRules == EmptyRules
    {
      this.customContent := customContent;
      coreRules := DefaultCore;
      mergedRules := EmptyRules;
    }

    /** `getRace(name)`: null for a name the merged rules do not hold. */
    function GetRace(name: string): (r: Option<RuleEntry>)
      reads this
      ensures r.None? <==> name !in mergedRules.races
      ensures r.Some? ==> r.value == mergedRules.races[name]
    {
      if name in mergedRules.races then Some(mergedRules.races[name]) else None
    }

    function GetClass(name: string): (r: Option<RuleEntry>)
      reads this
      ensures r.None? <==> name !in mergedRules.classes
      ensures r.Some? ==> r.value == mergedRules.classes[name]
    {
      if name in mergedRules.classes then Some(mergedRules.classes[name]) else None
    }

    function GetFeat(name: string): (r: Option<RuleEntry>)
      reads this
      ensures r.None? <==> name !in mergedRules.feats
      ensures r.Some? ==> r.value == mergedRules.feats[name]
    {
      if name in mergedRules.feats then Some(mergedRules.feats[name]) else None
    }

    /**
     * `mergeRules`: the merged rules become the core rules overlaid with the custom content;
     * the core rules and the custom content stay as they are.
     */
    method MergeRules()
      modifies this
      ensures mergedRules == Merge(coreRules, customContent)
      ensures coreRules == old(coreRules)
    {
      mergedRules := RuleSet(
        MergeSection(coreRules.races, CustomRaces(customContent)),
        MergeSection(coreRules.classes, CustomClasses(customContent)),
        MergeSection(coreRules.feats, CustomFeats(customContent)),
        coreRules.spells, coreRules.monsters, coreRules.skills, coreRules.conditions,
        coreRules.mechanics, coreRules.equipment);
    }

    /**
     * `loadCoreRules`, given what reading the rules file produced (`None` when no file could
     * be read or parsed): the sections the file has replace the core ones, and in either case
     * the rules are merged again.
     */
    method LoadCoreRules(data: Option<RulesFile>)
      modifies this
      ensures data.Some? ==> coreRules == Load(old(coreRules), data.value)
      ensures data.None? ==> coreRules == old(coreRules)
      ensures mergedRules == Merge(coreRules, customContent)
    {
      if data.Some? {
        var file := data.value;
        if file.races.Some? { coreRules := coreRules.(races := file.races.value); }
        if file.classes.Some? { coreRules := coreRules.(classes := file.classes.value); }
        if file.feats.Some? { coreRules := coreRules.(feats := file.feats.value); }
        if file.spellsSample.Some? { coreRules := coreRules.(spells := file.spellsSample.value); }
        if file.monstersSample.Some? { coreRules := coreRules.(monsters := file.monstersSample.value); }
        if file.skills.Some? { coreRules := coreRules.(skills := file.skills.value); }
        if file.conditions.Some? { coreRules := coreRules.(conditions := file.conditions.value); }
      }
      MergeRules();
    }

    /** `calculateAC`: 10 plus the DEX modifier; a character's armour is not consulted. */
    static function CalculateAC(c: Character): (ac: int)
      ensures ac == ArmorClass(0, Modifier(c.abilities.dexterity), false)
      ensures 2 * (ac - 10) <= c.abilities.dexterity - 10 < 2 * (ac - 10) + 2
    {
      10 + Modifier(c.abilities.dexterity)
    }

    /** The hit points `calculateHP` returns for a character under the current merged rules. */
    function EngineHP(c: Character): (hp: int)
      reads this
      ensures hp >= 1
      ensures GetClass(c.characterClass).None? ==> hp == 8
    {
      match GetClass(c.characterClass)
      case None => 8
      case Some(e) => HP(HitDieOr8(e), c.level, Modifier(c.abilities.constitution))
    }

    /**
     * `calculateHP`: 8 for a class the merged rules do not know; otherwise the hit die
     * (`hitDice || 8`) plus the CON modifier, and for each level from 2 on the larger of 1
     * and half the hit die rounded up plus the CON modifier; never below 1.
     */
    method CalculateHP(c: Character) returns (hp: int)
      ensures hp == EngineHP(c)
      ensures c.characterClass in mergedRules.classes ==>
                hp == HP(HitDieOr8(mergedRules.classes[c.characterClass]), c.level, Modifier(c.abilities.constitution))
    {
      var classData := GetClass(c.characterClass);
      if classData.None? {
        return 8;
      }
      var conMod := Modifier(c.abilities.constitution);
      var hitDie := HitDieOr8(classData.value);
      hp := hitDie + conMod;
      var i := 2;
      while i <= c.level
        invariant 2 <= i && (c.level >= 2 ==> i <= c.level + 1) && (c.level < 2 ==> i == 2)
        invariant hp == hitDie + conMod + (i - 2) * PerLevelHP(hitDie, conMod)
      {
        hp := hp + PerLevelHP(hitDie, conMod);
        i := i + 1;
      }
      hp := if hp < 1 then 1 else hp;
    }

    /** `getSpell`: no spell is ever found. */
    static function GetSpell(name: string): (r: Option<Json>)
      ensures r.None?
    {
      None
    }

    /** `rollAttack`: a d20 from the draw `u`, the bonus added, and the crit and miss flags. */
    static function RollAttack(attackBonus: int, u: real): (r: AttackRoll)
      requires 0.0 <= u < 1.0
      ensures 1 <= r.roll <= 20 && r.total == r.roll + attackBonus
      ensures r.isCrit <==> r.roll == 20
      ensures r.isMiss <==> r.roll == 1
      ensures !(r.isCrit && r.isMiss)
    {
      var roll := RollD20(u);
      AttackRoll(roll, roll + attackBonus, roll == 20, roll == 1)
    }

    /** `canCastSpell`: every character may cast every spell. */
    static function CanCastSpell(c: Character, spellName: string): (can: bool)
      ensures can
    {
      true
    }
  }

  /** A larger level never lowers what `calculateHP` returns for the same character otherwise. */
  lemma EngineHPMonotone(engine: RulesEngine, c: Character, level: int)
    requires 1 <= c.level <= level
    ensures engine.EngineHP(c) <= engine.EngineHP(c.(level := level))
  {
    if engine.GetClass(c.characterClass).Some? {
      var e := engine.GetClass(c.characterClass).value;
      HPMonotone(HitDieOr8(e), c.level, level, Modifier(c.abilities.constitution));
    }
  }

  /** At first level the engine's hit points are the hit die plus the CON modifier, at least 1. */
  lemma EngineHPAtFirstLevel(engine: RulesEngine, c: Character)
    requires c.level == 1 && c.characterClass in engine.mergedRules.classes
    ensures var raw := HitDieOr8(engine.mergedRules.classes[c.characterClass]) + Modifier(c.abilities.constitution);
            engine.EngineHP(c) == if raw < 1 then 1 else raw
  {
  }
}
