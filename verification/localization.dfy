/**
 * `LocalizationService`: the Russian names of races, classes, abilities, skills and game terms,
 * the reverse lookups that accept Russian input, the phrasing of player actions and the
 * clean-up of machine-translated text.  Every table is an object literal; it is kept here in
 * its insertion order, which decides the reverse lookups and the action phrasing.
 */
module Localization {
  import opened Wrappers
  import opened Text
  import opened Tables
  import opened Words
  import opened Types

  const RaceTranslations: seq<(string, string)> := [
    ("Dwarf", "Дворф"),
    ("Elf", "Эльф"),
    ("Halfling", "Полурослик"),
    ("Human", "Человек"),
    ("Dragonborn", "Драконорожденный"),
    ("Gnome", "Гном"),
    ("Half-Elf", "Полуэльф"),
    ("Half-Orc", "Полуорк"),
    ("Tiefling", "Тифлинг"),
    ("Aasimar", "Ааз самар"),
    ("Goliath", "Голиаф"),
    ("Kenku", "Кенку"),
    ("Orc", "Орк"),
    ("Tabaxi", "Табакси"),
    ("Triton", "Тритон"),
    ("Bugbear", "Багбер"),
    ("Firbolg", "Фирболг"),
    ("Goblin", "Гоблин"),
    ("Hobgoblin", "Хоббитлин"),
    ("Kobold", "Кобольд"),
    ("Tortle", "Тортл"),
    ("Yuan-ti Pureblood", "Юань-ти чистокровный"),
    ("Changeling", "Оборотень"),
    ("Fairy", "Фея"),
    ("Hexblood", "Ведьмокровный"),
    ("Harengon", "Харенгон"),
    ("Kalashtar", "Калаштар"),
    ("Lineage", "Наследие"),
    ("Rune Knight", "Рыцарь Рун"),
    ("Air Genasi", "Генази Воздуха"),
    ("Earth Genasi", "Генази Земли"),
    ("Fire Genasi", "Генази Огня"),
    ("Water Genasi", "Генази Воды"),
    ("Autognome", "Автогном"),
    ("Plasmoid", "Плазмоид"),
    ("Giff", "Гифф"),
    ("Drow", "Дроу"),
    ("Fey", "Фейри"),
    ("Dragon", "Дракон"),
    ("Aarakocra", "Ааракокра"),
    ("Vampire", "Вампир"),
    ("Werewolf", "Оборотень")
  ]

  const RaceAliases: seq<(string, string)> := [
    ("Гномик", "Gnome"),
    ("гномик", "Gnome"),
    ("гном", "Gnome"),
    ("Гном", "Gnome"),
    ("Гне", "Gnome"),
    ("Вампир", "Vampire"),
    ("вампир", "Vampire"),
    ("Оборотень", "Werewolf"),
    ("оборотень", "Werewolf"),
    ("Человечек", "Halfling"),
    ("человечек", "Halfling"),
    ("Полурослик", "Halfling"),
    ("полурослик", "Halfling"),
    ("Эльф", "Elf"),
    ("эльф", "Elf"),
    ("Эльф", "Elf"),
    ("Орк", "Orc"),
    ("орк", "Orc"),
    ("Дворф", "Dwarf"),
    ("дворф", "Dwarf"),
    ("Гоблин", "Goblin"),
    ("гоблин", "Goblin"),
    ("Тифлинг", "Tiefling"),
    ("тифлинг", "Tiefling"),
    ("Драконорожденный", "Dragonborn"),
    ("драконорожденный", "Dragonborn"),
    ("Полуэльф", "Half-Elf"),
    ("полуэльф", "Half-Elf"),
    ("Полуорк", "Half-Orc"),
    ("полуорк", "Half-Orc"),
    ("Человек", "Human"),
    ("человек", "Human"),
    ("Убер", "Orc")
  ]

  const ClassTranslations: seq<(string, string)> := [
    ("Barbarian", "Варвар"),
    ("Bard", "Бард"),
    ("Cleric", "Клирик"),
    ("Druid", "Друид"),
    ("Fighter", "Боец"),
    ("Monk", "Монах"),
    ("Paladin", "Паладин"),
    ("Ranger", "Рейнджер"),
    ("Rogue", "Плут"),
    ("Sorcerer", "Чародей"),
    ("Warlock", "Волшебник"),
    ("Wizard", "Маг"),
    ("Artificer", "Мастеромех"),
    ("Blood Hunter", "Охотник Крови"),
    ("Mystic", "Мистик"),
    ("Revised Ranger", "Пересмотренный Рейнджер")
  ]

  const ClassAliases: seq<(string, string)> := [
    ("Варвар", "Barbarian"),
    ("варвар", "Barbarian"),
    ("Бард", "Bard"),
    ("бард", "Bard"),
    ("Клирик", "Cleric"),
    ("клирик", "Cleric"),
    ("Друид", "Druid"),
    ("друид", "Druid"),
    ("Боец", "Fighter"),
    ("боец", "Fighter"),
    ("Монах", "Monk"),
    ("монах", "Monk"),
    ("Паладин", "Paladin"),
    ("паладин", "Paladin"),
    ("Рейнджер", "Ranger"),
    ("рейнджер", "Ranger"),
    ("Плут", "Rogue"),
    ("плут", "Rogue"),
    ("Чародей", "Sorcerer"),
    ("чародей", "Sorcerer"),
    ("Волшебник", "Warlock"),
    ("волшебник", "Warlock"),
    ("Маг", "Wizard"),
    ("маг", "Wizard")
  ]

  const AbilityTranslations: seq<(string, string)> := [
    ("STR", "СИЛ"),
    ("DEX", "ЛОВ"),
    ("CON", "ВЫН"),
    ("INT", "ИНТ"),
    ("WIS", "МДР"),
    ("CHA", "ХАР"),
    ("Strength", "Сила"),
    ("Dexterity", "Ловкость"),
    ("Constitution", "Выносливость"),
    ("Intelligence", "Интеллект"),
    ("Wisdom", "Мудрость"),
    ("Charisma", "Харизма")
  ]

  const SkillTranslations: seq<(string, string)> := [
    ("Acrobatics", "Акробатика"),
    ("Animal Handling", "Забота о животных"),
    ("Arcana", "Магия"),
    ("Athletics", "Атлетика"),
    ("Deception", "Обман"),
    ("History", "История"),
    ("Insight", "Проницательность"),
    ("Intimidation", "Запугивание"),
    ("Investigation", "Расследование"),
    ("Medicine", "Медицина"),
    ("Nature", "Природа"),
    ("Perception", "Восприятие"),
    ("Performance", "Выступление"),
    ("Persuasion", "Убеждение"),
    ("Religion", "Религия"),
    ("Sleight of Hand", "Ловкость рук"),
    ("Stealth", "Скрытность"),
    ("Survival", "Выживание")
  ]

  const GameTerms: seq<(string, string)> := [
    ("Roll", "Бросок"),
    ("roll", "бросок"),
    ("d20", "к20"),
    ("Check", "Проверка"),
    ("check", "проверка"),
    ("Attack Roll", "Бросок атаки"),
    ("Saving Throw", "Спасбросок"),
    ("Skill Check", "Проверка умения"),
    ("Hit", "Попадание"),
    ("Miss", "Промах"),
    ("Critical Hit", "Крит"),
    ("Natural 20", "Натуральная 20"),
    ("Natural 1", "Натуральная 1"),
    ("Damage", "Урон"),
    ("Healing", "Исцеление"),
    ("modifier", "модификатор"),
    ("mod", "мод"),
    ("total", "итого"),
    ("Success", "Успех"),
    ("Failure", "Неудача"),
    ("Advantage", "Преимущество"),
    ("Disadvantage", "Помеха"),
    ("Turn", "Ход"),
    ("Round", "Раунд"),
    ("Initiative", "Инициатива"),
    ("Action", "Действие"),
    ("Bonus Action", "Бонусное действие"),
    ("Reaction", "Реакция")
  ]

  const ActionDescriptions: seq<(string, string)> := [
    ("осмотреть", "внимательно осматриваешь окрестности"),
    ("проверить", "тщательно проверяешь этот предмет"),
    ("подготовить", "готовишь своё оружие и броню"),
    ("настроить", "настраиваешь боевое снаряжение"),
    ("приблизиться", "осторожно приближаешься ближе"),
    ("отступить", "быстро отступаешь назад"),
    ("атаковать", "переходишь в наступление"),
    ("защищаться", "принимаешь боевую позицию"),
    ("спрятаться", "ищешь место для укрытия"),
    ("выжидать", "занимаешь удобную позицию и ждёшь"),
    ("прислушиваться", "напрягаешь слух, пытаясь уловить звуки"),
    ("понюхать", "вдыхаешь запахи воздуха"),
    ("почувствовать", "обращаешь внимание на ощущения"),
    ("попробовать", "тестируешь это на себе"),
    ("обойти", "обходишь препятствие"),
    ("пролезть", "сжимаешься и протискиваешься сквозь щель"),
    ("прыгнуть", "набираешь разбег и совершаешь прыжок"),
    ("карабкаться", "начинаешь карабкаться вверх"),
    ("говорить", "обращаешься с речью"),
    ("крикнуть", "кричишь изо всех сил"),
    ("помогать", "приходишь на помощь"),
    ("помешать", "стараешься помешать или остановить"),
    ("торговаться", "вступаешь в переговоры о цене"),
    ("клясться", "даёшь клятву или обещание")
  ]

  const TranslationFixes: seq<(string, string)> := [
    ("осколождение", "ледяной щит"),
    ("осколож", "лёд"),
    ("шелдаст", "пыль развалин"),
    ("расщепление", "расщепление")
  ]

  const WrongToCorrect: seq<(string, string)> := [
    ("кидок", "бросок"),
    ("кидать", "бросать"),
    ("кинуть", "бросить"),
    ("go", "старт"),
    ("ok", "хорошо"),
    ("hp", "гп"),
    ("ac", "ко"),
    ("damage", "урон"),
    ("heal", "исцелить"),
    ("roll", "бросок")
  ]

  /** Every value of the table is a non-empty string, so `table[key] || key` never falls back on a hit. */
  predicate NoEmptyValue(table: seq<(string, string)>) {
    forall i :: 0 <= i < |table| ==> table[i].1 != ""
  }

  /** `table[key] || key`: the table's value, or the input itself when the table has none. */
  function Translate(table: seq<(string, string)>, key: string): (r: string)
    ensures Lookup(table, key).None? ==> r == key
    ensures Lookup(table, key).Some? && Lookup(table, key).value != "" ==> r == Lookup(table, key).value
    ensures NoEmptyValue(table) && Lookup(table, key).Some? ==> r == Lookup(table, key).value
  {
    match Lookup(table, key)
    case Some(v) => if v != "" then v else key
    case None => key
  }

  /** `translateRace`. */
  function TranslateRace(raceName: string): (r: string)
    ensures Lookup(RaceTranslations, raceName).None? ==> r == raceName
    ensures Lookup(RaceTranslations, raceName).Some? ==> r == Lookup(RaceTranslations, raceName).value
  {
    assert NoEmptyValue(RaceTranslations);
    Translate(RaceTranslations, raceName)
  }

  /** `translateClass`. */
  function TranslateClass(className: string): (r: string)
    ensures Lookup(ClassTranslations, className).None? ==> r == className
    ensures Lookup(ClassTranslations, className).Some? ==> r == Lookup(ClassTranslations, className).value
  {
    assert NoEmptyValue(ClassTranslations);
    Translate(ClassTranslations, className)
  }

  /** `translateAbility`: abbreviations and full names alike. */
  function TranslateAbility(ability: string): (r: string)
    ensures Lookup(AbilityTranslations, ability).None? ==> r == ability
    ensures Lookup(AbilityTranslations, ability).Some? ==> r == Lookup(AbilityTranslations, ability).value
  {
    assert NoEmptyValue(AbilityTranslations);
    Translate(AbilityTranslations, ability)
  }

  /** `translateSkill`. */
  function TranslateSkill(skillName: string): (r: string)
    ensures Lookup(SkillTranslations, skillName).None? ==> r == skillName
    ensures Lookup(SkillTranslations, skillName).Some? ==> r == Lookup(SkillTranslations, skillName).value
  {
    assert NoEmptyValue(SkillTranslations);
    Translate(SkillTranslations, skillName)
  }

  /** `translateTerm`. */
  function TranslateTerm(term: string): (r: string)
    ensures Lookup(GameTerms, term).None? ==> r == term
    ensures Lookup(GameTerms, term).Some? ==> r == Lookup(GameTerms, term).value
  {
    assert NoEmptyValue(GameTerms);
    Translate(GameTerms, term)
  }

  /** The Russian name matches the input exactly or after lower-casing both. */
  predicate NameMatches(russian: string, name: string) {
    russian == name || ToLower(russian) == ToLower(name)
  }

  /** The first entry from `i` on whose Russian name matches. */
  function FirstReverse(table: seq<(string, string)>, name: string, i: nat): (r: Option<nat>)
    requires i <= |table|
    ensures r.Some? ==> i <= r.value < |table| && NameMatches(table[r.value].1, name)
    ensures r.Some? ==> forall j :: i <= j < r.value ==> !NameMatches(table[j].1, name)
    ensures r.None? ==> forall j :: i <= j < |table| ==> !NameMatches(table[j].1, name)
    decreases |table| - i
  {
    if i == |table| then None
    else if NameMatches(table[i].1, name) then Some(i)
    else FirstReverse(table, name, i + 1)
  }

  /**
   * The English name for a Russian one: an alias wins; then the first table entry whose
   * Russian name matches, compared case-insensitively; otherwise the input unchanged.
   */
  function ReverseOf(aliases: seq<(string, string)>, table: seq<(string, string)>, name: string): string {
    match Lookup(aliases, name)
    case Some(v) => if v != "" then v else ReverseByTable(table, name)
    case None => ReverseByTable(table, name)
  }

  function ReverseByTable(table: seq<(string, string)>, name: string): string {
    match FirstReverse(table, name, 0)
    case Some(i) => table[i].0
    case None => name
  }

  /** With no empty alias, a name that has an alias is reversed to it. */
  lemma ReverseByAlias(aliases: seq<(string, string)>, table: seq<(string, string)>, name: string)
    requires NoEmptyValue(aliases) && Lookup(aliases, name).Some?
    ensures ReverseOf(aliases, table, name) == Lookup(aliases, name).value
  {
  }

  lemma AliasesNonEmpty()
    ensures NoEmptyValue(RaceAliases) && NoEmptyValue(ClassAliases)
  {
  }

  /** The loop shared by `reverseTranslateRace` and `reverseTranslateClass`. */
  method ReverseTranslate(aliases: seq<(string, string)>, table: seq<(string, string)>, name: string)
    returns (english: string)
    ensures english == ReverseOf(aliases, table, name)
  {
    var alias := Lookup(aliases, name);
    if alias.Some? && alias.value != "" {
      return alias.value;
    }
    var i := 0;
    while i < |table|
      invariant 0 <= i <= |table|
      invariant FirstReverse(table, name, 0) == FirstReverse(table, name, i)
    {
      var (en, ru) := table[i];
      if ru == name || ToLower(ru) == ToLower(name) {
        return en;
      }
      i := i + 1;
    }
    return name;
  }

  /** `reverseTranslateRace`. */
  method ReverseTranslateRace(raceName: string) returns (english: string)
    ensures english == ReverseOf(RaceAliases, RaceTranslations, raceName)
  {
    english := ReverseTranslate(RaceAliases, RaceTranslations, raceName);
  }

  /** `reverseTranslateClass`. */
  method ReverseTranslateClass(className: string) returns (english: string)
    ensures english == ReverseOf(ClassAliases, ClassTranslations, className)
  {
    english := ReverseTranslate(ClassAliases, ClassTranslations, className);
  }

  /** Names of different lengths, or with different first or last letters, never match. */
  lemma NoNameMatch(a: string, b: string)
    requires |a| != |b| || (a != [] && b != [] &&
               (LowerChar(a[0]) != LowerChar(b[0]) || LowerChar(a[|a| - 1]) != LowerChar(b[|b| - 1])))
    ensures !NameMatches(a, b)
  {
    if |a| == |b| && LowerChar(a[0]) != LowerChar(b[0]) {
      assert ToLower(a)[0] != ToLower(b)[0];
    } else if |a| == |b| {
      assert ToLower(a)[|a| - 1] != ToLower(b)[|b| - 1];
    }
  }

  /** The scan stops at the first matching entry. */
  lemma FirstReverseAt(table: seq<(string, string)>, name: string, i: nat)
    requires i < |table| && NameMatches(table[i].1, name)
    requires forall j :: 0 <= j < i ==> !NameMatches(table[j].1, name)
    ensures FirstReverse(table, name, 0) == Some(i)
  {
  }

  /** The English key of an entry translates to its Russian name. */
  lemma TranslateClassEntry(i: nat)
    requires i < |ClassTranslations|
    ensures TranslateClass(ClassTranslations[i].0) == ClassTranslations[i].1
  {
    assert DistinctKeys(ClassTranslations);
    LookupFirst(ClassTranslations, i);
  }

  /** The twelve base classes come back through the alias table. */
  lemma ClassByAlias(i: nat)
    requires i < 12
    ensures Lookup(ClassAliases, ClassTranslations[i].1) == Some(ClassTranslations[i].0)
  {
    assert ClassAliases[2 * i] == (ClassTranslations[i].1, ClassTranslations[i].0);
    assert forall j :: 0 <= j < 2 * i ==> ClassAliases[j].0 != ClassAliases[2 * i].0;
    LookupFirst(ClassAliases, 2 * i);
  }

  /** The four classes without an alias come back through the scan of the table. */
  lemma ClassByScan(i: nat)
    requires 12 <= i < |ClassTranslations|
    ensures Lookup(ClassAliases, ClassTranslations[i].1).None?
    ensures FirstReverse(ClassTranslations, ClassTranslations[i].1, 0) == Some(i)
  {
    var ru := ClassTranslations[i].1;
    assert forall j :: 0 <= j < |ClassAliases| ==> ClassAliases[j].0 != ru;
    forall j | 0 <= j < i
      ensures !NameMatches(ClassTranslations[j].1, ru)
    {
      NoNameMatch(ClassTranslations[j].1, ru);
    }
    FirstReverseAt(ClassTranslations, ru, i);
  }

  /**
   * Every class survives a translation to Russian and back: the twelve base classes through
   * their aliases, the four others through the case-insensitive scan of the table.
   */
  lemma ClassRoundTrip(i: nat)
    requires i < |ClassTranslations|
    ensures ReverseOf(ClassAliases, ClassTranslations, TranslateClass(ClassTranslations[i].0))
            == ClassTranslations[i].0
  {
    TranslateClassEntry(i);
    var ru := ClassTranslations[i].1;
    if i < 12 {
      ClassByAlias(i);
      AliasesNonEmpty();
      ReverseByAlias(ClassAliases, ClassTranslations, ru);
    } else {
      ClassByScan(i);
      assert ReverseByTable(ClassTranslations, ru) == ClassTranslations[i].0;
    }
  }

  /** A race whose Russian name is first listed as alias `k` comes back as that alias's value. */
  lemma RaceByAlias(i: nat, k: nat)
    requires i < |RaceTranslations| && k < |RaceAliases|
    requires forall j :: 0 <= j < i ==> RaceTranslations[j].0 != RaceTranslations[i].0
    requires RaceAliases[k].0 == RaceTranslations[i].1
    requires forall j :: 0 <= j < k ==> RaceAliases[j].0 != RaceAliases[k].0
    ensures ReverseOf(RaceAliases, RaceTranslations, TranslateRace(RaceTranslations[i].0)) == RaceAliases[k].1
  {
    LookupFirst(RaceTranslations, i);
    LookupFirst(RaceAliases, k);
    AliasesNonEmpty();
    ReverseByAlias(RaceAliases, RaceTranslations, RaceTranslations[i].1);
  }

  /** "Оборотень" is first listed as alias 7, for Werewolf. */
  lemma WerewolfAlias()
    ensures RaceAliases[7] == (RaceTranslations[22].1, "Werewolf") && RaceTranslations[41].1 == RaceTranslations[22].1
    ensures forall j :: 0 <= j < 7 ==> RaceAliases[j].0 != RaceAliases[7].0
  {
  }

  /**
   * The race round trip is not the identity: Changeling and Werewolf share the Russian name
   * "Оборотень", whose alias is Werewolf, so Changeling comes back as Werewolf.
   */
  lemma ChangelingComesBackAsWerewolf()
    ensures ReverseOf(RaceAliases, RaceTranslations, TranslateRace("Changeling")) == "Werewolf"
  {
    assert RaceTranslations[22].0 == "Changeling";
    assert forall j :: 0 <= j < 22 ==> RaceTranslations[j].0 != RaceTranslations[22].0;
    WerewolfAlias();
    RaceByAlias(22, 7);
  }

  /** Werewolf itself does come back. */
  lemma WerewolfRoundTrip()
    ensures ReverseOf(RaceAliases, RaceTranslations, TranslateRace("Werewolf")) == "Werewolf"
  {
    assert RaceTranslations[41].0 == "Werewolf";
    assert forall j :: 0 <= j < 41 ==> RaceTranslations[j].0 != RaceTranslations[41].0;
    WerewolfAlias();
    RaceByAlias(41, 7);
  }

  /** The first entry from `i` on whose key the text contains. */
  function FirstContained(table: seq<(string, string)>, text: string, i: nat): (r: Option<nat>)
    requires i <= |table|
    ensures r.Some? ==> i <= r.value < |table| && Contains(text, table[r.value].0)
    ensures r.Some? ==> forall j :: i <= j < r.value ==> !Contains(text, table[j].0)
    ensures r.None? ==> forall j :: i <= j < |table| ==> !Contains(text, table[j].0)
    decreases |table| - i
  {
    if i == |table| then None
    else if Contains(text, table[i].0) then Some(i)
    else FirstContained(table, text, i + 1)
  }

  /** "Ты " and the description of the first verb of `table` in `lower`, or else "Ты " and `lower`. */
  function PhraseFrom(table: seq<(string, string)>, lower: string): (r: string)
    ensures StartsWith(r, "Ты ")
    ensures r[3..] == lower || exists i :: 0 <= i < |table| && Contains(lower, table[i].0) && r[3..] == table[i].1
  {
    match FirstContained(table, lower, 0)
    case Some(i) => "Ты " + table[i].1
    case None => "Ты " + lower
  }

  /** The phrase for a player action, from its lower-cased, trimmed text. */
  function ActionPhrase(actionInput: string): string {
    PhraseFrom(ActionDescriptions, Trim(ToLower(actionInput)))
  }

  /** The early-returning loop of `formatActionDescription` over a verb table. */
  method PhraseLoop(table: seq<(string, string)>, lower: string) returns (phrase: string)
    ensures phrase == PhraseFrom(table, lower)
  {
    var i := 0;
    while i < |table|
      invariant 0 <= i <= |table|
      invariant FirstContained(table, lower, 0) == FirstContained(table, lower, i)
    {
      if Contains(lower, table[i].0) {
        return "Ты " + table[i].1;
      }
      i := i + 1;
    }
    return "Ты " + lower;
  }

  /**
   * `formatActionDescription`: "Ты " and the description of the first verb, in table order,
   * that the lower-cased, trimmed input contains; otherwise "Ты " and that input.
   */
  method FormatActionDescription(actionInput: string) returns (phrase: string)
    ensures phrase == ActionPhrase(actionInput)
    ensures StartsWith(phrase, "Ты ")
  {
    phrase := PhraseLoop(ActionDescriptions, Trim(ToLower(actionInput)));
  }

  /** An input naming no verb of the table is echoed, lower-cased and trimmed. */
  lemma ActionPhraseFallback(actionInput: string)
    requires forall j :: 0 <= j < |ActionDescriptions| ==> !Contains(Trim(ToLower(actionInput)), ActionDescriptions[j].0)
    ensures ActionPhrase(actionInput) == "Ты " + Trim(ToLower(actionInput))
  {
  }

  /** The first verb in table order wins, whatever else the input contains. */
  lemma ActionPhraseFirstVerb(actionInput: string, i: nat)
    requires i < |ActionDescriptions| && Contains(Trim(ToLower(actionInput)), ActionDescriptions[i].0)
    requires forall j :: 0 <= j < i ==> !Contains(Trim(ToLower(actionInput)), ActionDescriptions[j].0)
    ensures ActionPhrase(actionInput) == "Ты " + ActionDescriptions[i].1
  {
    var r := FirstContained(ActionDescriptions, Trim(ToLower(actionInput)), 0);
    assert r.Some? && r.value == i;
  }

  /** Every key of the table is a non-empty word. */
  predicate NonEmptyKeys(table: seq<(string, string)>) {
    forall i :: 0 <= i < |table| ==> |table[i].0| > 0
  }

  /** The loop shared by `fixMalformedTranslations` and `fixEnglicisms`. */
  method ReplaceEach(table: seq<(string, string)>, text: string) returns (result: string)
    requires NonEmptyKeys(table)
    ensures result == ReplaceAllWords(table, text, true)
  {
    result := text;
    var i := 0;
    while i < |table|
      invariant 0 <= i <= |table|
      invariant ReplaceAllWords(table[i..], result, true) == ReplaceAllWords(table, text, true)
    {
      var (wrong, correct) := table[i];
      assert table[i..][1..] == table[i + 1..];
      result := ReplaceWord(result, wrong, correct, true);
      i := i + 1;
    }
  }

  /**
   * `fixMalformedTranslations`: whole-word, case-insensitive replacements.  Its keys are all
   * Cyrillic, and `\b` only sees ASCII word characters, so a key matches only where ASCII
   * letters or digits stand on both sides of it; text without them comes back unchanged.
   */
  method FixMalformedTranslations(text: string) returns (result: string)
    ensures result == ReplaceAllWords(TranslationFixes, text, true)
    ensures !HasWordChar(text) ==> result == text
    ensures (forall i :: 0 <= i < |TranslationFixes| ==> !Occurs(text, TranslationFixes[i].0, true)) ==> result == text
  {
    result := ReplaceEach(TranslationFixes, text);
    if !HasWordChar(text) {
      ReplaceAllWordsNoWordChar(TranslationFixes, text, true);
    }
    if forall i :: 0 <= i < |TranslationFixes| ==> !Occurs(text, TranslationFixes[i].0, true) {
      ReplaceAllWordsAbsent(TranslationFixes, text, true);
    }
  }

  /** `fixEnglicisms`: the same replacements over the table of anglicisms and wrong verbs. */
  method FixEnglicisms(text: string) returns (result: string)
    ensures result == ReplaceAllWords(WrongToCorrect, text, true)
    ensures !HasWordChar(text) ==> result == text
    ensures (forall i :: 0 <= i < |WrongToCorrect| ==> !Occurs(text, WrongToCorrect[i].0, true)) ==> result == text
  {
    result := ReplaceEach(WrongToCorrect, text);
    if !HasWordChar(text) {
      ReplaceAllWordsNoWordChar(WrongToCorrect, text, true);
    }
    if forall i :: 0 <= i < |WrongToCorrect| ==> !Occurs(text, WrongToCorrect[i].0, true) {
      ReplaceAllWordsAbsent(WrongToCorrect, text, true);
    }
  }

  /** The ASCII keys do fire: "hp" on its own becomes "гп", and the Cyrillic result stays. */
  lemma FixEnglicismsReplacesHp()
    ensures ReplaceAllWords(WrongToCorrect, "hp", true) == "гп"
  {
    var t := WrongToCorrect;
    assert t == t[..5] + ([("hp", "гп")] + t[6..]);
    HpAbsentFromFirstKeys();
    GpHasNoWordChar();
    LaterKeysNonEmpty();
    ReplaceAllWordsSingleHit(t[..5], "hp", "гп", t[6..], true);
  }

  /** None of the five keys before "hp" occurs in "hp". */
  lemma HpAbsentFromFirstKeys()
    ensures forall k :: 0 <= k < 5 ==> !Occurs("hp", WrongToCorrect[..5][k].0, true)
  {
    forall k | 0 <= k < 5
      ensures !Occurs("hp", WrongToCorrect[..5][k].0, true)
    {
    }
  }

  lemma GpHasNoWordChar()
    ensures !HasWordChar("гп")
  {
    assert !IsWordChar('г') && !IsWordChar('п');
  }

  lemma LaterKeysNonEmpty()
    ensures NonEmptyKeys(WrongToCorrect[..5]) && NonEmptyKeys(WrongToCorrect[6..])
  {
  }

  /** `localizeCharacter`: the same character with its race and class in Russian. */
  function LocalizeCharacter(c: Character): (r: Character)
    ensures r.race == TranslateRace(c.race) && r.characterClass == TranslateClass(c.characterClass)
    ensures r.(race := c.race, characterClass := c.characterClass) == c
  {
    c.(race := TranslateRace(c.race), characterClass := TranslateClass(c.characterClass))
  }
}
