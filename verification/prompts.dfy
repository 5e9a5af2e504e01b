/**
 * `PromptService`: the game-master system prompt, a template whose placeholders are filled
 * in one after another with the character's portrait, personality, abilities, the NPC
 * relations, the emotional state and the recent history.
 *
 * The two template texts are parameters here; only the placeholders they contain matter to
 * the filling-in.
 */
module Prompts {
  import opened Wrappers
  import opened Text
  import opened Types
  import opened Calculations
  import AbilityScoring
  import Skills

  /** `GameContext`; an absent string field is the empty string. */
  datatype GameContext = GameContext(
    narrativeHistory: string, lastAction: string, emotionalState: string,
    npcRelations: Option<seq<(string, string)>>, sessionDuration: int, turn: Option<int>,
    worldState: string)

  datatype Language = Ru | En

  /** The first index from `i` on where `p` occurs in `s`. */
  function FirstIndexFrom(s: string, p: string, i: nat): (r: Option<nat>)
    ensures r.Some? ==> i <= r.value && ContainsAt(s, p, r.value)
    ensures r.Some? ==> forall j :: i <= j < r.value ==> !ContainsAt(s, p, j)
    ensures r.None? ==> forall j :: i <= j ==> !ContainsAt(s, p, j)
    decreases |s| - i
  {
    if i + |p| > |s| then None
    else if s[i..i + |p|] == p then Some(i)
    else FirstIndexFrom(s, p, i + 1)
  }

  /**
   * The replacement text as `String.prototype.replace` inserts it for a string pattern: `$$`
   * stands for `$`, `$&` for the matched text, `` $` `` for the text before the match and `$'`
   * for the text after it.  A string pattern has no capture groups, so every other `$` (`$1`,
   * `$<`, a final `$`) is copied as it is.
   */
  function Expand(rep: string, matched: string, before: string, after: string): string
    decreases |rep|
  {
    if rep == [] then []
    else if rep[0] == '$' && |rep| >= 2 && rep[1] == '$' then "$" + Expand(rep[2..], matched, before, after)
    else if rep[0] == '$' && |rep| >= 2 && rep[1] == '&' then matched + Expand(rep[2..], matched, before, after)
    else if rep[0] == '$' && |rep| >= 2 && rep[1] == '`' then before + Expand(rep[2..], matched, before, after)
    else if rep[0] == '$' && |rep| >= 2 && rep[1] == '\'' then after + Expand(rep[2..], matched, before, after)
    else [rep[0]] + Expand(rep[1..], matched, before, after)
  }

  /** A replacement without `$` is inserted exactly as written. */
  lemma {:induction false} ExpandWithoutDollar(rep: string, matched: string, before: string, after: string)
    requires forall i :: 0 <= i < |rep| ==> rep[i] != '$'
    ensures Expand(rep, matched, before, after) == rep
    decreases |rep|
  {
    if rep != [] {
      ExpandWithoutDollar(rep[1..], matched, before, after);
      assert [rep[0]] + rep[1..] == rep;
    }
  }

  /** Every `$` doubled: the replacement that inserts `v` literally. */
  function EscapeDollars(v: string): (r: string)
    ensures |r| >= |v|
  {
    if v == [] then []
    else (if v[0] == '$' then "$$" else [v[0]]) + EscapeDollars(v[1..])
  }

  /** Expanding an escaped text gives the text back, whatever the match and its context. */
  lemma {:induction false} ExpandEscaped(v: string, matched: string, before: string, after: string)
    ensures Expand(EscapeDollars(v), matched, before, after) == v
    decreases |v|
  {
    if v != [] {
      var e := EscapeDollars(v);
      ExpandEscaped(v[1..], matched, before, after);
      if v[0] == '$' {
        assert e[2..] == EscapeDollars(v[1..]);
      } else {
        assert e[1..] == EscapeDollars(v[1..]);
      }
      assert [v[0]] + v[1..] == v;
    }
  }

  /** `s` with the occurrence of `p` at `k` replaced by the expansion of `rep`. */
  function SpliceAt(s: string, p: string, rep: string, k: nat): string
    requires k + |p| <= |s|
  {
    s[..k] + Expand(rep, p, s[..k], s[k + |p|..]) + s[k + |p|..]
  }

  /**
   * `s.replace(p, rep)` with a string pattern: only the first occurrence is replaced, by the
   * replacement with its `$` patterns expanded.
   */
  function ReplaceFirst(s: string, p: string, rep: string): (r: string)
    ensures !Contains(s, p) ==> r == s
    ensures Contains(s, p) ==>
              exists k: nat :: && ContainsAt(s, p, k) && (forall j :: 0 <= j < k ==> !ContainsAt(s, p, j))
                               && r == SpliceAt(s, p, rep, k)
  {
    match FirstIndexFrom(s, p, 0)
    case None => s
    case Some(k) =>
      assert ContainsAt(s, p, k) && (forall j :: 0 <= j < k ==> !ContainsAt(s, p, j));
      SpliceAt(s, p, rep, k)
  }

  /** `$$` in a value becomes a single `$` in the prompt. */
  lemma DollarDollarIsOneDollar()
    ensures ReplaceFirst("x{T}y", "{T}", "$$") == "x$y"
  {
    var s, p := "x{T}y", "{T}";
    assert s[1..4] == p;
    assert FirstIndexFrom(s, p, 0) == Some(1) by {
      assert s[0..3] != p by { assert s[0..3][0] == 'x'; }
    }
    assert Expand("$$", p, s[..1], s[4..]) == "$";
  }

  /** `$'` in a value splices the rest of the template in after the value. */
  lemma DollarQuoteSplicesRest()
    ensures ReplaceFirst("x{T}y", "{T}", "$'") == "xyy"
  {
    var s, p := "x{T}y", "{T}";
    assert s[1..4] == p;
    assert FirstIndexFrom(s, p, 0) == Some(1) by {
      assert s[0..3] != p by { assert s[0..3][0] == 'x'; }
    }
    assert s[4..] == "y";
    assert Expand("$'", p, s[..1], s[4..]) == "y";
  }

  /** A chain of `.replace` calls, applied in order. */
  function ReplaceChain(s: string, subs: seq<(string, string)>): string
    decreases |subs|
  {
    if subs == [] then s else ReplaceChain(ReplaceFirst(s, subs[0].0, subs[0].1), subs[1..])
  }

  /** A template that holds none of the placeholders comes back unchanged. */
  lemma {:induction false} ReplaceChainWithoutPlaceholders(s: string, subs: seq<(string, string)>)
    requires forall i :: 0 <= i < |subs| ==> !Contains(s, subs[i].0)
    ensures ReplaceChain(s, subs) == s
    decreases |subs|
  {
    if subs != [] {
      assert ReplaceFirst(s, subs[0].0, subs[0].1) == s;
      forall i | 0 <= i < |subs[1..]| ensures !Contains(s, subs[1..][i].0) {
        assert subs[1..][i] == subs[i + 1];
      }
      ReplaceChainWithoutPlaceholders(s, subs[1..]);
    }
  }

  /** Replacements whose patterns the text does not hold can be skipped. */
  lemma {:induction false} ReplaceChainSkip(s: string, subs: seq<(string, string)>, n: nat)
    requires n <= |subs|
    requires forall i :: 0 <= i < n ==> !Contains(s, subs[i].0)
    ensures ReplaceChain(s, subs) == ReplaceChain(s, subs[n..])
    decreases n
  {
    if n > 0 {
      assert ReplaceFirst(s, subs[0].0, subs[0].1) == s;
      forall i | 0 <= i < n - 1 ensures !Contains(s, subs[1..][i].0) {
        assert subs[1..][i] == subs[i + 1];
      }
      ReplaceChainSkip(s, subs[1..], n - 1);
      assert subs[1..][n - 1..] == subs[n..];
    }
  }

  /** A one-line part, pushed only when `cond` holds. */
  function When(cond: bool, line: string): (r: seq<string>)
    ensures cond ==> r == [line]
    ensures !cond ==> r == []
  {
    if cond then [line] else []
  }

  /** The race, with the character's traits in parentheses when there are any. */
  function RaceDisplay(c: Character): (r: string)
    ensures c.persona.traits == [] ==> r == c.race
    ensures c.persona.traits != [] ==> r == c.race + " (с чертами: " + Join(c.persona.traits, ", ") + ")"
  {
    if c.persona.traits != [] then c.race + " (с чертами: " + Join(c.persona.traits, ", ") + ")" else c.race
  }

  /** The lines of `buildCharacterPortrait`. */
  function PortraitLines(c: Character): (lines: seq<string>)
    ensures |lines| == if c.persona.background == "" then 5 else 6
    ensures lines[0] == "Имя: " + c.name
    ensures lines[1] == "Пол: " + (if c.gender == "" then "Не указан" else c.gender)
    ensures lines[2] == "Уровень: " + IntToString(LevelOr1(c))
    ensures lines[3] == "Раса: " + RaceDisplay(c) && lines[4] == "Класс: " + c.characterClass
    ensures c.persona.background != "" ==> lines[5] == "Фон: " + c.persona.background
  {
    ["Имя: " + c.name, "Пол: " + (if c.gender == "" then "Не указан" else c.gender),
     "Уровень: " + IntToString(LevelOr1(c)), "Раса: " + RaceDisplay(c), "Класс: " + c.characterClass]
    + When(c.persona.background != "", "Фон: " + c.persona.background)
  }

  /** `buildCharacterPortrait`: the parts pushed one by one, then joined by newlines. */
  method BuildCharacterPortrait(c: Character) returns (portrait: string)
    ensures portrait == Join(PortraitLines(c), "\n")
  {
    var parts: seq<string> := [];
    parts := parts + ["Имя: " + (c.name)];
    parts := parts + ["Пол: " + (if c.gender == "" then "Не указан" else c.gender)];
    parts := parts + ["Уровень: " + IntToString(LevelOr1(c))];
    var raceDisplay := c.race;
    if c.persona.traits != [] {
      raceDisplay := raceDisplay + " (с чертами: " + Join(c.persona.traits, ", ") + ")";
    }
    parts := parts + ["Раса: " + raceDisplay];
    parts := parts + ["Класс: " + c.characterClass];
    if c.persona.background != "" {
      parts := parts + ["Фон: " + c.persona.background];
    }
    assert raceDisplay == RaceDisplay(c);
    assert parts == PortraitLines(c);
    portrait := Join(parts, "\n");
  }

  /** What `traits.join` throws when `traits` is a string. */
  const TraitsJoinError := "character.personality.traits.join is not a function"

  /** The backstory cut to its first 200 characters. */
  function ShortBackstory(backstory: string): (r: string)
    ensures |r| == if |backstory| < 200 then |backstory| else 200
    ensures StartsWith(backstory, r)
  {
    if |backstory| < 200 then backstory else backstory[..200]
  }

  /** `Черты: ...` for a non-empty list of traits; an absent or empty one adds nothing. */
  function TraitsLine(traits: Traits): (r: seq<string>)
    ensures traits.TraitsList? && traits.items != [] ==> r == ["Черты: " + Join(traits.items, ", ")]
    ensures !(traits.TraitsList? && traits.items != []) ==> r == []
  {
    if traits.TraitsList? && traits.items != [] then ["Черты: " + Join(traits.items, ", ")] else []
  }

  /** The lines of the `personality` object, or the error its string traits raise. */
  function TemperamentLines(p: Personality): (r: Result<seq<string>>)
    ensures r.Failure? <==> p.traits.TraitsText? && p.traits.text != ""
    ensures r.Failure? ==> r.error == TraitsJoinError
  {
    if p.traits.TraitsText? && p.traits.text != "" then Failure(TraitsJoinError)
    else Success(TraitsLine(p.traits)
                 + When(p.ideals != "", "Идеалы: " + p.ideals)
                 + When(p.bonds != "", "Связи: " + p.bonds)
                 + When(p.flaws != "", "Недостатки: " + p.flaws))
  }

  /** Only the first secret is shown to the game master. */
  function SecretLine(secrets: seq<string>): (r: seq<string>)
    ensures secrets != [] ==> r == ["🔐 Тайны: " + secrets[0]]
    ensures secrets == [] ==> r == []
  {
    if secrets != [] then ["🔐 Тайны: " + secrets[0]] else []
  }

  /** The alignment, only the first secret, and the backstory cut to 200 characters plus `...`. */
  function PersonaLines(p: Persona): (r: seq<string>)
    ensures p.backstory != "" ==> |r| > 0 && r[|r| - 1] == "Предыстория: " + ShortBackstory(p.backstory) + "..."
    ensures p.secrets != [] ==> "🔐 Тайны: " + p.secrets[0] in r
    ensures |r| <= 3
  {
    var front := When(p.alignment != "", "Мировоззрение: " + p.alignment) + SecretLine(p.secrets);
    assert p.secrets != [] ==> front[|front| - 1] == "🔐 Тайны: " + p.secrets[0];
    front + When(p.backstory != "", "Предыстория: " + ShortBackstory(p.backstory) + "...")
  }

  /** The lines of `buildPersonalityContext`: the personality's, then the persona's. */
  function PersonalityLines(c: Character): (r: Result<seq<string>>)
    ensures r.Failure? <==> c.persona.personality.Some? && c.persona.personality.value.traits.TraitsText?
                            && c.persona.personality.value.traits.text != ""
    ensures r.Success? ==> exists k :: 0 <= k <= |r.value| && r.value[k..] == PersonaLines(c.persona)
  {
    var personal := if c.persona.personality.Some? then TemperamentLines(c.persona.personality.value) else Success([]);
    if personal.Failure? then Failure(personal.error)
    else
      var lines := personal.value + PersonaLines(c.persona);
      assert lines[|personal.value|..] == PersonaLines(c.persona);
      Success(lines)
  }

  /** The pushes for the `personality` object, or the error its string traits raise. */
  method PushTemperament(p: Personality) returns (r: Result<seq<string>>)
    ensures r == TemperamentLines(p)
  {
    if p.traits.TraitsText? && p.traits.text != "" {
      return Failure(TraitsJoinError);
    }
    var parts: seq<string> := [];
    if p.traits.TraitsList? && p.traits.items != [] {
      parts := parts + ["Черты: " + Join(p.traits.items, ", ")];
    }
    assert parts == TraitsLine(p.traits);
    if p.ideals != "" {
      parts := parts + ["Идеалы: " + p.ideals];
    }
    if p.bonds != "" {
      parts := parts + ["Связи: " + p.bonds];
    }
    if p.flaws != "" {
      parts := parts + ["Недостатки: " + p.flaws];
    }
    assert parts == TraitsLine(p.traits) + When(p.ideals != "", "Идеалы: " + p.ideals)
                    + When(p.bonds != "", "Связи: " + p.bonds) + When(p.flaws != "", "Недостатки: " + p.flaws);
    return Success(parts);
  }

  /** The pushes for the alignment, the first secret and the backstory, after `parts`. */
  method PushPersona(parts: seq<string>, p: Persona) returns (r: seq<string>)
    ensures r == parts + PersonaLines(p)
  {
    r := parts;
    if p.alignment != "" {
      r := r + ["Мировоззрение: " + p.alignment];
    }
    if p.secrets != [] {
      r := r + ["🔐 Тайны: " + p.secrets[0]];
    }
    if p.backstory != "" {
      r := r + ["Предыстория: " + ShortBackstory(p.backstory) + "..."];
    }
  }

  /** `buildPersonalityContext`: the parts pushed one by one, then joined by newlines. */
  method BuildPersonalityContext(c: Character) returns (r: Result<string>)
    ensures PersonalityLines(c).Failure? ==> r == Failure(TraitsJoinError)
    ensures PersonalityLines(c).Success? ==> r == Success(Join(PersonalityLines(c).value, "\n"))
  {
    var parts: seq<string> := [];
    if c.persona.personality.Some? {
      var personal := PushTemperament(c.persona.personality.value);
      if personal.Failure? {
        return Failure(personal.error);
      }
      parts := personal.value;
    }
    parts := PushPersona(parts, c.persona);
    return Success(Join(parts, "\n"));
  }

  /** The Russian abbreviations of the abilities. */
  function RussianAbbreviation(a: Ability): string {
    match a
    case STR => "СИЛ"
    case DEX => "ЛОВ"
    case CON => "ТЕЛ"
    case INT => "ИНТ"
    case WIS => "МУД"
    case CHA => "ХАР"
  }

  /** `mod >= 0 ? '+' + mod : '' + mod`. */
  function SignedModifier(m: int): (r: string)
    ensures r == Skills.FormatBonus(m)
  {
    if m >= 0 then "+" + IntToString(m) else IntToString(m)
  }

  /** One ability of `buildAbilitiesContext`: abbreviation, score and signed modifier. */
  function AbilityLine(scores: AbilityScores, a: Ability): (r: string)
    ensures r == RussianAbbreviation(a) + ": " + IntToString(scores.Get(a)) + " (" + Skills.FormatBonus(Modifier(scores.Get(a))) + ")"
  {
    var mods := AbilityScoring.AllModifiers(scores);
    RussianAbbreviation(a) + ": " + IntToString(scores.Get(a)) + " (" + SignedModifier(mods.Get(a)) + ")"
  }

  /** `buildAbilitiesContext`: a fixed line without scores, else one entry per ability. */
  function BuildAbilitiesContext(abilities: Option<AbilityScores>): (r: string)
    ensures abilities.None? ==> r == "Характеристики не рассчитаны"
    ensures abilities.Some? ==>
              r == Join(seq(|AllAbilities|, i requires 0 <= i < |AllAbilities| => AbilityLine(abilities.value, AllAbilities[i])), " | ")
  {
    match abilities
    case None => "Характеристики не рассчитаны"
    case Some(s) => Join(seq(|AllAbilities|, i requires 0 <= i < |AllAbilities| => AbilityLine(s, AllAbilities[i])), " | ")
  }

  /** `"npc: relation"` for each relation, in insertion order. */
  function RelationLines(relations: seq<(string, string)>): (r: seq<string>)
    ensures |r| == |relations|
    ensures forall i :: 0 <= i < |r| ==> r[i] == relations[i].0 + ": " + relations[i].1
  {
    if relations == [] then [] else [relations[0].0 + ": " + relations[0].1] + RelationLines(relations[1..])
  }

  /** `buildNPCContext`: a fixed line when there are no relations, else all of them. */
  function BuildNPCContext(npcRelations: Option<seq<(string, string)>>): (r: string)
    ensures npcRelations.None? || npcRelations.value == [] ==> r == "Нет важных отношений"
    ensures npcRelations.Some? && npcRelations.value != [] ==> r == Join(RelationLines(npcRelations.value), " | ")
    ensures npcRelations.Some? && |npcRelations.value| == 1 ==>
              r == npcRelations.value[0].0 + ": " + npcRelations.value[0].1
  {
    if npcRelations.None? || npcRelations.value == [] then "Нет важных отношений"
    else Join(RelationLines(npcRelations.value), " | ")
  }

  /** The parts of `buildEmotionalContext`, in the order they are pushed. */
  function EmotionalParts(c: Character, context: GameContext): (parts: seq<string>)
    ensures forall i :: 0 <= i < |parts| ==> parts[i] != []
    ensures parts == [] <==> context.emotionalState == "" && c.persona.emotionalState == ""
                             && c.persona.shortTermGoal == "" && c.persona.wounds == []
  {
    When(context.emotionalState != "", context.emotionalState)
    + When(c.persona.emotionalState != "", c.persona.emotionalState)
    + When(c.persona.shortTermGoal != "", "Цель: " + c.persona.shortTermGoal)
    + When(c.persona.wounds != [], "Недуги: " + Join(c.persona.wounds, ", "))
  }

  /** Joining a non-empty list whose first part is non-empty gives a non-empty string. */
  lemma JoinNonEmpty(parts: seq<string>, sep: string)
    requires parts != [] && parts[0] != []
    ensures Join(parts, sep) != []
  {
    if |parts| > 1 {
      assert Join(parts, sep)[..|parts[0]|] == parts[0];
    }
  }

  /** The emotional context: never empty, the neutral word exactly when nothing is known. */
  function EmotionalContext(c: Character, context: GameContext): (r: string)
    ensures r != []
    ensures EmotionalParts(c, context) == [] ==> r == "Нейтральное"
    ensures EmotionalParts(c, context) != [] ==> r == Join(EmotionalParts(c, context), " | ")
  {
    var parts := EmotionalParts(c, context);
    if parts == [] then "Нейтральное"
    else
      JoinNonEmpty(parts, " | ");
      Join(parts, " | ")
  }

  /** `buildEmotionalContext`: the parts joined by `' | '`, or a neutral word when there are none. */
  method BuildEmotionalContext(c: Character, context: GameContext) returns (r: string)
    ensures r == EmotionalContext(c, context)
  {
    var parts: seq<string> := [];
    if context.emotionalState != "" {
      parts := parts + [context.emotionalState];
    }
    if c.persona.emotionalState != "" {
      parts := parts + [c.persona.emotionalState];
    }
    if c.persona.shortTermGoal != "" {
      parts := parts + ["Цель: " + c.persona.shortTermGoal];
    }
    if c.persona.wounds != [] {
      parts := parts + ["Недуги: " + Join(c.persona.wounds, ", ")];
    }
    assert parts == EmotionalParts(c, context);
    var joined := Join(parts, " | ");
    if parts != [] {
      JoinNonEmpty(parts, " | ");
    }
    r := if joined == "" then "Нейтральное" else joined;
  }

  /** `narrativeHistory.slice(-2000)`: the last 2000 characters, or all of a shorter history. */
  function HistoryTail(history: string): (r: string)
    ensures |r| == if |history| < 2000 then |history| else 2000
    ensures r == history[|history| - |r|..]
  {
    if |history| < 2000 then history else history[|history| - 2000..]
  }

  /** The placeholders, in the order `getSystemPrompt` fills them in. */
  const Placeholders: seq<string> := [
    "{WORLD_NAME}", "{WORLD_DESCRIPTION}", "{DIFFICULTY}", "{CHARACTER_PORTRAIT}",
    "{PERSONALITY_CONTEXT}", "{ABILITIES_CONTEXT}", "{PREVIOUS_NARRATIVE}", "{LAST_ACTION}",
    "{EMOTIONAL_STATE}", "{NPC_RELATIONS}", "{TURN}", "{WORLD_STATE}"]

  /** `s || fallback` for a string. */
  function Or(s: string, fallback: string): string {
    if s != "" then s else fallback
  }

  /** Each key with the value at the same position. */
  function Pair(keys: seq<string>, values: seq<string>): (r: seq<(string, string)>)
    requires |keys| == |values|
    ensures |r| == |keys|
    ensures forall i :: 0 <= i < |r| ==> r[i] == (keys[i], values[i])
  {
    seq(|keys|, i requires 0 <= i < |keys| => (keys[i], values[i]))
  }

  /** The defaults of the world name, the difficulty, the history and the last action. */
  const UnknownWorld := "Неизвестный мир"
  const AverageDifficulty := "Средняя"
  const GameStarted := "Огра началась"
  const NoAction := "Ничего"

  /** The texts `getSystemPrompt` builds from the character and the context before filling in. */
  datatype PromptParts = PromptParts(
    portrait: string, personality: string, abilities: string, emotional: string, npcs: string)

  /** The five texts, or the error building the personality context raises. */
  function BuildParts(c: Character, context: GameContext): (r: Result<PromptParts>)
    ensures r.Failure? <==> PersonalityLines(c).Failure?
    ensures r.Success? ==> r.value.personality == Join(PersonalityLines(c).value, "\n")
  {
    match PersonalityLines(c)
    case Failure(e) => Failure(e)
    case Success(lines) =>
      Success(PromptParts(Join(PortraitLines(c), "\n"), Join(lines, "\n"), BuildAbilitiesContext(Some(c.abilities)),
                          EmotionalContext(c, context), BuildNPCContext(context.npcRelations)))
  }

  /** The value each placeholder receives. */
  function PlaceholderValues(world: World, context: GameContext, parts: PromptParts): (values: seq<string>)
    ensures |values| == |Placeholders|
    ensures values[0] == Or(world.name, UnknownWorld) && values[2] == Or(world.difficulty, AverageDifficulty)
    ensures values[6] == Or(HistoryTail(context.narrativeHistory), GameStarted)
    ensures values[10] == if context.turn.Some? then IntToString(context.turn.value) else "1"
  {
    [Or(world.name, UnknownWorld),
     world.description,
     Or(world.difficulty, AverageDifficulty),
     parts.portrait,
     parts.personality,
     parts.abilities,
     Or(HistoryTail(context.narrativeHistory), GameStarted),
     Or(context.lastAction, NoAction),
     parts.emotional,
     parts.npcs,
     if context.turn.Some? then IntToString(context.turn.value) else "1",
     context.worldState]
  }

  /** Each placeholder with its value, in the order they are filled in. */
  function Substitutions(world: World, context: GameContext, parts: PromptParts): (subs: seq<(string, string)>)
    ensures |subs| == |Placeholders|
    ensures forall i :: 0 <= i < |subs| ==> subs[i] == (Placeholders[i], PlaceholderValues(world, context, parts)[i])
  {
    Pair(Placeholders, PlaceholderValues(world, context, parts))
  }

  /**
   * `getSystemPrompt`: the Russian template for `'ru'`, the English one otherwise, with the
   * first occurrence of each placeholder replaced in turn.  It throws exactly when building
   * the personality context does.
   */
  function GetSystemPrompt(c: Character, world: World, context: GameContext, language: Language,
                           templateRu: string, templateEn: string): (r: Result<string>)
    ensures r.Failure? <==> PersonalityLines(c).Failure?
    ensures r.Success? ==>
              r.value == ReplaceChain(if language == Ru then templateRu else templateEn,
                                      Substitutions(world, context, BuildParts(c, context).value))
  {
    var template := if language == Ru then templateRu else templateEn;
    match BuildParts(c, context)
    case Failure(e) => Failure(e)
    case Success(parts) => Success(ReplaceChain(template, Substitutions(world, context, parts)))
  }

  /** A template without placeholders is the prompt itself, whatever the character. */
  lemma PlainTemplateIsPrompt(c: Character, world: World, context: GameContext, template: string)
    requires PersonalityLines(c).Success?
    requires forall i :: 0 <= i < |Placeholders| ==> !Contains(template, Placeholders[i])
    ensures GetSystemPrompt(c, world, context, Ru, template, template) == Success(template)
  {
    var subs := Substitutions(world, context, BuildParts(c, context).value);
    ReplaceChainWithoutPlaceholders(template, subs);
  }

  /** A printed integer holds only digits and perhaps a leading minus sign; no `$`, no `{`. */
  lemma NumeralIsPlain(n: int)
    ensures forall i :: 0 <= i < |IntToString(n)| ==> IntToString(n)[i] == '-' || IsDigit(IntToString(n)[i])
  {
    if n < 0 {
      var d := NatToString(-n);
      assert forall i :: 1 <= i < |IntToString(n)| ==> IntToString(n)[i] == d[i - 1];
    }
  }

  /** A pattern replaced by a value without `$` in a text that is just the pattern gives the value. */
  lemma ReplaceWhole(t: string, v: string)
    requires |t| > 0 && forall i :: 0 <= i < |v| ==> v[i] != '$'
    ensures ReplaceFirst(t, t, v) == v
  {
    assert t[0..|t|] == t;
    assert FirstIndexFrom(t, t, 0) == Some(0);
    ExpandWithoutDollar(v, t, t[..0], t[|t|..]);
  }

  /** Text without `{` holds no placeholder-shaped pattern. */
  lemma NoBraceNoPattern(v: string, p: string)
    requires |p| > 0 && p[0] == '{' && forall i :: 0 <= i < |v| ==> v[i] != '{'
    ensures !Contains(v, p)
  {
    forall i | 0 <= i <= |v| - |p| ensures !ContainsAt(v, p, i) {
      assert v[i..i + |p|][0] == v[i];
    }
  }

  /**
   * A template that is one pattern of the chain alone becomes that pattern's value, when no
   * earlier pattern occurs in it, the value has no `$` and no later pattern occurs in the value.
   */
  lemma ChainSolePattern(subs: seq<(string, string)>, k: nat)
    requires k < |subs| && |subs[k].0| > 0
    requires forall i :: 0 <= i < k ==> !Contains(subs[k].0, subs[i].0)
    requires forall i :: 0 <= i < |subs[k].1| ==> subs[k].1[i] != '$'
    requires forall i :: k < i < |subs| ==> !Contains(subs[k].1, subs[i].0)
    ensures ReplaceChain(subs[k].0, subs) == subs[k].1
  {
    var (t, v) := subs[k];
    ReplaceChainSkip(t, subs, k);
    ReplaceWhole(t, v);
    assert ReplaceChain(t, subs[k..]) == ReplaceChain(v, subs[k + 1..]) by {
      assert subs[k..][0] == subs[k] && subs[k..][1..] == subs[k + 1..];
    }
    var rest := subs[k + 1..];
    forall i | 0 <= i < |rest| ensures !Contains(v, rest[i].0) {
      assert rest[i] == subs[k + 1 + i];
    }
    ReplaceChainSkip(v, rest, |rest|);
    assert rest[|rest|..] == [];
  }

  /** The turn's value: a printed number, so no `$` and no `{`. */
  lemma TurnValuePlain(turn: Option<int>)
    ensures var v := if turn.Some? then IntToString(turn.value) else "1";
            forall i :: 0 <= i < |v| ==> v[i] != '$' && v[i] != '{'
  {
    if turn.Some? {
      NumeralIsPlain(turn.value);
    }
  }

  /** A pattern longer than the text does not occur in it. */
  lemma LongerAbsent(s: string, p: string)
    requires |p| > |s|
    ensures !Contains(s, p)
  {
  }

  /** The ten placeholders before `{TURN}` are all longer than it. */
  lemma EarlyPlaceholdersLong()
    ensures forall i :: 0 <= i < 10 ==> |Placeholders[i]| > |"{TURN}"|
  {
  }

  /** The chain turns a template made of the turn placeholder alone into the turn's value. */
  lemma TurnChain(world: World, context: GameContext, parts: PromptParts)
    ensures ReplaceChain("{TURN}", Substitutions(world, context, parts))
            == if context.turn.Some? then IntToString(context.turn.value) else "1"
  {
    var subs := Substitutions(world, context, parts);
    var v := if context.turn.Some? then IntToString(context.turn.value) else "1";
    assert subs[10] == (Placeholders[10], v) && subs[11].0 == Placeholders[11];
    EarlyPlaceholdersLong();
    forall i | 0 <= i < 10 ensures !Contains("{TURN}", subs[i].0) {
      assert subs[i].0 == Placeholders[i];
      LongerAbsent("{TURN}", Placeholders[i]);
    }
    TurnValuePlain(context.turn);
    NoBraceNoPattern(v, Placeholders[11]);
    ChainSolePattern(subs, 10);
  }

  /** A template that is the turn placeholder alone becomes the turn number, or 1 without one. */
  lemma TurnTemplate(c: Character, world: World, context: GameContext, templateEn: string)
    requires PersonalityLines(c).Success?
    ensures GetSystemPrompt(c, world, context, Ru, "{TURN}", templateEn)
            == Success(if context.turn.Some? then IntToString(context.turn.value) else "1")
  {
    TurnChain(world, context, BuildParts(c, context).value);
  }
}
