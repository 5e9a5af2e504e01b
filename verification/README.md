# ai-dnd-game rules core in Dafny

A model of the deterministic core of an AI-narrated Dungeons & Dragons 5e game. The model covers:

- The rules arithmetic: ability modifiers, proficiency bonuses, armour class, hit points, skill bonuses, point buy, 4d6-drop-lowest and dice notation.
- Merging the core rules with user-authored races, classes and feats.
- Character creation and the custom-content store with its validators.
- The game manager's session map.
- The action orchestrator's d20 check pipeline.
- The Russian localisation tables and text clean-up.
- The game-master prompt builder.
- The web client's dice parser, form validators and action classifier.

Each source file of that core is one Dafny module. Some modules are shared:

- `Wrappers`: `Option` and `Result`.
- `Text`: the JavaScript string operations the code uses.
- `Words`: regular-expression whole-word replacement.
- `Tables`: object literals as insertion-ordered key/value sequences.
- `Types`: the records the services exchange.

Each service takes the form it has in the source:

- The services that keep state are classes whose methods change their fields: `RulesEngine`, `CharacterService`, `CustomContentManager` and `GameManager`.
- Loops become methods proved against specification functions.
- Expression code becomes functions and lemmas.

Anything random, or anything that comes from outside the program, is an input. `Math.random()` becomes a draw `u` in [0, 1), or a stream `draws` of such draws, and a die shows `floor(u * sides) + 1` as the code computes it. The language model's replies, the rules file's contents and `Date.now()` are parameters too.

The code disagrees with itself in several places. The model keeps each disagreement as written and states it as a lemma:

- Proficiency tiers. The orchestrator and `SkillService` use 2/3/4 tiers, while `calculations.ts` uses `ceil(level / 4) + 1`. `Skills.TiersAgreeWithAdvancementOnlyUpToLevel4` shows they differ from level 5 on.
- The proficiency flag. `SkillService` reads `isProficient`, while new characters carry `proficient`. `Skills.ProficientFieldIsIgnored` shows the second flag is ignored.
- Hit points per level are `max(1, ceil(hitDie / 2) + conMod)`, not the book's fixed value `hitDie / 2 + 1 + conMod`. `Calculations.PerLevelBelowFixedValue` shows that with an even hit die a character has one hit point per level above the first fewer than with the fixed value.
- One race does not survive a round trip. `Localization.ChangelingComesBackAsWerewolf` shows that "Changeling" does not come back from Russian.
- The keys of the translation-fix tables are Cyrillic, and JavaScript's `\b` only knows ASCII word characters. So a key matches only where ASCII letters, digits or `_` stand right before and right after it, and never in purely Cyrillic text. `Words.NonWordKeyNeedsWordNeighbours`, `Words.NoWordCharNoMatch` and `Localization.GpHasNoWordChar` state this.

## Model

| member | source | states |
|---|---|---|
| `Types.AllAbilitiesListsEach` | backend/src/types/index.ts:15-22 | every ability is among the six the loops visit |
| `Types.Position` | backend/src/types/index.ts:15-22 | each ability's place in the STR..CHA order, where the list holds it |
| `Types.PositionOfListed` | backend/src/types/index.ts:15-22 | no ability is listed twice: the place of the i-th listed ability is i |
| `Types.AbilityScores.With` | backend/src/types/index.ts:15-22 | setting one ability gives it the new score and leaves the other five as they were |
| `Types.Uniform` | backend/src/services/AbilityScoreService.ts:100-127 | a record with the same score for every ability |
| `Types.ScoreOr10` | backend/src/services/ActionOrchestrator.ts:151 | `abilities[key] or 10` is never 0 |
| `Types.LevelOr1` | backend/src/services/ActionOrchestrator.ts:327 | `level or 1` is never 0 |
| `Tables.Lookup` | backend/src/services/LocalizationService.ts:281 | an object used as a dictionary: no value exactly when no entry has the key, and a value only from an entry with that key |
| `Tables.Keys` | backend/src/services/LocalizationService.ts:295 | the keys of the entries, one per entry, in order |
| `Tables.KeySet` | backend/src/services/ActionOrchestrator.ts:144 | a key is in the set exactly when the lookup finds it |
| `Tables.LookupFirst` | backend/src/services/LocalizationService.ts:281 | a key whose entry has no earlier twin is found with that entry's value |
| `Calculations.Modifier` | backend/src/utils/calculations.ts:5-7 | the modifier is the floor of half the distance from 10: `2m <= score - 10 < 2m + 2`, for odd and negative distances too |
| `Calculations.ModifierTable` | backend/src/utils/calculations.ts:5-7 | the formula gives the table values for scores 1, 7 to 11, 15 and 20 |
| `Calculations.ModifierMonotone` | backend/src/utils/calculations.ts:5-7 | a higher score never has a lower modifier, and two more points add exactly one |
| `Calculations.CeilDiv` | backend/src/utils/calculations.ts:13 | `Math.ceil(x / d)` for `d > 0`: the least `r` with `x <= d * r` |
| `Calculations.ProficiencyBonus` | backend/src/utils/calculations.ts:12-14 | `p - 1` is the least whole number with `level <= 4 (p - 1)` |
| `Calculations.ProficiencyBonusTable` | backend/src/utils/calculations.ts:12-14 | for levels 1 to 20 the bonus is 2, 3, 4, 5, 6 in bands of four levels |
| `Calculations.ArmorClass` | backend/src/utils/calculations.ts:19-24 | with armour the class is base plus DEX modifier, without it 10 plus the modifier |
| `Calculations.ArmorClassIgnoresBaseWithoutArmor` | backend/src/utils/calculations.ts:19-24 | without armour the base value has no effect |
| `Calculations.PerLevelHP` | backend/src/utils/calculations.ts:31 | each later level adds at least 1, and at least half the hit die rounded up plus the CON modifier |
| `Calculations.HP` | backend/src/utils/calculations.ts:29-36 | the hit points are never below 1 |
| `Calculations.CalculateHP` | backend/src/utils/calculations.ts:29-36 | the accumulating loop returns the closed form `HP`, at least 1 |
| `Calculations.HPGrowsWithLevel` | backend/src/utils/calculations.ts:29-36 | one more level never lowers the hit points and adds a full per-level gain to the unclamped total |
| `Calculations.HPMonotone` | backend/src/utils/calculations.ts:29-36 | hit points are non-decreasing in level |
| `Calculations.PerLevelBelowFixedValue` | backend/src/utils/calculations.ts:29-36 | for an even hit die the per-level gain is `max(1, hitDie / 2 + conMod)`; when that is at least 1, the hit points at a level are `level - 1` below the total with the book's fixed value `hitDie / 2 + 1 + conMod` |
| `Dice.DieFace` | backend/src/utils/dice.ts:13 | a draw in [0, 1) and at least one side give a face between 1 and the number of sides |
| `Dice.RollD20` | backend/src/utils/dice.ts:4-6 | the result lies between 1 and 20 |
| `Dice.RollDX` | backend/src/utils/dice.ts:11-14 | it fails, with the source's message, exactly when there are fewer than 1 sides; otherwise the face is in [1, sides] |
| `Dice.DigitRun` | backend/src/utils/dice.ts:20 | the greedy `\d+` group: every character of the run is a digit and the one after it is not |
| `Dice.FirstMatch` | backend/src/utils/dice.ts:20 | the leftmost position where `(\d+)d(\d+)` matches, with no match before it; none means no match anywhere |
| `Dice.MatchAt` | backend/src/utils/dice.ts:20-26 | a match spans at least three characters and is not followed by a digit |
| `Dice.FindDice` | backend/src/utils/dice.ts:20-21 | there is no match exactly when the pattern matches at no position |
| `Dice.SumOfFacesBounds` | backend/src/utils/dice.ts:26-29 | `n` dice of `s` sides total between `n` and `n * s` |
| `Dice.RollDice` | backend/src/utils/dice.ts:19-32 | the loop returns `RollDiceResult`: the notation error, the sides error, or the sum of one face per die |
| `Dice.RollDamage` | backend/src/utils/dice.ts:37-51 | the loop returns `RollDamageResult`: the sum of the faces plus the optional `+B` bonus |
| `Dice.RollDiceBounds` | backend/src/utils/dice.ts:19-32 | a matched notation succeeds exactly when there are no dice or at least one side, and then totals between N and N * S |
| `Dice.RollDamageBounds` | backend/src/utils/dice.ts:37-51 | a successful damage roll lies between N + B and N * S + B |
| `Dice.NotationRoundTrip` | backend/src/utils/dice.ts:20-25 | printing `NdS` before any non-digit and matching it gives N and S back, matched at position 0 |
| `Dice.DamageBonusRoundTrip` | backend/src/utils/dice.ts:38-44 | printing `NdS+B` and parsing it as damage notation gives N, S and B back |
| `FormValidation.ValidateName` | frontend/lib/validation.ts:3-14 | valid exactly when the name is not blank and has 2 to 50 characters; the first broken rule chooses the message |
| `FormValidation.ValidateCharacterName` | frontend/lib/validation.ts:3-14 | valid exactly when the name is not blank and has 2 to 50 characters, with an error exactly when invalid |
| `FormValidation.ValidateCustomRaceName` | frontend/lib/validation.ts:16-27 | the same rules, with an error exactly when invalid |
| `FormValidation.LengthIsUntrimmed` | frontend/lib/validation.ts:7 | the length limit counts surrounding spaces: `" a"` passes, `"a"` does not |
| `FormValidation.ValidateSpeed` | frontend/lib/validation.ts:29-37 | valid exactly for speeds 0 to 120, with the message for too low or too high |
| `FrontendUtils.SignedBonus` | frontend/lib/utils.ts:18 | without a `+` after the match the bonus is 0 |
| `FrontendUtils.ParseDiceString` | frontend/lib/utils.ts:17-26 | no match gives `{1, 6, 0}`; a match gives the count and sides of the first `NdS` |
| `FrontendUtils.SignedBonusOfNumeral` | frontend/lib/utils.ts:18 | any printed integer after a `+`, negative ones included, reads back as itself |
| `FrontendUtils.ParseDiceStringRoundTrip` | frontend/lib/utils.ts:17-26 | printing `NdS+B` for any integer B and parsing it gives the three numbers back |
| `FrontendUtils.MinusBonusIgnored` | frontend/lib/utils.ts:18-24 | `"2d6-3"` parses with bonus 0: a minus without `+` is no bonus |
| `FrontendUtils.RollDice` | frontend/lib/utils.ts:6-12 | no dice for a count of 0 or less; otherwise the sum of `count` faces, between `count` and `count * sides` |
| `FrontendUtils.StringArgs` | frontend/lib/utils.ts:39 | the filter keeps a string exactly when it is a string argument and never grows the list; a single string argument gives itself, any other single argument nothing |
| `FrontendUtils.StringArgsAppend` | frontend/lib/utils.ts:39 | filtering a concatenation concatenates the filtered parts, so the kept strings stay in order |
| `FrontendUtils.StringArgsOfStrings` | frontend/lib/utils.ts:39 | arguments that are all strings pass the filter whole, in order and with repeats |
| `FrontendUtils.ClassNames` | frontend/lib/utils.ts:38-40 | no string argument gives the empty class list |
| `FrontendUtils.ClassNamesOfStrings` | frontend/lib/utils.ts:38-40 | for string arguments the class list is those strings, in order, joined by single spaces |
| `FrontendUtils.ClassNamesIgnoresNonStrings` | frontend/lib/utils.ts:38-40 | a boolean, `null` or `undefined` argument at either end changes nothing |
| `FrontendUtils.ClassNamesExample` | frontend/lib/utils.ts:38-40 | empty strings are kept and leave a double space; `false` and `null` are dropped |
| `FrontendUtils.StorageKey` | frontend/lib/utils.ts:45-47 | the key is the fixed prefix followed by the given key |
| `FrontendUtils.StorageKeyInjective` | frontend/lib/utils.ts:45-47 | different keys never share a storage slot |
| `GameState.FirstRule` | frontend/lib/gameState.ts:57-65 | `custom` exactly when no keyword of any rule from the given one on occurs |
| `GameState.CategorizeAction` | frontend/lib/gameState.ts:57-65 | the if-chain picks the first rule of the keyword table whose keyword the lower-cased action contains |
| `GameState.CombatTakesPrecedence` | frontend/lib/gameState.ts:60 | an action with a combat keyword is combat, whatever else it contains |
| `GameState.NoKeywordIsCustom` | frontend/lib/gameState.ts:64 | an action with no keyword is `custom` |
| `GameState.FirstContext` | frontend/lib/gameState.ts:46-50 | the first context keyword the text contains, with none before it; none means none at all |
| `GameState.GenerateDynamicActions` | frontend/lib/gameState.ts:28-54 | a matching context returns that context's list; otherwise four distinct base actions |
| `Game.InitialNarrative` | backend/src/services/GameManager.ts:54-61 | the generic opening exactly when no listed world has the name; otherwise that world's opening |
| `Game.GameManager.constructor` | backend/src/services/GameManager.ts:5-10 | no sessions, and the given engine |
| `Game.GameManager.CreateSession` | backend/src/services/GameManager.ts:12-27 | a session at turn 0, out of combat, with an empty log and the world's opening, stored under its id |
| `Game.GameManager.GetSession` | backend/src/services/GameManager.ts:29-31 | nothing exactly for an unknown id, otherwise the stored session |
| `Game.GameManager.ProcessAction` | backend/src/services/GameManager.ts:33-52 | unknown session: an error and no change; otherwise the action is logged, the turn advances, no other session changes, and attack and dodge report their texts |
| `Game.ActionLogGrows` | backend/src/services/GameManager.ts:48-49 | after an action the log ends in it, keeps every earlier entry, and turns and log length advance together |
| `Game.AttackTextShowsRoll` | backend/src/services/GameManager.ts:42 | the text is the critical-hit line exactly when the roll is 20 |
| `Characters.SkillListIsSkillTable` | backend/src/services/CharacterService.ts:72 | the creation skill list names the skills of the skill table, in the same order |
| `Characters.RacialScores` | backend/src/services/CharacterService.ts:29-36 | each score is 10 plus the race's bonus for that ability |
| `Characters.CharacterService.constructor` | backend/src/services/CharacterService.ts:7-9 | the service keeps the given engine |
| `Characters.CharacterService.InitializeSkills` | backend/src/services/CharacterService.ts:70-79 | every skill of the table, and only those, untrained |
| `Characters.CharacterService.StartingScores` | backend/src/services/CharacterService.ts:29-43 | every score is 10 plus the race's bonus plus its `all` bonus |
| `Characters.CharacterService.CreateCharacter` | backend/src/services/CharacterService.ts:11-68 | race, class and name errors in that order; success exactly when all three pass, with the id `char-<now>`, the trimmed name, racial scores, AC from DEX and first-level hit points from the engine's hit die |
| `Rules.Load` | backend/src/services/RulesEngine.ts:78-111 | each section the file has replaces the core one; absent sections, mechanics and equipment stay |
| `Rules.MergeSection` | backend/src/services/RulesEngine.ts:128-131 | the spread keeps every key of both sides, the custom entry where both have one |
| `Rules.Merge` | backend/src/services/RulesEngine.ts:126-147 | races, classes and feats are merged with the custom content; every other section is the core one |
| `Rules.CustomRaceWins` | backend/src/services/RulesEngine.ts:128-131 | a custom race is found under its key after merging, whatever the core rules hold |
| `Rules.CoreClassSurvives` | backend/src/services/RulesEngine.ts:132-135 | a core class that no custom class shadows survives unchanged |
| `Rules.MergeWithoutCustomContent` | backend/src/services/RulesEngine.ts:126-147 | with no custom content the merge reproduces the core rules |
| `Rules.HitDieOr8` | backend/src/services/RulesEngine.ts:191 | the hit die is never 0: the entry's own value when it has one, else 8 |
| `Rules.RulesEngine.constructor` | backend/src/services/RulesEngine.ts:18-38 | the custom content is kept, the core rules hold only the armour table and the merged rules are empty |
| `Rules.RulesEngine.GetRace` | backend/src/services/RulesEngine.ts:157-159 | null exactly for a name the merged rules lack, otherwise its entry |
| `Rules.RulesEngine.GetClass` | backend/src/services/RulesEngine.ts:161-163 | null exactly for a name the merged rules lack, otherwise its entry |
| `Rules.RulesEngine.GetFeat` | backend/src/services/RulesEngine.ts:165-167 | null exactly for a name the merged rules lack, otherwise its entry |
| `Rules.RulesEngine.MergeRules` | backend/src/services/RulesEngine.ts:126-147 | the merged rules become `Merge` of the core rules and the custom content; the core rules do not change |
| `Rules.RulesEngine.LoadCoreRules` | backend/src/services/RulesEngine.ts:44-121 | a readable file's sections replace the core ones, an unreadable file changes nothing, and either way the rules are merged again |
| `Rules.RulesEngine.CalculateAC` | backend/src/services/RulesEngine.ts:181-185 | the unarmoured armour class: 10 plus the DEX modifier |
| `Rules.RulesEngine.EngineHP` | backend/src/services/RulesEngine.ts:187-197 | at least 1, and exactly 8 for a class the merged rules do not know |
| `Rules.RulesEngine.CalculateHP` | backend/src/services/RulesEngine.ts:187-197 | the loop returns `EngineHP`: the shared hit point formula with the class's hit die, or 8 for an unknown class |
| `Rules.RulesEngine.GetSpell` | backend/src/services/RulesEngine.ts:199-201 | no spell is ever found |
| `Rules.RulesEngine.RollAttack` | backend/src/services/RulesEngine.ts:203-207 | a d20 roll, the total adds the bonus, crit exactly on 20, miss exactly on 1, never both |
| `Rules.RulesEngine.CanCastSpell` | backend/src/services/RulesEngine.ts:209-211 | every character may cast every spell |
| `Rules.EngineHPMonotone` | backend/src/services/RulesEngine.ts:187-197 | a higher level never lowers the engine's hit points |
| `Rules.EngineHPAtFirstLevel` | backend/src/services/RulesEngine.ts:187-197 | at first level the hit points are the hit die plus the CON modifier, at least 1 |
| `CustomContentStore.Invalid` | backend/src/services/CustomContentManager.ts:180 | a failed validation carries its message |
| `CustomContentStore.FirstBadBonus` | backend/src/services/CustomContentManager.ts:189-193 | the first bonus in insertion order outside [-2, +2], all before it in range; none exactly when all are in range |
| `CustomContentStore.ValidateRace` | backend/src/services/CustomContentManager.ts:178-195 | valid exactly when name length, speed, bonus total and every bonus pass; the first rule broken chooses the message, naming the offending ability |
| `CustomContentStore.TotalReportedBeforeRange` | backend/src/services/CustomContentManager.ts:185-192 | a single bonus of +7 is reported as a total above +6, not as out of range |
| `CustomContentStore.ValidateClass` | backend/src/services/CustomContentManager.ts:197-205 | valid exactly for a name of 2 to 50 characters and a hit die of 6 to 12, name checked first |
| `CustomContentStore.ValidateFeat` | backend/src/services/CustomContentManager.ts:207-215 | valid exactly for a name of 2 to 50 characters and a description of at least 10, name checked first |
| `CustomContentStore.EmptyPatchesChangeNothing` | backend/src/services/CustomContentManager.ts:53 | spreading an empty update over an entry leaves it as it was |
| `CustomContentStore.CustomContentManager.constructor` | backend/src/services/CustomContentManager.ts:14-21 | the store starts with the stored content |
| `CustomContentStore.CustomContentManager.GetRaces` | backend/src/services/CustomContentManager.ts:73-76 | the races section, or `{}` when there is none |
| `CustomContentStore.CustomContentManager.GetClasses` | backend/src/services/CustomContentManager.ts:122-125 | the classes section, or `{}` when there is none |
| `CustomContentStore.CustomContentManager.GetFeats` | backend/src/services/CustomContentManager.ts:171-174 | the feats section, or `{}` when there is none |
| `CustomContentStore.CustomContentManager.CreateRace` | backend/src/services/CustomContentManager.ts:31-44 | an invalid race fails with its message and stores nothing; a valid one gets the id and custom source and is stored under its name; stored custom entries stay valid |
| `CustomContentStore.CustomContentManager.UpdateRace` | backend/src/services/CustomContentManager.ts:46-60 | missing and official races fail first; the patched race is validated and stored under the old name; a failure stores nothing; stored custom entries stay valid |
| `CustomContentStore.CustomContentManager.DeleteRace` | backend/src/services/CustomContentManager.ts:62-71 | only an existing custom race is removed, with the two errors otherwise and nothing else changed |
| `CustomContentStore.CustomContentManager.CreateClass` | backend/src/services/CustomContentManager.ts:80-93 | as for races, with the class validator and id |
| `CustomContentStore.CustomContentManager.UpdateClass` | backend/src/services/CustomContentManager.ts:95-109 | as for races, with the class messages |
| `CustomContentStore.CustomContentManager.DeleteClass` | backend/src/services/CustomContentManager.ts:111-120 | as for races, with the class messages |
| `CustomContentStore.CustomContentManager.CreateFeat` | backend/src/services/CustomContentManager.ts:129-142 | as for races, with the feat validator and id |
| `CustomContentStore.CustomContentManager.UpdateFeat` | backend/src/services/CustomContentManager.ts:144-158 | as for races, with the feat messages |
| `CustomContentStore.CustomContentManager.DeleteFeat` | backend/src/services/CustomContentManager.ts:160-169 | as for races, with the feat messages |
| `Skills.SkillNamesDistinct` | backend/src/services/SkillService.ts:16-35 | the skill table names eighteen distinct skills |
| `Skills.SkillAbility` | backend/src/services/SkillService.ts:69 | an ability is found exactly for the eighteen skill names |
| `Skills.ProficiencyTier` | backend/src/services/SkillService.ts:40-46 | 2 exactly up to level 8, 3 exactly for 9 to 16, 4 exactly from 17 |
| `Skills.TiersAgreeWithAdvancementOnlyUpToLevel4` | backend/src/services/SkillService.ts:40-46 | the tiers equal the shared `ceil(level / 4) + 1` formula exactly for levels 1 to 4 |
| `Skills.CalculateSkillBonus` | backend/src/services/SkillService.ts:65-89 | an unknown skill gives zeroes; otherwise the modifier of the skill's ability (0 counting as 10) plus the tier of the level (1 when absent or 0) exactly when the entry says `isProficient` |
| `Skills.ProficientFieldIsIgnored` | backend/src/services/SkillService.ts:81 | an entry marked only with the character record's `proficient` field earns no proficiency bonus |
| `Skills.ClassProficiencies` | backend/src/services/SkillService.ts:139-156 | the class's list, or `[]` for a class the table lacks |
| `Skills.ClassListsNameSkills` | backend/src/services/SkillService.ts:140-153 | every skill a class list names is one of the eighteen |
| `Skills.InitialEntry` | backend/src/services/SkillService.ts:122-130 | the entry's bonus is the ability modifier, plus the proficiency bonus exactly when proficient |
| `Skills.InitialSkills` | backend/src/services/SkillService.ts:94-134 | the initial sheet has an entry for each of the eighteen skills and no other |
| `Skills.InitialProficienciesAreClassList` | backend/src/services/SkillService.ts:117-124 | a skill is proficient on the initial sheet exactly when the class list names it |
| `Skills.FillSheet` | backend/src/services/SkillService.ts:121-131 | the `forEach` builds the sheet entry by entry |
| `Skills.InitializeSkillsForClass` | backend/src/services/SkillService.ts:94-134 | the method returns the initial sheet for the class, abilities and level |
| `Skills.RecommendedSkills` | backend/src/services/SkillService.ts:161-164 | the first `count` skills of the class list, with `slice`'s clamping of large and negative counts |
| `Skills.Shift` | backend/src/services/SkillService.ts:182-187 | a proficient entry moves by the difference, any other entry is left alone |
| `Skills.LevelUp` | backend/src/services/SkillService.ts:180-190 | the same skills, and no change for a difference of 0 |
| `Skills.UpdateSkillsOnLevelUp` | backend/src/services/SkillService.ts:169-191 | the sheet with every proficient entry shifted by the change in tier |
| `Skills.LevelUpComposes` | backend/src/services/SkillService.ts:169-191 | two level-ups in a row equal one by the sum of their differences |
| `Skills.SheetLevelUp` | backend/src/services/SkillService.ts:169-191 | re-basing a sheet by the change in bonus gives the sheet built with the new bonus |
| `Skills.LevelUpRebasesInitialSheet` | backend/src/services/SkillService.ts:94-191 | a sheet built at one level and updated to another equals the sheet built at the other level |
| `Skills.FormatBonus` | backend/src/services/SkillService.ts:196-200 | always a sign then digits; `+` exactly for bonuses of 0 or more |
| `Skills.FormatBonusRoundTrip` | backend/src/services/SkillService.ts:196-200 | reading a formatted bonus back gives the bonus |
| `Skills.RecommendDC` | backend/src/services/SkillService.ts:205-215 | the DC is 5 times the difficulty's rank plus one: 5 to 30 |
| `Skills.RecommendDCIncreasing` | backend/src/services/SkillService.ts:205-215 | a harder check always has a higher DC |
| `Skills.Sheet` | backend/src/services/SkillService.ts:121-131 | the skill sheet has exactly the skills of the table as its keys |
| `AbilityScoring.Insert` | backend/src/services/AbilityScoreService.ts:142 | inserting into a descending list keeps it descending and adds exactly the one element |
| `AbilityScoring.SortDesc` | backend/src/services/AbilityScoreService.ts:142 | `sort((a, b) => b - a)`: descending, and a permutation of its input |
| `AbilityScoring.RolledSums` | backend/src/services/AbilityScoreService.ts:134-147 | six sums, in the order rolled |
| `AbilityScoring.FourDice` | backend/src/services/AbilityScoreService.ts:138-140 | four faces from consecutive draws |
| `AbilityScoring.BestThreeDropsLowest` | backend/src/services/AbilityScoreService.ts:142-143 | the sum of the best three is the sum of all four minus the lowest face, which is one of the four and no higher than any |
| `AbilityScoring.SumOfPermutation` | backend/src/services/AbilityScoreService.ts:143 | lists holding the same numbers have the same sum |
| `AbilityScoring.BestThreeBounds` | backend/src/services/AbilityScoreService.ts:142-143 | four d6 faces keep a best three of 3 to 18 |
| `AbilityScoring.RolledSumsBounds` | backend/src/services/AbilityScoreService.ts:134-147 | every 4d6-drop-lowest sum lies in [3, 18] |
| `AbilityScoring.ScoresOf` | backend/src/services/AbilityScoreService.ts:150-157 | the six numbers go to STR, DEX, CON, INT, WIS and CHA in order |
| `AbilityScoring.RollRandom4d6` | backend/src/services/AbilityScoreService.ts:133-158 | the rolled sums sorted high to low and handed out STR first: every score in [3, 18], never rising from STR to CHA |
| `AbilityScoring.RollFour` | backend/src/services/AbilityScoreService.ts:137-140 | the inner loop pushes the four faces of consecutive draws |
| `AbilityScoring.SortDescBounds` | backend/src/services/AbilityScoreService.ts:146 | sorting keeps every element within the bounds the input keeps |
| `AbilityScoring.BaseScoresForMethod` | backend/src/services/AbilityScoreService.ts:86-128 | the standard array, eight in everything for point buy, ten for fixed and any other method, the rolled scores for random |
| `AbilityScoring.TraitRules` | backend/src/services/AbilityScoreService.ts:42 | one lookup per trait name, in order, absent for unknown names |
| `AbilityScoring.BaseScore` | backend/src/services/AbilityScoreService.ts:46-65 | never 0; the method's score when no assignments are given and it is not 0 |
| `AbilityScoring.CalculationFor` | backend/src/services/AbilityScoreService.ts:55-75 | the final score is base plus race, class and trait bonuses; an unknown race or class contributes 0; the player assignment column is always 0 |
| `AbilityScoring.CalculateAbilityScores` | backend/src/services/AbilityScoreService.ts:20-81 | every ability gets its breakdown row, and each final score equals its row's final value |
| `AbilityScoring.AbilityRow` | backend/src/services/AbilityScoreService.ts:55-75 | the loop body computes the breakdown row of one ability |
| `AbilityScoring.SumTraitBonuses` | backend/src/services/AbilityScoreService.ts:58-63 | the inner loop adds the bonuses of the known traits |
| `AbilityScoring.AssignmentsOverrideMethod` | backend/src/services/AbilityScoreService.ts:46-48 | with player assignments given the scoring method has no effect, and the base is the assignment or 10 |
| `AbilityScoring.AllModifiers` | backend/src/services/AbilityScoreService.ts:171-180 | each entry is the modifier of the matching score |
| `AbilityScoring.PointBuyCost` | backend/src/services/AbilityScoreService.ts:185-197 | one point per step from 8 to 13, 7 for 14, 9 for 15, 0 outside the table |
| `AbilityScoring.PointBuyCostMonotone` | backend/src/services/AbilityScoreService.ts:185-197 | within the table a higher score never costs less |
| `AbilityScoring.Values` | backend/src/services/AbilityScoreService.ts:200 | the six scores in the order STR to CHA |
| `AbilityScoring.IsValidPointBuy` | backend/src/services/AbilityScoreService.ts:199-207 | spent is the summed cost and remaining is 27 minus it; valid exactly when at most 27 is spent and every score is 8 to 15 |
| `AbilityScoring.PointBuyOfStandardArrays` | backend/src/services/AbilityScoreService.ts:185-207 | the standard array spends exactly 27 points; eight in everything spends none |
| `AbilityScoring.CanCombineTraitWithRace` | backend/src/services/AbilityScoreService.ts:212-220 | true exactly for a known trait that combines with all races or lists this one |
| `AbilityScoring.SortedScores` | backend/src/services/AbilityScoreService.ts:146-157 | six sums from 3 to 18, sorted and handed out STR first, give scores from 3 to 18 in descending order |
| `Localization.Translate` | backend/src/services/LocalizationService.ts:281 | the table entry or else the key itself: the input for an unknown key, the table's value for a known one |
| `Localization.TranslateRace` | backend/src/services/LocalizationService.ts:280-282 | the Russian name of a listed race, the input otherwise |
| `Localization.TranslateClass` | backend/src/services/LocalizationService.ts:308-310 | the Russian name of a listed class, the input otherwise |
| `Localization.TranslateAbility` | backend/src/services/LocalizationService.ts:334-336 | the Russian name of a listed ability, the input otherwise |
| `Localization.TranslateSkill` | backend/src/services/LocalizationService.ts:341-343 | the Russian name of a listed skill, the input otherwise |
| `Localization.TranslateTerm` | backend/src/services/LocalizationService.ts:348-350 | the Russian term for a listed term, the input otherwise |
| `Localization.FirstReverse` | backend/src/services/LocalizationService.ts:295-299 | the first entry whose Russian name matches exactly or case-insensitively, none before it; none means no match at all |
| `Localization.ReverseByAlias` | backend/src/services/LocalizationService.ts:290-292 | an alias wins over the table scan |
| `Localization.ReverseTranslate` | backend/src/services/LocalizationService.ts:288-303 | the early-returning loop returns the alias, else the first matching entry's English key, else the input |
| `Localization.ReverseTranslateRace` | backend/src/services/LocalizationService.ts:288-303 | the race reverse lookup: aliases, then the table, then the input |
| `Localization.ReverseTranslateClass` | backend/src/services/LocalizationService.ts:315-329 | the class reverse lookup: aliases, then the table, then the input |
| `Localization.NoNameMatch` | backend/src/services/LocalizationService.ts:296 | names of different lengths, or with different first or last letters after lower-casing, never match |
| `Localization.TranslateClassEntry` | backend/src/services/LocalizationService.ts:108-128 | each English class key translates to its own Russian name |
| `Localization.ClassByAlias` | backend/src/services/LocalizationService.ts:131-156 | each of the twelve base classes is found again through the alias table |
| `Localization.ClassByScan` | backend/src/services/LocalizationService.ts:322-326 | the four classes without an alias are found again by the table scan |
| `Localization.ClassRoundTrip` | backend/src/services/LocalizationService.ts:308-329 | every listed class survives translation to Russian and back |
| `Localization.RaceByAlias` | backend/src/services/LocalizationService.ts:288-292 | a race whose Russian name is an alias comes back as the alias's value |
| `Localization.ChangelingComesBackAsWerewolf` | backend/src/services/LocalizationService.ts:45-80 | the race round trip fails for Changeling, which comes back as Werewolf |
| `Localization.WerewolfRoundTrip` | backend/src/services/LocalizationService.ts:68-80 | Werewolf itself comes back |
| `Localization.FirstContained` | backend/src/services/LocalizationService.ts:361-365 | the first verb of the table the text contains, none before it; none means none at all |
| `Localization.PhraseFrom` | backend/src/services/LocalizationService.ts:361-368 | the phrase starts with "Ты " and goes on with the input or the description of a verb the input contains |
| `Localization.PhraseLoop` | backend/src/services/LocalizationService.ts:361-368 | the early-returning loop gives the phrase of the first verb in table order |
| `Localization.FormatActionDescription` | backend/src/services/LocalizationService.ts:357-369 | the phrase of the lower-cased, trimmed input, always starting with "Ты " |
| `Localization.ActionPhraseFallback` | backend/src/services/LocalizationService.ts:368 | an input naming no verb is echoed, lower-cased and trimmed |
| `Localization.ActionPhraseFirstVerb` | backend/src/services/LocalizationService.ts:361-364 | the first verb in table order wins, whatever else the input contains |
| `Localization.ReplaceEach` | backend/src/services/LocalizationService.ts:378-381 | the loop applies the table's whole-word replacements one key after another |
| `Localization.FixMalformedTranslations` | backend/src/services/LocalizationService.ts:374-384 | the replacements of its table in order; text without ASCII word characters, or without any key, comes back unchanged |
| `Localization.FixEnglicisms` | backend/src/services/LocalizationService.ts:389-398 | the replacements of its table in order; text without ASCII word characters, or without any key, comes back unchanged |
| `Localization.FixEnglicismsReplacesHp` | backend/src/services/LocalizationService.ts:389-398 | the ASCII keys do fire: `"hp"` becomes `"гп"` |
| `Localization.LocalizeCharacter` | backend/src/services/LocalizationService.ts:403-409 | race and class are translated and every other field is kept |
| `Words.ReplaceFromNoMatch` | backend/src/services/LocalizationService.ts:379-380 | from any position where `\bkey\b` never matches, the global replace copies the rest of the text unchanged |
| `Words.ReplaceWordNoMatch` | backend/src/services/LocalizationService.ts:379-380 | a key that matches nowhere as a whole word leaves the text unchanged |
| `Words.NoWordCharNoMatch` | backend/src/services/LocalizationService.ts:379 | text without any ASCII word character has no `\b` position, so no key matches in it; in particular the Cyrillic keys of the fix tables never fire in purely Cyrillic text |
| `Words.NonWordKeyNeedsWordNeighbours` | backend/src/services/LocalizationService.ts:379 | a key that starts and ends with a non-word character (any Cyrillic word) matches as a whole word exactly where it occurs with an ASCII word character on each side |
| `Words.AbsentKeyNoMatch` | backend/src/services/LocalizationService.ts:379 | a key that does not occur in the text, up to case, never matches |
| `Words.ReplaceAllWordsNoWordChar` | backend/src/services/LocalizationService.ts:378-381 | running a whole table of replacements over text without ASCII word characters returns it unchanged |
| `Words.ReplaceAllWordsAbsent` | backend/src/services/LocalizationService.ts:392-395 | text in which no key of the table occurs comes back unchanged |
| `Words.ReplaceWordWhole` | backend/src/services/LocalizationService.ts:393-394 | a key that begins and ends with a word character, standing alone, is replaced by its replacement |
| `Words.ReplaceAllWordsAppend` | backend/src/services/LocalizationService.ts:392-395 | replacing with a table split in two is replacing with the first part and then the second |
| `Words.ReplaceAllWordsSingleHit` | backend/src/services/LocalizationService.ts:392-395 | text that is exactly one key becomes that key's replacement when no earlier key occurs in it and the replacement gives later keys nothing to match |
| `Text.ToLower` | backend/src/services/ActionOrchestrator.ts:134 | `toLowerCase` keeps the length and lowers each character on its own |
| `Text.ToLowerAppend` | backend/src/services/ActionOrchestrator.ts:134 | lowering a concatenation is concatenating the lowered parts |
| `Text.TrimStart` | backend/src/services/ActionOrchestrator.ts:129 | the result is a suffix of the input, what was dropped is blank, and it does not start with white space |
| `Text.TrimEnd` | backend/src/services/ActionOrchestrator.ts:129 | the result is a prefix of the input, what was dropped is blank, and it does not end with white space |
| `Text.Trim` | frontend/lib/validation.ts:4 | `trim()` neither starts nor ends with white space, and is empty exactly when the input is blank |
| `Text.TrimSlice` | frontend/lib/validation.ts:4 | the trimmed text is a contiguous slice of the input |
| `Text.CollapseSpaces` | backend/src/services/ActionOrchestrator.ts:129 | `replace(/\s+/g, ' ')` leaves no two white-space characters in a row and no white space other than a plain blank, and starts with white space exactly when the input does |
| `Text.CollapseSingleSpaced` | backend/src/services/ActionOrchestrator.ts:129 | collapsing text that is already single-spaced changes nothing |
| `Text.TrimTidy` | backend/src/services/ActionOrchestrator.ts:129 | trimming single-spaced text gives tidy text: single-spaced with no white space at either end |
| `Text.TidyTrim` | backend/src/services/ActionOrchestrator.ts:129 | trimming tidy text changes nothing |
| `Text.SplitCamel` | backend/src/services/ActionOrchestrator.ts:132-133 | `replace(/([a-z])([A-Z])/g, '$1 $2')` keeps the first character, puts a space in when a lower-upper pair exists, and gives tidy text for input without white space |
| `Text.ToLowerKeepsTidy` | backend/src/services/ActionOrchestrator.ts:132-134 | lowering tidy text keeps it tidy |
| `Text.DigitsValueOfNatToString` | backend/src/utils/dice.ts:25 | reading back the decimal numeral of a natural number gives the number |
| `Text.IntToStringRoundTrip` | backend/src/services/SkillService.ts:196-200 | reading back the signed decimal numeral of an integer gives the integer |
| `Text.NatToString` | backend/src/services/SkillService.ts:196-200 | a natural number's numeral is a non-empty string of digits |
| `Text.IntToString` | backend/src/services/SkillService.ts:196-200 | an integer's numeral is non-empty and starts with a minus sign exactly when the integer is negative |
| `Text.Join` | backend/src/services/PromptService.ts:80 | `join` of no parts is empty, and of one part is that part |
| `Orchestrator.SkillAbility` | backend/src/services/ActionOrchestrator.ts:144 | a skill has an ability exactly when it is a key of `SKILL_ABILITY_MAP` |
| `Orchestrator.SameEntries` | backend/src/services/ActionOrchestrator.ts:16-35 | the orchestrator's skill table and `SkillService`'s hold the same entries: each entry of either has its twin in the other at a stated position |
| `Orchestrator.SkillTablesAgree` | backend/src/services/ActionOrchestrator.ts:16-35 | both skill tables give every skill the same ability, or both none |
| `Orchestrator.GetSkillModifier` | backend/src/services/ActionOrchestrator.ts:143-162 | 0 for an unknown skill; otherwise at least the ability modifier (a score of 0 counting as 10), and exactly the larger of that modifier and the stored skill bonus when the character has an entry |
| `Orchestrator.GetProficiencyBonus` | backend/src/services/ActionOrchestrator.ts:167-173 | 2 up to level 8, 3 for levels 9 to 16, 4 from 17 on, each in both directions |
| `Orchestrator.ProficiencyTiersAgree` | backend/src/services/ActionOrchestrator.ts:167-173 | the orchestrator's tiers equal `SkillService`'s at every level |
| `Orchestrator.AnalyzeIntent` | backend/src/services/ActionOrchestrator.ts:263-310 | a reply that does not parse gives the free-form "Parse error" intent; otherwise each field falls back to its default when falsy, the ability is the skill's from the table, and a roll is needed only for a literal `true` |
| `Orchestrator.DifficultyOr10` | backend/src/services/ActionOrchestrator.ts:331-333 | the intent's difficulty when set and non-zero, 10 otherwise |
| `Orchestrator.RollDice` | backend/src/services/ActionOrchestrator.ts:315-346 | a d20 from 1 to 20; a skill gives the skill modifier and no proficiency, combat the better of STR and DEX plus the level's proficiency, anything else nothing; success exactly when the total reaches the difficulty; the margin is total minus difficulty; critical hit and miss exactly on 20 and 1 |
| `Orchestrator.CriticalsExclusive` | backend/src/services/ActionOrchestrator.ts:335-344 | a roll is never both a critical hit and a critical miss, and succeeds exactly when its margin is not negative |
| `Orchestrator.CombatAddsProficiency` | backend/src/services/ActionOrchestrator.ts:323-328 | a combat roll without a skill adds at least 2 to both the STR and the DEX modifier |
| `Orchestrator.TraitsText` | backend/src/services/ActionOrchestrator.ts:360 | reading the traits fails exactly when the character's traits are a list, which has no `toLowerCase` |
| `Orchestrator.CharismaLine` | backend/src/services/ActionOrchestrator.ts:383 | the closing line shows the CHA modifier with the sign `SkillService.formatBonus` would give it |
| `Orchestrator.PersonalityInfluence` | backend/src/services/ActionOrchestrator.ts:351-384 | no NPC interaction outside dialogue; in dialogue it fails exactly when the traits cannot be lower-cased, and otherwise the first matching rule wins (charm, intimidat, deceptive on the traits, then justice, freedom on the ideals), else the CHA line |
| `Orchestrator.PlainCharacterGetsCharismaLine` | backend/src/services/ActionOrchestrator.ts:360-383 | a character without personality gets the CHA line in dialogue, since "neutral" and "survival" match no rule |
| `Orchestrator.DefaultsMatchNoRule` | backend/src/services/ActionOrchestrator.ts:360-381 | the defaults "neutral" and "survival" contain none of the words the rules look for |
| `Orchestrator.PointsChange` | backend/src/services/ActionOrchestrator.ts:447-449 | +5 or +3 after success (5 for a kind personality), -5 or -2 after failure (-5 for a deceptive one); positive exactly after success |
| `Orchestrator.EvolveRelationships` | backend/src/services/ActionOrchestrator.ts:435-455 | always reports a change; gives the character an empty relation record when it has none and changes nothing else |
| `Orchestrator.FormattedActionTidy` | backend/src/services/ActionOrchestrator.ts:128-138 | a formatted action is single-spaced with no white space at either end |
| `Orchestrator.FormatActionText` | backend/src/services/ActionOrchestrator.ts:128-138 | the result is the collapsed and trimmed text, split at lower-upper pairs and lower-cased when it is a single camel-case word |
| `Orchestrator.FormattedSettled` | backend/src/services/ActionOrchestrator.ts:131 | a formatted action is never again a single camel-case word |
| `Orchestrator.FormattedActionIdempotent` | backend/src/services/ActionOrchestrator.ts:128-138 | formatting an already formatted action changes nothing |
| `Orchestrator.Sanitized` | backend/src/services/ActionOrchestrator.ts:100-101 | English text comes back as it is |
| `Orchestrator.SanitizeForLanguage` | backend/src/services/ActionOrchestrator.ts:100-123 | the result is the text with each class name replaced as a whole, case-sensitive word, one table entry after another |
| `Orchestrator.SanitizeWithoutClassNames` | backend/src/services/ActionOrchestrator.ts:118-122 | text that names no class comes back unchanged in either language |
| `Orchestrator.ProcessAction` | backend/src/services/ActionOrchestrator.ts:178-258 | fails exactly when the personality rules throw, and then changes nothing; otherwise a dice result exists exactly when the intent needs a roll, the relationship changes exactly for a dialogue with a roll (only then may the character gain a relation record), and the suggestions are each formatted and then localised, in order |
| `Orchestrator.MapStrings` | backend/src/services/ActionOrchestrator.ts:244 | `map` keeps the length |
| `Orchestrator.MapStringsEach` | backend/src/services/ActionOrchestrator.ts:244 | each element of the map is the function applied to the element in the same place |
| `Orchestrator.LocalizedSuggestionsEach` | backend/src/services/ActionOrchestrator.ts:244-248 | no suggestion is dropped or moved; each is formatted, then localised |
| `Orchestrator.ParseErrorIsQuiet` | backend/src/services/ActionOrchestrator.ts:302-309 | a reply that does not parse never rolls, is not a dialogue, and reports no NPC interaction |
| `Prompts.FirstIndexFrom` | backend/src/services/PromptService.ts:42 | the first position at or after the start where the pattern occurs, or none when it occurs nowhere from there |
| `Prompts.ExpandWithoutDollar` | backend/src/services/PromptService.ts:42-53 | a replacement value without `$` is inserted exactly as written |
| `Prompts.ExpandEscaped` | backend/src/services/PromptService.ts:42-53 | doubling every `$` of a value makes `replace` insert the value literally, whatever the match and its surroundings |
| `Prompts.ReplaceFirst` | backend/src/services/PromptService.ts:42-53 | `replace` with a string pattern: unchanged when the pattern is absent, else only its first occurrence is replaced, by the value with `$$`, `$&`, `` $` `` and `$'` expanded |
| `Prompts.DollarDollarIsOneDollar` | backend/src/services/PromptService.ts:49 | a value `$$` (a player's last action, say) reaches the prompt as a single `$` |
| `Prompts.DollarQuoteSplicesRest` | backend/src/services/PromptService.ts:49 | a value `$'` splices the rest of the template in where the value goes |
| `Prompts.ReplaceChainWithoutPlaceholders` | backend/src/services/PromptService.ts:41-53 | a chain of replacements leaves text holding none of its patterns unchanged |
| `Prompts.ReplaceChainSkip` | backend/src/services/PromptService.ts:41-53 | replacements whose patterns are absent from the text can be dropped from the front of the chain |
| `Prompts.ChainSolePattern` | backend/src/services/PromptService.ts:41-53 | a text that is exactly one pattern of the chain, absent the patterns before it, becomes that pattern's value when the value has no `$` and holds none of the later patterns |
| `Prompts.When` | backend/src/services/PromptService.ts:76-78 | a conditional push: the line when the condition holds, nothing otherwise |
| `Prompts.RaceDisplay` | backend/src/services/PromptService.ts:68-71 | the race alone without traits, else the race followed by its traits joined by commas |
| `Prompts.PortraitLines` | backend/src/services/PromptService.ts:59-81 | five lines (name, gender or "Не указан", level or 1, race display, class), and a sixth with the background when there is one |
| `Prompts.BuildCharacterPortrait` | backend/src/services/PromptService.ts:59-81 | the portrait is the portrait lines joined by newlines |
| `Prompts.ShortBackstory` | backend/src/services/PromptService.ts:117 | `slice(0, 200)`: a prefix of the backstory of length at most 200, all of it when shorter |
| `Prompts.TraitsLine` | backend/src/services/PromptService.ts:91-93 | one traits line for a non-empty list, nothing for absent or empty traits |
| `Prompts.TemperamentLines` | backend/src/services/PromptService.ts:90-103 | fails with the `join` error exactly when the traits are a non-empty string |
| `Prompts.SecretLine` | backend/src/services/PromptService.ts:111-113 | only the first secret is shown, and nothing without secrets |
| `Prompts.PersonaLines` | backend/src/services/PromptService.ts:105-119 | at most three lines; the first secret is among them when there is one, and the cut backstory with "..." comes last when there is one |
| `Prompts.PersonalityLines` | backend/src/services/PromptService.ts:86-122 | fails exactly when the personality's traits are a non-empty string; otherwise the persona's lines close the list |
| `Prompts.PushTemperament` | backend/src/services/PromptService.ts:90-103 | the pushes for the personality object are its temperament lines, or the same error |
| `Prompts.PushPersona` | backend/src/services/PromptService.ts:105-119 | the pushes for alignment, first secret and backstory append the persona's lines |
| `Prompts.BuildPersonalityContext` | backend/src/services/PromptService.ts:86-122 | the personality lines joined by newlines, or the `join` error |
| `Prompts.SignedModifier` | backend/src/services/PromptService.ts:144 | the modifier with a plus sign when not negative, as `SkillService.formatBonus` writes it |
| `Prompts.AbilityLine` | backend/src/services/PromptService.ts:145 | the Russian abbreviation, the score and the signed modifier of that score |
| `Prompts.BuildAbilitiesContext` | backend/src/services/PromptService.ts:127-149 | the "not calculated" line without scores, else one line per ability in STR..CHA order joined by `' | '` |
| `Prompts.RelationLines` | backend/src/services/PromptService.ts:159-160 | one `npc: relation` line per relation, in order |
| `Prompts.BuildNPCContext` | backend/src/services/PromptService.ts:154-162 | the "no relations" line when there are none, else the relation lines joined; a single relation is just its own line |
| `Prompts.EmotionalParts` | backend/src/services/PromptService.ts:168-184 | no part is empty, and there are none exactly when both emotional states, the goal and the wounds are all empty |
| `Prompts.JoinNonEmpty` | backend/src/services/PromptService.ts:186 | joining parts whose first one is non-empty gives a non-empty string, so the fallback only fires when there are no parts |
| `Prompts.EmotionalContext` | backend/src/services/PromptService.ts:167-187 | never empty; the neutral word exactly when there are no parts, else the parts joined |
| `Prompts.BuildEmotionalContext` | backend/src/services/PromptService.ts:167-187 | the parts pushed one by one and joined, or the neutral word, equal to the emotional context |
| `Prompts.HistoryTail` | backend/src/services/PromptService.ts:39 | `slice(-2000)`: a suffix of the history of length at most 2000, all of it when shorter |
| `Prompts.Pair` | backend/src/services/PromptService.ts:41-53 | each placeholder paired with the value at the same position |
| `Prompts.BuildParts` | backend/src/services/PromptService.ts:33-37 | the texts fail exactly when the personality context does, and the personality text is its lines joined by newlines |
| `Prompts.PlaceholderValues` | backend/src/services/PromptService.ts:42-53 | one value per placeholder, the world name, difficulty, history and turn each falling back to its default when falsy |
| `Prompts.Substitutions` | backend/src/services/PromptService.ts:41-53 | each placeholder with its value, in the order they are filled in |
| `Prompts.GetSystemPrompt` | backend/src/services/PromptService.ts:22-54 | fails exactly when the personality context does; otherwise the template of the language with each placeholder's first occurrence replaced in turn, the `$` patterns of each value expanded as `replace` does |
| `Prompts.PlainTemplateIsPrompt` | backend/src/services/PromptService.ts:41-53 | a template holding no placeholder is the prompt itself, whatever the character and world |
| `Prompts.TurnTemplate` | backend/src/services/PromptService.ts:52 | a template that is the turn placeholder alone becomes the printed turn number, or 1 without a turn, whatever the character and world |

## Left out

- The language-model calls (`AIService.analyzeAction`, `generateActionResponse`, `generateNextActions`) and `generateNarrative` are not part of this model. Their results are parameters of `Orchestrator.ProcessAction`.
- `JSON.parse` of the model's reply is not modelled. A reply that does not parse is `None`, and one that does is a record whose absent fields are empty or 0.
- File I/O is not modelled:
  - `CustomContentManager.loadCustomContent` and `saveCustomContent` become reads and writes of the `content` field.
  - The rules file behind `RulesEngine.loadCoreRules` is a parameter (`Option<RulesFile>`, where `None` means unreadable).
  - The rules data `AbilityScoreService` reads is a parameter.
- `Date.now()` ids and timestamps are the parameter `now`: the `custom-race-<now>`, `custom-class-<now>` and `custom-feat-<now>` ids of `CustomContentManager` and the character id `char-<now>` of `CharacterService.createCharacter`. A session's id is an argument of `createSession`. The start time of a game session is not modelled.
- `Math.random()` is a supplied draw. The model makes no claim about distributions. The random shuffle of the default suggestions in `generateDynamicActions` is a permutation given as a parameter.
- `console` logging, the `formatDate` locale formatting (frontend/lib/utils.ts:52-55), and the React, HTTP and store layers are not part of this model.
- Several plain accessors and copies are left out:
  - `RulesEngine.getMergedRules` and `getCoreRules` are field reads.
  - `RulesEngine.getAllRaces` and `getAllClasses` list map values in an order a Dafny map does not keep.
  - `SkillService.getAllSkills` copies the skill table.
  - The `LocalizationService` `getAll*` accessors are left out for the same reason.
- `LocalizationService.localizeRaces` and `localizeClasses` are left out. They rely on untyped `race.name || race` access to values that may be strings or records.
- The duplicated modifier helpers are defined once, as `Calculations.Modifier`, which is the same `floor((s - 10) / 2)` formula. These are `RulesEngine.calculateModifier`, `SkillService.getAbilityModifier`, `AbilityScoreService.calculateModifier`, the client's `getAbilityModifier`, and the orchestrator's inline modifiers.
- JavaScript objects used as dictionaries also answer for the names of `Object.prototype` members (`constructor`, `toString`, `hasOwnProperty`, `__proto__` and the rest), with inherited functions. The model treats every such name as an absent key, and the lines below name each member this makes weaker than the code.
- Lookup (`Tables.Lookup`): a name of an `Object.prototype` member is absent here, where the code finds the inherited function.
- GetRace (`Rules.RulesEngine.GetRace`): `getRace("constructor")` returns an inherited function in the code, not null as here.
- GetClass (`Rules.RulesEngine.GetClass`): the same for class names such as `"constructor"`.
- GetFeat (`Rules.RulesEngine.GetFeat`): the same for feat names such as `"constructor"`.
- CreateRace (`CustomContentStore.CustomContentManager.CreateRace`): a race named `"__proto__"` replaces the races object's prototype in the code and is not stored as an entry; here it is stored like any other name.
- UpdateRace (`CustomContentStore.CustomContentManager.UpdateRace`): for a name such as `"toString"` the code finds an inherited function whose `source` is not `CUSTOM` and throws the "official" error; here it fails as not found.
- DeleteRace (`CustomContentStore.CustomContentManager.DeleteRace`): the same as for update: the code throws the "official" error for `"toString"`, the model reports not found.
- CreateClass (`CustomContentStore.CustomContentManager.CreateClass`): the same `"__proto__"` gap as for races.
- UpdateClass (`CustomContentStore.CustomContentManager.UpdateClass`): the same inherited-name gap as for races.
- DeleteClass (`CustomContentStore.CustomContentManager.DeleteClass`): the same inherited-name gap as for races.
- CreateFeat (`CustomContentStore.CustomContentManager.CreateFeat`): the same `"__proto__"` gap as for races.
- UpdateFeat (`CustomContentStore.CustomContentManager.UpdateFeat`): the same inherited-name gap as for races.
- DeleteFeat (`CustomContentStore.CustomContentManager.DeleteFeat`): the same inherited-name gap as for races.
- Translate (`Localization.Translate`): for `"constructor"` and the other inherited names the code returns the inherited function instead of echoing the input as here.
- TranslateRace (`Localization.TranslateRace`): the same inherited-name gap as `Translate`.
- TranslateClass (`Localization.TranslateClass`): the same inherited-name gap as `Translate`.
- TranslateAbility (`Localization.TranslateAbility`): the same inherited-name gap as `Translate`.
- TranslateSkill (`Localization.TranslateSkill`): the same inherited-name gap as `Translate`.
- TranslateTerm (`Localization.TranslateTerm`): the same inherited-name gap as `Translate`.
- ReverseTranslate (`Localization.ReverseTranslate`): the alias lookup finds a truthy inherited function for `"constructor"` and the code returns it; here the input comes back.
- ReverseTranslateRace (`Localization.ReverseTranslateRace`): the same inherited-name gap as `ReverseTranslate`.
- ReverseTranslateClass (`Localization.ReverseTranslateClass`): the same inherited-name gap as `ReverseTranslate`.
- CreateCharacter (`Characters.CharacterService.CreateCharacter`): for race or class `"constructor"` the code's `if (!race)` and `if (!clazz)` checks (backend/src/services/CharacterService.ts:12-21) pass and it builds a character with every score 10; here it fails as not found, so "success exactly when all three checks pass" holds only for own keys.
- InitialNarrative (`Game.InitialNarrative`): for a world named `"constructor"` the code's `narratives[world.name]` is the inherited function and is returned; here the generic opening is.
- CreateSession (`Game.GameManager.CreateSession`): inherits the `InitialNarrative` gap for a world named `"constructor"`.
- EngineHP (`Rules.RulesEngine.EngineHP`): for class `"constructor"` the code's `getClass` is truthy, so it uses `hitDice || 8` and the per-level loop (22 at level 3 with CON 14); here the class is unknown and the result is a flat 8.
- CalculateHP (`Rules.RulesEngine.CalculateHP`): the same inherited-class gap as `EngineHP`.
- ClassProficiencies (`Skills.ClassProficiencies`): `getClassProficiencies("constructor")` returns the inherited `Object` function in the code; here it returns `[]`.
- InitialSkills (`Skills.InitialSkills`): for class `"constructor"` the code throws a TypeError because `proficiencies.includes` is not a function; here the sheet has no proficient skill.
- InitializeSkillsForClass (`Skills.InitializeSkillsForClass`): the same TypeError gap as `InitialSkills`.
- RecommendedSkills (`Skills.RecommendedSkills`): for class `"constructor"` the code's `slice` on a function throws; here the result is `[]`.
- CalculationFor (`AbilityScoring.CalculationFor`): for a race or trait named `"constructor"` the code reads `abilityBonus[ability]` of `undefined` and throws a TypeError; here that race or trait adds 0.
- CalculateAbilityScores (`AbilityScoring.CalculateAbilityScores`): the same TypeError gap as `CalculationFor`.
- LocalizeCharacter (`Localization.LocalizeCharacter`): inherits the `TranslateRace` and `TranslateClass` gap, so the code would store a function as race or class for `"constructor"`.
- `Object.entries` on an ability record is taken to visit STR, DEX, CON, INT, WIS, CHA. That is the order every record in the code is built in.
- JavaScript numbers are doubles; the model uses unbounded integers. `parseInt` of a digit run longer than about 16 digits in `Dice.FindDice` and `FrontendUtils.ParseDiceString` loses precision in the code and not here, and no arithmetic overflows to `Infinity`.
- Default arguments are explicit parameters: `rollDice(sides = 6, count = 1)`, `initializeSkillsForClass(level = 1)`, `getRecommendedSkills(count = 2)` and `language = 'ru'` are modelled with the caller always passing the value.
- String lengths are counted in code points, not UTF-16 code units. They differ only for characters outside the Basic Multilingual Plane, such as the emoji in prompt lines.
- `toLowerCase` is modelled for the Latin and Cyrillic alphabets only. Other characters are left as they are.
- The garbled Russian strings of `sanitizeForLanguage` are copied character by character and treated as opaque text.
- The list of base actions in frontend/lib/gameState.ts ends in a string literal that is never closed. The model takes its last entry to be the word the literal starts.
- A game session is a value. `GameManager.processAction` stores the updated session in place of the old one, so aliasing of the session object by other holders is not modelled.
- Services that mutate a character, such as `evolveRelationships`, return the updated character instead.
- `Orchestrator.EvolveRelationships`: the relationship points it computes are only logged in the source. The model computes them (`Orchestrator.PointsChange`) and does not return them.
- `Prompts.GetSystemPrompt`: the two template texts are parameters. The model does not state their wording, only how placeholders are filled in.
