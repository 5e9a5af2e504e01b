/**
 * `AbilityScoreService`: final ability scores from a base array plus race, class and trait
 * bonuses; the base arrays of the scoring methods; 4d6-drop-lowest; modifiers; the point-buy
 * costs; and whether a trait may go with a race.
 *
 * The rules data the service reads is a JSON file that is not part of this model; it is a
 * parameter `AbilityRules` here, each section an insertion-ordered table.
 */
module AbilityScoring {
  import opened Wrappers
  import opened Tables
  import opened Types
  import opened Calculations
  import opened Dice

  /** An ability bonus table such as `{ STR: 2, CON: 1 }`, keyed by `Ability.Key()`. */
  type Bonuses = seq<(string, int)>

  /** `bonuses[ability] || 0`. */
  function BonusOf(bonuses: Bonuses, a: Ability): int {
    Lookup(bonuses, a.Key()).GetOr(0)
  }

  /** Which races a trait combines with: `'All'`, a list of races, or anything else. */
  datatype CombineWith = CombineAll | CombineList(races: seq<string>) | CombineOther

  datatype RaceRule = RaceRule(abilityBonus: Bonuses)
  datatype ClassRule = ClassRule(abilityBonus: Option<Bonuses>)
  datatype TraitRule = TraitRule(abilityBonus: Bonuses, canCombineWith: CombineWith)

  /** `rules.races`, `rules.classes` and `rules.traits`. */
  datatype AbilityRules = AbilityRules(
    races: seq<(string, RaceRule)>, classes: seq<(string, ClassRule)>, traits: seq<(string, TraitRule)>)

  datatype ScoringMethod = StandardArray | Random | PointBuy | Fixed | OtherMethod

  const StandardArrayScores := AbilityScores(15, 14, 13, 12, 10, 8)

  /** Descending order of a sequence of numbers. */
  predicate SortedDesc(s: seq<int>) {
    forall i, j :: 0 <= i < j < |s| ==> s[i] >= s[j]
  }

  /** `x` put into its place in a descending sequence. */
  function Insert(x: int, s: seq<int>): (r: seq<int>)
    requires SortedDesc(s)
    ensures SortedDesc(r) && multiset(r) == multiset(s) + multiset{x} && |r| == |s| + 1
    ensures r[0] == x || (s != [] && r[0] == s[0])
  {
    if s == [] || x >= s[0] then [x] + s
    else
      var rest := Insert(x, s[1..]);
      assert s == [s[0]] + s[1..];
      assert s[0] >= rest[0];
      [s[0]] + rest
  }

  /** `array.sort((a, b) => b - a)`: the same numbers, largest first. */
  function SortDesc(s: seq<int>): (r: seq<int>)
    ensures SortedDesc(r) && multiset(r) == multiset(s) && |r| == |s|
  {
    if s == [] then []
    else
      assert s == [s[0]] + s[1..];
      Insert(s[0], SortDesc(s[1..]))
  }

  function Sum(s: seq<int>): int {
    if s == [] then 0 else Sum(s[..|s| - 1]) + s[|s| - 1]
  }

  /** The six sums of 4d6-drop-lowest, in the order they are rolled. */
  function RolledSums(draws: Draws): (r: seq<int>)
    ensures |r| == 6
  {
    seq(6, i requires 0 <= i < 6 => BestThree(FourDice(draws, 4 * i)))
  }

  /** Four d6 faces from consecutive draws. */
  function FourDice(draws: Draws, start: nat): (r: seq<int>)
    ensures |r| == 4
  {
    [DieFace(draws(start), 6), DieFace(draws(start + 1), 6), DieFace(draws(start + 2), 6), DieFace(draws(start + 3), 6)]
  }

  /** `scores.sort((a, b) => b - a).slice(0, 3).reduce(+)`. */
  function BestThree(four: seq<int>): int
    requires |four| == 4
  {
    Sum(SortDesc(four)[..3])
  }

  /** The sum of the best three is the sum of all four minus the lowest die. */
  lemma BestThreeDropsLowest(four: seq<int>)
    requires |four| == 4
    ensures BestThree(four) == Sum(four) - SortDesc(four)[3]
    ensures forall i :: 0 <= i < 4 ==> SortDesc(four)[3] <= four[i]
    ensures SortDesc(four)[3] in four
  {
    var s := SortDesc(four);
    assert s[..3] == s[..4][..3] && s[..4] == s;
    SumOfPermutation(s, four);
    forall i | 0 <= i < 4
      ensures s[3] <= four[i]
    {
      assert four[i] in multiset(s);
    }
    assert s[3] in multiset(four);
  }

  /** Sequences holding the same numbers have the same sum. */
  lemma {:induction false} SumOfPermutation(a: seq<int>, b: seq<int>)
    requires multiset(a) == multiset(b)
    ensures Sum(a) == Sum(b)
    decreases |a|
  {
    if a != [] {
      var x := a[|a| - 1];
      assert a == a[..|a| - 1] + [x];
      assert x in multiset(b);
      var k :| 0 <= k < |b| && b[k] == x;
      var b' := b[..k] + b[k + 1..];
      assert b == b[..k] + [x] + b[k + 1..];
      assert multiset(b) == multiset(b') + multiset{x};
      assert multiset(a) == multiset(a[..|a| - 1]) + multiset{x};
      assert multiset(b') == multiset(b) - multiset{x};
      assert multiset(a[..|a| - 1]) == multiset(a) - multiset{x};
      SumOfPermutation(a[..|a| - 1], b');
      SumRemove(b, k);
    } else {
      assert |b| == |multiset(b)| == 0;
    }
  }

  /** Taking one element out of a sequence takes it out of the sum. */
  lemma {:induction false} SumRemove(b: seq<int>, k: nat)
    requires k < |b|
    ensures Sum(b) == Sum(b[..k] + b[k + 1..]) + b[k]
    decreases |b|
  {
    var rest := b[..k] + b[k + 1..];
    if k == |b| - 1 {
      assert rest == b[..|b| - 1];
    } else {
      var last := b[|b| - 1];
      assert rest[..|rest| - 1] == b[..|b| - 1][..k] + b[..|b| - 1][k + 1..];
      assert rest[|rest| - 1] == last;
      SumRemove(b[..|b| - 1], k);
    }
  }

  /** Four d6 faces keep the best three in [3, 18]. */
  lemma BestThreeBounds(four: seq<int>)
    requires |four| == 4 && forall k :: 0 <= k < 4 ==> 1 <= four[k] <= 6
    ensures 3 <= BestThree(four) <= 18
  {
    var s := SortDesc(four);
    forall k | 0 <= k < 4
      ensures 1 <= s[k] <= 6
    {
      assert s[k] in multiset(four);
    }
    assert Sum(s[..1]) == s[0] by { assert s[..1][..0] == []; }
    assert Sum(s[..2]) == s[0] + s[1] by { assert s[..2][..1] == s[..1]; }
    assert Sum(s[..3]) == s[0] + s[1] + s[2] by { assert s[..3][..2] == s[..2]; }
  }

  /** Dice drawn from valid draws show 1 to 6. */
  lemma FourDiceBounds(draws: Draws, start: nat)
    requires ValidDraws(draws)
    ensures forall k :: 0 <= k < 4 ==> 1 <= FourDice(draws, start)[k] <= 6
  {
    assert 0.0 <= draws(start) < 1.0 && 0.0 <= draws(start + 1) < 1.0;
    assert 0.0 <= draws(start + 2) < 1.0 && 0.0 <= draws(start + 3) < 1.0;
  }

  /** Each 4d6-drop-lowest sum lies in [3, 18]. */
  lemma RolledSumsBounds(draws: Draws)
    requires ValidDraws(draws)
    ensures forall i :: 0 <= i < 6 ==> 3 <= RolledSums(draws)[i] <= 18
  {
    forall i | 0 <= i < 6
      ensures 3 <= RolledSums(draws)[i] <= 18
    {
      FourDiceBounds(draws, 4 * i);
      BestThreeBounds(FourDice(draws, 4 * i));
    }
  }

  function ScoresOf(s: seq<int>): (r: AbilityScores)
    requires |s| == 6
    ensures forall k :: 0 <= k < 6 ==> r.Get(AllAbilities[k]) == s[k]
  {
    AbilityScores(s[0], s[1], s[2], s[3], s[4], s[5])
  }

  /**
   * `rollRandom4d6`: six 4d6-drop-lowest sums, sorted from highest to lowest and handed out
   * STR first.
   */
  method RollRandom4d6(draws: Draws) returns (scores: AbilityScores)
    requires ValidDraws(draws)
    ensures scores == ScoresOf(SortDesc(RolledSums(draws)))
    ensures forall k :: 0 <= k < 6 ==> 3 <= scores.Get(AllAbilities[k]) <= 18
    ensures forall j, k :: 0 <= j < k < 6 ==> scores.Get(AllAbilities[j]) >= scores.Get(AllAbilities[k])
  {
    var rolls: seq<int> := [];
    var i := 0;
    while i < 6
      invariant 0 <= i <= 6
      invariant rolls == RolledSums(draws)[..i]
    {
      var dice := RollFour(draws, 4 * i);
      var best := SortDesc(dice)[..3];
      PrefixStep(RolledSums(draws), i);
      rolls := rolls + [Sum(best)];
      i := i + 1;
    }
    assert rolls == RolledSums(draws);
    RolledSumsBounds(draws);
    SortedScores(rolls);
    scores := ScoresOf(SortDesc(rolls));
  }

  /** Six sums in [3, 18], sorted and handed out in order, give descending scores in [3, 18]. */
  lemma SortedScores(rolls: seq<int>)
    requires |rolls| == 6 && forall k :: 0 <= k < 6 ==> 3 <= rolls[k] <= 18
    ensures forall k :: 0 <= k < 6 ==> 3 <= ScoresOf(SortDesc(rolls)).Get(AllAbilities[k]) <= 18
    ensures forall j, k :: 0 <= j < k < 6 ==>
              ScoresOf(SortDesc(rolls)).Get(AllAbilities[j]) >= ScoresOf(SortDesc(rolls)).Get(AllAbilities[k])
  {
    SortDescBounds(rolls, 3, 18);
  }

  /** The inner loop of `rollRandom4d6`: four d6 faces pushed one by one. */
  method RollFour(draws: Draws, start: nat) returns (dice: seq<int>)
    ensures dice == FourDice(draws, start)
  {
    dice := [];
    var j := 0;
    while j < 4
      invariant 0 <= j <= 4
      invariant dice == FourDice(draws, start)[..j]
    {
      dice := dice + [DieFace(draws(start + j), 6)];
      j := j + 1;
    }
  }

  /** Sorting keeps every element within the bounds the unsorted sequence keeps. */
  lemma SortDescBounds(s: seq<int>, lo: int, hi: int)
    requires forall k :: 0 <= k < |s| ==> lo <= s[k] <= hi
    ensures forall k :: 0 <= k < |s| ==> lo <= SortDesc(s)[k] <= hi
  {
    var sorted := SortDesc(s);
    forall k | 0 <= k < |s|
      ensures lo <= sorted[k] <= hi
    {
      assert sorted[k] in multiset(s);
    }
  }

  /** A prefix one longer is the prefix and the next element. */
  lemma PrefixStep(r: seq<int>, i: nat)
    requires i < |r|
    ensures r[..i + 1] == r[..i] + [r[i]]
  {
  }

  /** `getBaseScoresForMethod`; the random method takes the scores rolled from `draws`. */
  function BaseScoresForMethod(m: ScoringMethod, draws: Draws): (r: AbilityScores)
    ensures m == StandardArray ==> r == StandardArrayScores
    ensures m == PointBuy ==> r == Uniform(8)
    ensures m == Fixed || m == OtherMethod ==> r == Uniform(10)
    ensures m == Random ==> r == ScoresOf(SortDesc(RolledSums(draws)))
  {
    match m
    case StandardArray => StandardArrayScores
    case Random => ScoresOf(SortDesc(RolledSums(draws)))
    case PointBuy => Uniform(8)
    case Fixed => Uniform(10)
    case OtherMethod => Uniform(10)
  }

  /** `{ base, raceBonus, classBonus, traitBonuses, playerAssignment, final }`. */
  datatype AbilityCalculation = AbilityCalculation(
    base: int, raceBonus: int, classBonus: int, traitBonuses: int, playerAssignment: int, final: int)

  /** `traits.map(t => rules.traits[t])`: the trait rules found, `None` for unknown names. */
  function TraitRules(rules: AbilityRules, traits: seq<string>): (r: seq<Option<TraitRule>>)
    ensures |r| == |traits|
    ensures forall i :: 0 <= i < |traits| ==> r[i] == Lookup(rules.traits, traits[i])
  {
    seq(|traits|, i requires 0 <= i < |traits| => Lookup(rules.traits, traits[i]))
  }

  /** The sum of the bonuses the known traits give to `a`. */
  function TraitBonus(traitRules: seq<Option<TraitRule>>, a: Ability): int {
    if traitRules == [] then 0
    else
      var last := traitRules[|traitRules| - 1];
      TraitBonus(traitRules[..|traitRules| - 1], a) + (if last.Some? then BonusOf(last.value.abilityBonus, a) else 0)
  }

  /** `baseScores[a] || 10`, where the player's assignments, when given, replace the method's scores. */
  function BaseScore(baseScores: AbilityScores, playerAssignments: Option<Bonuses>, a: Ability): (b: int)
    ensures b != 0
    ensures playerAssignments.None? && baseScores.Get(a) != 0 ==> b == baseScores.Get(a)
  {
    var v := if playerAssignments.Some? then BonusOf(playerAssignments.value, a) else baseScores.Get(a);
    if v != 0 then v else 10
  }

  /** The row of `calculations` for one ability, given the scoring method's base scores. */
  function CalculationFor(
    rules: AbilityRules, race: string, traits: seq<string>, classType: string,
    baseScores: AbilityScores, playerAssignments: Option<Bonuses>, a: Ability): (c: AbilityCalculation)
    ensures c.final == c.base + c.raceBonus + c.classBonus + c.traitBonuses
    ensures c.playerAssignment == 0
    ensures c.base == BaseScore(baseScores, playerAssignments, a)
    ensures Lookup(rules.races, race).None? ==> c.raceBonus == 0
    ensures Lookup(rules.classes, classType).None? ==> c.classBonus == 0
  {
    var raceData := Lookup(rules.races, race);
    var classData := Lookup(rules.classes, classType);
    var raceBonus := if raceData.Some? then BonusOf(raceData.value.abilityBonus, a) else 0;
    var classBonus := if classData.Some? && classData.value.abilityBonus.Some?
                      then BonusOf(classData.value.abilityBonus.value, a) else 0;
    var traitBonus := TraitBonus(TraitRules(rules, traits), a);
    var base := BaseScore(baseScores, playerAssignments, a);
    AbilityCalculation(base, raceBonus, classBonus, traitBonus, 0, base + raceBonus + classBonus + traitBonus)
  }

  /**
   * `calculateAbilityScores`: for each ability in turn, the base score plus the race, class and
   * summed trait bonuses; the final scores and the breakdown agree.
   */
  method CalculateAbilityScores(
    rules: AbilityRules, race: string, traits: seq<string>, classType: string,
    m: ScoringMethod, draws: Draws, playerAssignments: Option<Bonuses>)
    returns (abilities: AbilityScores, calculations: map<Ability, AbilityCalculation>)
    ensures forall a :: a in calculations &&
              calculations[a] == CalculationFor(rules, race, traits, classType, BaseScoresForMethod(m, draws), playerAssignments, a)
    ensures forall a :: abilities.Get(a) == calculations[a].final
  {
    var raceData := Lookup(rules.races, race);
    var classData := Lookup(rules.classes, classType);
    var traitDataList := TraitRules(rules, traits);
    var baseScores := BaseScoresForMethod(m, draws);
    calculations := map[];
    abilities := baseScores;
    var i := 0;
    while i < |AllAbilities|
      invariant 0 <= i <= |AllAbilities|
      invariant forall k :: 0 <= k < i ==> AllAbilities[k] in calculations
      invariant forall a :: a in calculations ==>
                  (calculations[a] == CalculationFor(rules, race, traits, classType, BaseScoresForMethod(m, draws), playerAssignments, a) &&
                   abilities.Get(a) == calculations[a].final)
    {
      var ability := AllAbilities[i];
      var row := AbilityRow(rules, race, traits, classType, raceData, classData, traitDataList, baseScores, playerAssignments, ability);
      calculations := calculations[ability := row];
      abilities := abilities.With(ability, row.final);
      i := i + 1;
    }
    forall a
      ensures a in calculations &&
              calculations[a] == CalculationFor(rules, race, traits, classType, BaseScoresForMethod(m, draws), playerAssignments, a)
      ensures abilities.Get(a) == calculations[a].final
    {
      AllAbilitiesListsEach(a);
    }
  }

  /** The body of the loop of `calculateAbilityScores`: one ability's bonuses and final score. */
  method AbilityRow(
    rules: AbilityRules, race: string, traits: seq<string>, classType: string,
    raceData: Option<RaceRule>, classData: Option<ClassRule>, traitDataList: seq<Option<TraitRule>>,
    baseScores: AbilityScores, playerAssignments: Option<Bonuses>, ability: Ability)
    returns (row: AbilityCalculation)
    requires raceData == Lookup(rules.races, race) && classData == Lookup(rules.classes, classType)
    requires traitDataList == TraitRules(rules, traits)
    ensures row == CalculationFor(rules, race, traits, classType, baseScores, playerAssignments, ability)
  {
    var raceBonus := if raceData.Some? then BonusOf(raceData.value.abilityBonus, ability) else 0;
    var classBonus := if classData.Some? && classData.value.abilityBonus.Some?
                      then BonusOf(classData.value.abilityBonus.value, ability) else 0;
    var traitBonus := SumTraitBonuses(traitDataList, ability);
    var base := BaseScore(baseScores, playerAssignments, ability);
    var final := base + raceBonus + classBonus + traitBonus;
    row := AbilityCalculation(base, raceBonus, classBonus, traitBonus, 0, final);
  }

  /** The inner loop of `calculateAbilityScores`: the bonuses of the known traits, added up. */
  method SumTraitBonuses(traitDataList: seq<Option<TraitRule>>, ability: Ability) returns (traitBonus: int)
    ensures traitBonus == TraitBonus(traitDataList, ability)
  {
    traitBonus := 0;
    var j := 0;
    while j < |traitDataList|
      invariant 0 <= j <= |traitDataList|
      invariant traitBonus == TraitBonus(traitDataList[..j], ability)
    {
      var traitData := traitDataList[j];
      if traitData.Some? && BonusOf(traitData.value.abilityBonus, ability) != 0 {
        traitBonus := traitBonus + BonusOf(traitData.value.abilityBonus, ability);
      }
      assert traitDataList[..j + 1][..j] == traitDataList[..j];
      j := j + 1;
    }
    assert traitDataList[..j] == traitDataList;
  }

  /** With player assignments given, the scoring method plays no part. */
  lemma AssignmentsOverrideMethod(
    rules: AbilityRules, race: string, traits: seq<string>, classType: string,
    base1: AbilityScores, base2: AbilityScores, assignments: Bonuses, a: Ability)
    ensures CalculationFor(rules, race, traits, classType, base1, Some(assignments), a)
            == CalculationFor(rules, race, traits, classType, base2, Some(assignments), a)
    ensures CalculationFor(rules, race, traits, classType, base1, Some(assignments), a).base
            == (if BonusOf(assignments, a) != 0 then BonusOf(assignments, a) else 10)
  {
  }

  /** `getAllModifiers`: the modifier of every score. */
  function AllModifiers(abilities: AbilityScores): (r: AbilityScores)
    ensures forall a :: r.Get(a) == Modifier(abilities.Get(a))
  {
    AbilityScores(
      Modifier(abilities.strength), Modifier(abilities.dexterity), Modifier(abilities.constitution),
      Modifier(abilities.intelligence), Modifier(abilities.wisdom), Modifier(abilities.charisma))
  }

  /** `pointBuyCost`: the point-buy table for 8 to 15, and 0 for any other score. */
  function PointBuyCost(score: int): (c: int)
    ensures 8 <= score <= 13 ==> c == score - 8
    ensures score == 14 ==> c == 7
    ensures score == 15 ==> c == 9
    ensures !(8 <= score <= 15) ==> c == 0
  {
    match score
    case 8 => 0
    case 9 => 1
    case 10 => 2
    case 11 => 3
    case 12 => 4
    case 13 => 5
    case 14 => 7
    case 15 => 9
    case _ => 0
  }

  /** Within the table a higher score never costs less. */
  lemma PointBuyCostMonotone(a: int, b: int)
    requires 8 <= a <= b <= 15
    ensures PointBuyCost(a) <= PointBuyCost(b)
  {
  }

  datatype PointBuyResult = PointBuyResult(valid: bool, spent: int, remaining: int)

  /** `Object.values(abilities)`, in the order STR to CHA. */
  function Values(s: AbilityScores): (r: seq<int>)
    ensures |r| == 6 && forall k :: 0 <= k < 6 ==> r[k] == s.Get(AllAbilities[k])
  {
    [s.strength, s.dexterity, s.constitution, s.intelligence, s.wisdom, s.charisma]
  }

  function CostSum(values: seq<int>): int {
    if values == [] then 0 else CostSum(values[..|values| - 1]) + PointBuyCost(values[|values| - 1])
  }

  /** `isValidPointBuy`: the points spent, the points left of 27, and validity. */
  function IsValidPointBuy(abilities: AbilityScores): (r: PointBuyResult)
    ensures r.spent == CostSum(Values(abilities))
    ensures r.remaining == 27 - r.spent
    ensures r.valid <==> r.spent <= 27 && forall a :: 8 <= abilities.Get(a) <= 15
  {
    var values := Values(abilities);
    var spent := CostSum(values);
    var allInRange := forall k :: 0 <= k < |values| ==> 8 <= values[k] <= 15;
    assert allInRange <==> forall a :: 8 <= abilities.Get(a) <= 15 by {
      forall a
        ensures abilities.Get(a) in values
      {
        AllAbilitiesListsEach(a);
      }
    }
    PointBuyResult(spent <= 27 && allInRange, spent, 27 - spent)
  }

  /** The standard array is exactly a full point buy; eight in everything spends nothing. */
  lemma PointBuyOfStandardArrays()
    ensures IsValidPointBuy(StandardArrayScores) == PointBuyResult(true, 27, 0)
    ensures IsValidPointBuy(Uniform(8)) == PointBuyResult(true, 0, 27)
  {
    var v := Values(StandardArrayScores);
    assert CostSum(v[..1]) == 9 by { assert v[..1][..0] == []; }
    assert CostSum(v[..2]) == 16 by { assert v[..2][..1] == v[..1]; }
    assert CostSum(v[..3]) == 21 by { assert v[..3][..2] == v[..2]; }
    assert CostSum(v[..4]) == 25 by { assert v[..4][..3] == v[..3]; }
    assert CostSum(v[..5]) == 27 by { assert v[..5][..4] == v[..4]; }
    assert CostSum(v) == 27 by { assert v[..5] == v[..|v| - 1]; }
    var w := Values(Uniform(8));
    assert CostSum(w[..1]) == 0 by { assert w[..1][..0] == []; }
    assert CostSum(w[..2]) == 0 by { assert w[..2][..1] == w[..1]; }
    assert CostSum(w[..3]) == 0 by { assert w[..3][..2] == w[..2]; }
    assert CostSum(w[..4]) == 0 by { assert w[..4][..3] == w[..3]; }
    assert CostSum(w[..5]) == 0 by { assert w[..5][..4] == w[..4]; }
    assert CostSum(w) == 0 by { assert w[..5] == w[..|w| - 1]; }
  }

  /** `canCombineTraitWithRace`. */
  function CanCombineTraitWithRace(rules: AbilityRules, race: string, traitName: string): (r: bool)
    ensures r <==> Lookup(rules.traits, traitName).Some? &&
                   (Lookup(rules.traits, traitName).value.canCombineWith == CombineAll ||
                    (Lookup(rules.traits, traitName).value.canCombineWith.CombineList? &&
                     race in Lookup(rules.traits, traitName).value.canCombineWith.races))
  {
    match Lookup(rules.traits, traitName)
    case None => false
    case Some(traitData) =>
      match traitData.canCombineWith
      case CombineAll => true
      case CombineList(races) => race in races
      case CombineOther => false
  }
}
