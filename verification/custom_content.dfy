/**
 * `CustomContentManager`: the user's races, classes and feats, their validators, and the
 * create / update / delete / list operations over them.
 *
 * The content file is the field `content`: every operation reads it where the code loads
 * the file and writes it where the code saves the file.  A missing or unreadable file reads
 * as `EmptyContent`.  `Date.now()` is the parameter `now`.
 */
module CustomContentStore {
  import opened Wrappers
  import opened Text
  import opened Types

  /** What loading yields when there is no readable file. */
  const EmptyContent := CustomContent(Some(map[]), Some(map[]), Some(map[]))

  function Invalid(error: string): (v: Validation)
    ensures !v.valid && v.error == Some(error)
  {
    Validation(false, Some(error))
  }

  const Valid := Validation(true, None)

  /** `Object.values(bonus).reduce((a, b) => a + b, 0)`. */
  function BonusTotal(bonus: seq<(string, int)>): int {
    if bonus == [] then 0 else BonusTotal(bonus[..|bonus| - 1]) + bonus[|bonus| - 1].1
  }

  predicate InBonusRange(b: int) { -2 <= b <= 2 }

  /** The first entry from `i` on whose bonus lies outside [-2, +2]. */
  function FirstBadBonus(bonus: seq<(string, int)>, i: nat): (r: Option<nat>)
    requires i <= |bonus|
    ensures r.None? <==> forall j :: i <= j < |bonus| ==> InBonusRange(bonus[j].1)
    ensures r.Some? ==> i <= r.value < |bonus| && !InBonusRange(bonus[r.value].1)
    ensures r.Some? ==> forall j :: i <= j < r.value ==> InBonusRange(bonus[j].1)
    decreases |bonus| - i
  {
    if i == |bonus| then None
    else if !InBonusRange(bonus[i].1) then Some(i)
    else FirstBadBonus(bonus, i + 1)
  }

  predicate NameLengthOk(name: string) { 2 <= |name| <= 50 }

  /**
   * `validateRace`: the name, then the speed, then the total of the bonuses, then each bonus
   * in insertion order; the first rule broken is reported.
   */
  function ValidateRace(race: CustomRace): (v: Validation)
    ensures v.valid <==> NameLengthOk(race.name) && 20 <= race.speed <= 40 && BonusTotal(race.abilityBonus) <= 6
                         && forall j :: 0 <= j < |race.abilityBonus| ==> InBonusRange(race.abilityBonus[j].1)
    ensures v.error.Some? <==> !v.valid
    ensures !NameLengthOk(race.name) ==> v.error == Some("Race name must be 2-50 characters")
    ensures NameLengthOk(race.name) && !(20 <= race.speed <= 40) ==> v.error == Some("Speed must be 20-40 feet")
    ensures NameLengthOk(race.name) && 20 <= race.speed <= 40 && BonusTotal(race.abilityBonus) > 6 ==>
              v.error == Some("Total ability bonuses cannot exceed +6")
    ensures NameLengthOk(race.name) && 20 <= race.speed <= 40 && BonusTotal(race.abilityBonus) <= 6
            && FirstBadBonus(race.abilityBonus, 0).Some? ==>
              v.error == Some(race.abilityBonus[FirstBadBonus(race.abilityBonus, 0).value].0
                              + " bonus must be between -2 and +2")
  {
    if race.name == "" || |race.name| < 2 || |race.name| > 50 then Invalid("Race name must be 2-50 characters")
    else if race.speed < 20 || race.speed > 40 then Invalid("Speed must be 20-40 feet")
    else if BonusTotal(race.abilityBonus) > 6 then Invalid("Total ability bonuses cannot exceed +6")
    else match FirstBadBonus(race.abilityBonus, 0)
      case Some(j) => Invalid(race.abilityBonus[j].0 + " bonus must be between -2 and +2")
      case None => Valid
  }

  /** The total is checked before the single bonuses: one bonus of +7 reports the total. */
  lemma TotalReportedBeforeRange(race: CustomRace)
    requires NameLengthOk(race.name) && 20 <= race.speed <= 40
    requires race.abilityBonus == [("STR", 7)]
    ensures ValidateRace(race).error == Some("Total ability bonuses cannot exceed +6")
  {
    var b := race.abilityBonus;
    assert b[..|b| - 1] == [];
    assert BonusTotal(b) == 7;
  }

  /** `validateClass`: the name, then the hit die. */
  function ValidateClass(cls: CustomClass): (v: Validation)
    ensures v.valid <==> NameLengthOk(cls.name) && 6 <= cls.hitDice <= 12
    ensures v.error.Some? <==> !v.valid
    ensures !NameLengthOk(cls.name) ==> v.error == Some("Class name must be 2-50 characters")
    ensures NameLengthOk(cls.name) && !(6 <= cls.hitDice <= 12) ==> v.error == Some("Hit die must be between 6-12")
  {
    if cls.name == "" || |cls.name| < 2 || |cls.name| > 50 then Invalid("Class name must be 2-50 characters")
    else if cls.hitDice < 6 || cls.hitDice > 12 then Invalid("Hit die must be between 6-12")
    else Valid
  }

  /** `validateFeat`: the name, then a description of at least ten characters. */
  function ValidateFeat(feat: CustomFeat): (v: Validation)
    ensures v.valid <==> NameLengthOk(feat.name) && |feat.description| >= 10
    ensures v.error.Some? <==> !v.valid
    ensures !NameLengthOk(feat.name) ==> v.error == Some("Feat name must be 2-50 characters")
    ensures NameLengthOk(feat.name) && |feat.description| < 10 ==>
              v.error == Some("Description must be at least 10 characters")
  {
    if feat.name == "" || |feat.name| < 2 || |feat.name| > 50 then Invalid("Feat name must be 2-50 characters")
    else if feat.description == "" || |feat.description| < 10 then Invalid("Description must be at least 10 characters")
    else Valid
  }

  /** A `Partial<CustomRace>`: the properties an update body carries. */
  datatype RacePatch = RacePatch(
    id: Option<string>, name: Option<string>, description: Option<string>, size: Option<string>,
    speed: Option<int>, abilityBonus: Option<seq<(string, int)>>, features: Option<seq<string>>,
    source: Option<Source>)

  datatype ClassPatch = ClassPatch(
    id: Option<string>, name: Option<string>, description: Option<string>, hitDice: Option<int>,
    primaryAbility: Option<string>, customFeatures: Option<seq<ClassFeature>>, source: Option<Source>)

  datatype FeatPatch = FeatPatch(
    id: Option<string>, name: Option<string>, description: Option<string>,
    prerequisite: Option<string>, source: Option<Source>)

  /** `{ ...race, ...updates }`. */
  function PatchRace(r: CustomRace, p: RacePatch): CustomRace {
    CustomRace(p.id.GetOr(r.id), p.name.GetOr(r.name), p.description.GetOr(r.description),
      p.size.GetOr(r.size), p.speed.GetOr(r.speed), p.abilityBonus.GetOr(r.abilityBonus),
      p.features.GetOr(r.features), p.source.GetOr(r.source))
  }

  function PatchClass(c: CustomClass, p: ClassPatch): CustomClass {
    CustomClass(p.id.GetOr(c.id), p.name.GetOr(c.name), p.description.GetOr(c.description),
      p.hitDice.GetOr(c.hitDice), p.primaryAbility.GetOr(c.primaryAbility),
      p.customFeatures.GetOr(c.customFeatures), p.source.GetOr(c.source))
  }

  function PatchFeat(f: CustomFeat, p: FeatPatch): CustomFeat {
    CustomFeat(p.id.GetOr(f.id), p.name.GetOr(f.name), p.description.GetOr(f.description),
      p.prerequisite.GetOr(f.prerequisite), p.source.GetOr(f.source))
  }

  /** An empty update changes nothing. */
  lemma EmptyPatchesChangeNothing(r: CustomRace, c: CustomClass, f: CustomFeat)
    ensures PatchRace(r, RacePatch(None, None, None, None, None, None, None, None)) == r
    ensures PatchClass(c, ClassPatch(None, None, None, None, None, None, None)) == c
    ensures PatchFeat(f, FeatPatch(None, None, None, None, None)) == f
  {
  }

  /** The stored entries the code may edit or delete all pass their validator. */
  predicate CustomEntriesValid(content: CustomContent) {
    && (forall k :: k in content.races.GetOr(map[]) && content.races.GetOr(map[])[k].source == Custom ==>
          ValidateRace(content.races.GetOr(map[])[k]).valid)
    && (forall k :: k in content.classes.GetOr(map[]) && content.classes.GetOr(map[])[k].source == Custom ==>
          ValidateClass(content.classes.GetOr(map[])[k]).valid)
    && (forall k :: k in content.feats.GetOr(map[]) && content.feats.GetOr(map[])[k].source == Custom ==>
          ValidateFeat(content.feats.GetOr(map[])[k]).valid)
  }

  class CustomContentManager {
    /** What the content file holds. */
    var content: CustomContent

    constructor(stored: CustomContent)
      ensures content == stored
    {
      content := stored;
    }

    /** `getRaces`: the races section, `{}` when the file has none. */
    function GetRaces(): (races: map<string, CustomRace>)
      reads this
      ensures content.races.None? ==> races == map[]
      ensures content.races.Some? ==> races == content.races.value
    {
      content.races.GetOr(map[])
    }

    function GetClasses(): (classes: map<string, CustomClass>)
      reads this
      ensures content.classes.None? ==> classes == map[]
      ensures content.classes.Some? ==> classes == content.classes.value
    {
      content.classes.GetOr(map[])
    }

    function GetFeats(): (feats: map<string, CustomFeat>)
      reads this
      ensures content.feats.None? ==> feats == map[]
      ensures content.feats.Some? ==> feats == content.feats.value
    {
      content.feats.GetOr(map[])
    }

    /**
     * `createRace`: an invalid race is refused before anything is stored; a valid one gets a
     * fresh id and the custom source and is stored under its name, replacing any race there.
     */
    method CreateRace(race: CustomRace, now: nat) returns (r: Result<CustomRace>)
      modifies this
      ensures !ValidateRace(race).valid ==> r == Failure(ValidateRace(race).error.value) && content == old(content)
      ensures ValidateRace(race).valid ==>
                && r == Success(race.(id := "custom-race-" + NatToString(now), source := Custom))
                && content == old(content).(races := Some(old(GetRaces())[race.name := r.value]))
      ensures old(CustomEntriesValid(content)) ==> CustomEntriesValid(content)
    {
      var validation := ValidateRace(race);
      if !validation.valid {
        return Failure(validation.error.value);
      }
      var stored := race.(id := "custom-race-" + NatToString(now), source := Custom);
      content := content.(races := Some(GetRaces()[race.name := stored]));
      return Success(stored);
    }

    /**
     * `updateRace`: the race must exist and be custom, and the patched race must validate;
     * it is stored under the original name even when the patch renames it.  A failed update
     * stores nothing.
     */
    method UpdateRace(name: string, updates: RacePatch) returns (r: Result<CustomRace>)
      modifies this
      ensures name !in old(GetRaces()) ==> r == Failure("Race not found") && content == old(content)
      ensures name in old(GetRaces()) && old(GetRaces())[name].source != Custom ==>
                r == Failure("Cannot edit official races") && content == old(content)
      ensures name in old(GetRaces()) && old(GetRaces())[name].source == Custom ==>
                var updated := PatchRace(old(GetRaces())[name], updates);
                && (!ValidateRace(updated).valid ==> r == Failure(ValidateRace(updated).error.value) && content == old(content))
                && (ValidateRace(updated).valid ==>
                      r == Success(updated) && content == old(content).(races := Some(old(GetRaces())[name := updated])))
      ensures old(CustomEntriesValid(content)) ==> CustomEntriesValid(content)
    {
      var races := GetRaces();
      if name !in races {
        return Failure("Race not found");
      }
      if races[name].source != Custom {
        return Failure("Cannot edit official races");
      }
      var updated := PatchRace(races[name], updates);
      var validation := ValidateRace(updated);
      if !validation.valid {
        return Failure(validation.error.value);
      }
      content := content.(races := Some(races[name := updated]));
      return Success(updated);
    }

    /** `deleteRace`: only an existing custom race is removed, and nothing else changes. */
    method DeleteRace(name: string) returns (r: Result<()>)
      modifies this
      ensures name !in old(GetRaces()) ==> r == Failure("Race not found") && content == old(content)
      ensures name in old(GetRaces()) && old(GetRaces())[name].source != Custom ==>
                r == Failure("Cannot delete official races") && content == old(content)
      ensures name in old(GetRaces()) && old(GetRaces())[name].source == Custom ==>
                r.Success? && content == old(content).(races := Some(old(GetRaces()) - {name}))
      ensures old(CustomEntriesValid(content)) ==> CustomEntriesValid(content)
    {
      var races := GetRaces();
      if name !in races {
        return Failure("Race not found");
      }
      if races[name].source != Custom {
        return Failure("Cannot delete official races");
      }
      content := content.(races := Some(races - {name}));
      return Success(());
    }

    /** `createClass`: as `createRace`, with the class validator and a class id. */
    method CreateClass(cls: CustomClass, now: nat) returns (r: Result<CustomClass>)
      modifies this
      ensures !ValidateClass(cls).valid ==> r == Failure(ValidateClass(cls).error.value) && content == old(content)
      ensures ValidateClass(cls).valid ==>
                && r == Success(cls.(id := "custom-class-" + NatToString(now), source := Custom))
                && content == old(content).(classes := Some(old(GetClasses())[cls.name := r.value]))
      ensures old(CustomEntriesValid(content)) ==> CustomEntriesValid(content)
    {
      var validation := ValidateClass(cls);
      if !validation.valid {
        return Failure(validation.error.value);
      }
      var stored := cls.(id := "custom-class-" + NatToString(now), source := Custom);
      content := content.(classes := Some(GetClasses()[cls.name := stored]));
      return Success(stored);
    }

    method UpdateClass(name: string, updates: ClassPatch) returns (r: Result<CustomClass>)
      modifies this
      ensures name !in old(GetClasses()) ==> r == Failure("Class not found") && content == old(content)
      ensures name in old(GetClasses()) && old(GetClasses())[name].source != Custom ==>
                r == Failure("Cannot edit official classes") && content == old(content)
      ensures name in old(GetClasses()) && old(GetClasses())[name].source == Custom ==>
                var updated := PatchClass(old(GetClasses())[name], updates);
                && (!ValidateClass(updated).valid ==> r == Failure(ValidateClass(updated).error.value) && content == old(content))
                && (ValidateClass(updated).valid ==>
                      r == Success(updated) && content == old(content).(classes := Some(old(GetClasses())[name := updated])))
      ensures old(CustomEntriesValid(content)) ==> CustomEntriesValid(content)
    {
      var classes := GetClasses();
      if name !in classes {
        return Failure("Class not found");
      }
      if classes[name].source != Custom {
        return Failure("Cannot edit official classes");
      }
      var updated := PatchClass(classes[name], updates);
      var validation := ValidateClass(updated);
      if !validation.valid {
        return Failure(validation.error.value);
      }
      content := content.(classes := Some(classes[name := updated]));
      return Success(updated);
    }

    method DeleteClass(name: string) returns (r: Result<()>)
      modifies this
      ensures name !in old(GetClasses()) ==> r == Failure("Class not found") && content == old(content)
      ensures name in old(GetClasses()) && old(GetClasses())[name].source != Custom ==>
                r == Failure("Cannot delete official classes") && content == old(content)
      ensures name in old(GetClasses()) && old(GetClasses())[name].source == Custom ==>
                r.Success? && content == old(content).(classes := Some(old(GetClasses()) - {name}))
      ensures old(CustomEntriesValid(content)) ==> CustomEntriesValid(content)
    {
      var classes := GetClasses();
      if name !in classes {
        return Failure("Class not found");
      }
      if classes[name].source != Custom {
        return Failure("Cannot delete official classes");
      }
      content := content.(classes := Some(classes - {name}));
      return Success(());
    }

    /** `createFeat`: as `createRace`, with the feat validator and a feat id. */
    method CreateFeat(feat: CustomFeat, now: nat) returns (r: Result<CustomFeat>)
      modifies this
      ensures !ValidateFeat(feat).valid ==> r == Failure(ValidateFeat(feat).error.value) && content == old(content)
      ensures ValidateFeat(feat).valid ==>
                && r == Success(feat.(id := "custom-feat-" + NatToString(now), source := Custom))
                && content == old(content).(feats := Some(old(GetFeats())[feat.name := r.value]))
      ensures old(CustomEntriesValid(content)) ==> CustomEntriesValid(content)
    {
      var validation := ValidateFeat(feat);
      if !validation.valid {
        return Failure(validation.error.value);
      }
      var stored := feat.(id := "custom-feat-" + NatToString(now), source := Custom);
      content := content.(feats := Some(GetFeats()[feat.name := stored]));
      return Success(stored);
    }

    method UpdateFeat(name: string, updates: FeatPatch) returns (r: Result<CustomFeat>)
      modifies this
      ensures name !in old(GetFeats()) ==> r == Failure("Feat not found") && content == old(content)
      ensures name in old(GetFeats()) && old(GetFeats())[name].source != Custom ==>
                r == Failure("Cannot edit official feats") && content == old(content)
      ensures name in old(GetFeats()) && old(GetFeats())[name].source == Custom ==>
                var updated := PatchFeat(old(GetFeats())[name], updates);
                && (!ValidateFeat(updated).valid ==> r == Failure(ValidateFeat(updated).error.value) && content == old(content))
                && (ValidateFeat(updated).valid ==>
                      r == Success(updated) && content == old(content).(feats := Some(old(GetFeats())[name := updated])))
      ensures old(CustomEntriesValid(content)) ==> CustomEntriesValid(content)
    {
      var feats := GetFeats();
      if name !in feats {
        return Failure("Feat not found");
      }
      if feats[name].source != Custom {
        return Failure("Cannot edit official feats");
      }
      var updated := PatchFeat(feats[name], updates);
      var validation := ValidateFeat(updated);
      if !validation.valid {
        return Failure(validation.error.value);
      }
      content := content.(feats := Some(feats[name := updated]));
      return Success(updated);
    }

    method DeleteFeat(name: string) returns (r: Result<()>)
      modifies this
      ensures name !in old(GetFeats()) ==> r == Failure("Feat not found") && content == old(content)
      ensures name in old(GetFeats()) && old(GetFeats())[name].source != Custom ==>
                r == Failure("Cannot delete official feats") && content == old(content)
      ensures name in old(GetFeats()) && old(GetFeats())[name].source == Custom ==>
                r.Success? && content == old(content).(feats := Some(old(GetFeats()) - {name}))
      ensures old(CustomEntriesValid(content)) ==> CustomEntriesValid(content)
    {
      var feats := GetFeats();
      if name !in feats {
        return Failure("Feat not found");
      }
      if feats[name].source != Custom {
        return Failure("Cannot delete official feats");
      }
      content := content.(feats := Some(feats - {name}));
      return Success(());
    }
  }
}
