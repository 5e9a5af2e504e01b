/**
 * `frontend/lib/gameState.ts`: the client's keyword classifier for player actions and its
 * context-dependent action suggestions.  The file's list of base actions ends in a string
 * literal that is never closed; the model takes it to be the five words the list evidently
 * holds.
 */
module GameState {
  import opened Wrappers
  import opened Text

  datatype Category = Combat | Social | Exploration | Magic | Custom

  /** The keyword pairs `categorizeAction` tests, in the order it tests them. */
  const CategoryRules: seq<(string, string, Category)> := [
    ("ата", "ору", Combat),
    ("гов", "убе", Social),
    ("осм", "иссл", Exploration),
    ("закл", "маг", Magic)
  ]

  /** The category of the first rule from `i` on with a keyword in `text`; `custom` after the last. */
  function FirstRule(text: string, i: nat): (c: Category)
    requires i <= |CategoryRules|
    ensures c == Custom <==> forall j :: i <= j < |CategoryRules| ==>
              !Contains(text, CategoryRules[j].0) && !Contains(text, CategoryRules[j].1)
    decreases |CategoryRules| - i
  {
    if i == |CategoryRules| then Custom
    else if Contains(text, CategoryRules[i].0) || Contains(text, CategoryRules[i].1) then CategoryRules[i].2
    else FirstRule(text, i + 1)
  }

  /** `categorizeAction`: an if-chain over the lower-cased action. */
  function CategorizeAction(action: string): (c: Category)
    ensures c == FirstRule(ToLower(action), 0)
  {
    var lower := ToLower(action);
    if Contains(lower, "ата") || Contains(lower, "ору") then Combat
    else if Contains(lower, "гов") || Contains(lower, "убе") then Social
    else if Contains(lower, "осм") || Contains(lower, "иссл") then Exploration
    else if Contains(lower, "закл") || Contains(lower, "маг") then Magic
    else Custom
  }

  /** Combat keywords win over every other: "атаковать и говорить" is combat. */
  lemma CombatTakesPrecedence(action: string)
    requires Contains(ToLower(action), "ата")
    ensures CategorizeAction(action) == Combat
  {
  }

  /** An action with no keyword at all is `custom`. */
  lemma NoKeywordIsCustom(action: string)
    requires forall j :: 0 <= j < |CategoryRules| ==>
      !Contains(ToLower(action), CategoryRules[j].0) && !Contains(ToLower(action), CategoryRules[j].1)
    ensures CategorizeAction(action) == Custom
  {
  }

  const BaseActions: seq<string> := ["Атаковать", "Уклониться", "Осмотреть", "Поговорить", "Пютнять"]

  /** The context keywords and their fixed action lists, in insertion order. */
  const ContextActions: seq<(string, seq<string>)> := [
    ("бой", ["Атаковать", "Отступить", "Парировать"]),
    ("отворот", ["Открыть", "Повалить", "Осмотреть"]),
    ("стана", ["Осмотреть", "Взать", "Уйти"]),
    ("нпс", ["Поговорить", "Прыжнуть", "Угрожать"])
  ]

  /** The first table entry from `i` on whose keyword the text contains. */
  function FirstContext(text: string, i: nat): (r: Option<nat>)
    requires i <= |ContextActions|
    ensures r.Some? ==> i <= r.value < |ContextActions| && Contains(text, ContextActions[r.value].0)
    ensures r.Some? ==> forall j :: i <= j < r.value ==> !Contains(text, ContextActions[j].0)
    ensures r.None? ==> forall j :: i <= j < |ContextActions| ==> !Contains(text, ContextActions[j].0)
    decreases |ContextActions| - i
  {
    if i == |ContextActions| then None
    else if Contains(text, ContextActions[i].0) then Some(i)
    else FirstContext(text, i + 1)
  }

  /** `order` is a rearrangement of the indices of the base list. */
  predicate IsShuffle(order: seq<nat>) {
    |order| == |BaseActions| &&
    (forall i :: 0 <= i < |order| ==> order[i] < |BaseActions|) &&
    (forall i, j :: 0 <= i < j < |order| ==> order[i] != order[j])
  }

  predicate Distinct(s: seq<string>) {
    forall i, j :: 0 <= i < j < |s| ==> s[i] != s[j]
  }

  /**
   * `generateDynamicActions`: the action list of the first keyword the lower-cased context
   * contains, or else four actions of the base list after a random reordering, which is
   * given here as `order`.
   */
  method GenerateDynamicActions(context: string, order: seq<nat>) returns (actions: seq<string>)
    requires IsShuffle(order)
    ensures FirstContext(ToLower(context), 0).Some? ==>
              actions == ContextActions[FirstContext(ToLower(context), 0).value].1
    ensures FirstContext(ToLower(context), 0).None? ==>
              |actions| == 4 && Distinct(actions) &&
              forall a :: a in actions ==> a in BaseActions
  {
    var contextLower := ToLower(context);
    var i := 0;
    while i < |ContextActions|
      invariant 0 <= i <= |ContextActions|
      invariant forall j :: 0 <= j < i ==> !Contains(contextLower, ContextActions[j].0)
    {
      if Contains(contextLower, ContextActions[i].0) {
        return ContextActions[i].1;
      }
      i := i + 1;
    }
    var shuffled := seq(|order|, k requires 0 <= k < |order| => BaseActions[order[k]]);
    actions := shuffled[..4];
    forall p, q | 0 <= p < q < |actions| ensures actions[p] != actions[q] {
      assert order[p] != order[q];
    }
  }
}
