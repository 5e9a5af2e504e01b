/**
 * `GameManager`: the sessions of the simple turn loop, each with its character, world,
 * turn counter and action log.
 *
 * A session is a value here: `processAction` replaces the stored session by the updated
 * one, where the code mutates the object the map (and any caller holding it) refers to.
 */
module Game {
  import opened Wrappers
  import opened Text
  import opened Tables
  import opened Types
  import opened Calculations
  import opened Rules

  datatype ActionKind = Attack | Spell | Dodge | Disengage | Hide | Help | CustomAction

  /** A `GameAction`; only its type steers `processAction`, the rest is logged as given. */
  datatype GameAction = GameAction(kind: ActionKind, description: string)

  /** A `Session`; `combatState` is always `null` here, and the start time is not modelled. */
  datatype Session = Session(
    id: string, character: Character, world: World, turn: int, combatActive: bool,
    combatState: Option<string>, narrative: string, actions: seq<GameAction>)

  /** `{ success, text?, isCrit? }`. */
  datatype ActionResult = ActionResult(success: bool, text: Option<string>, isCrit: Option<bool>)

  /** The opening narratives by world name, in insertion order. */
  const Narratives: seq<(string, string)> := [
    ("Great Fantasy", "You awaken in a grand hall, sunlight streaming through tall windows. Adventure awaits..."),
    ("Dark Fantasy", "Darkness surrounds you. The air is cold and oppressive. Danger lurks in every shadow..."),
    ("Sci-Fi", "The hum of machinery fills your ears. Glowing panels line the walls.")
  ]

  const DefaultNarrative := "Your adventure begins..."

  /** `generateInitialNarrative`: the world's own opening, or the generic one. */
  function InitialNarrative(world: World): (n: string)
    ensures n == DefaultNarrative <==> forall i :: 0 <= i < |Narratives| ==> Narratives[i].0 != world.name
    ensures forall i :: 0 <= i < |Narratives| && Narratives[i].0 == world.name ==> n == Narratives[i].1
  {
    Lookup(Narratives, world.name).GetOr(DefaultNarrative)
  }

  /** The text of an attack: the critical line, or the roll. */
  function AttackText(roll: AttackRoll): string {
    if roll.isCrit then "Critical hit! " else "Attack roll: " + IntToString(roll.roll) + " + modifiers"
  }

  class GameManager {
    var sessions: map<string, Session>
    const rulesEngine: RulesEngine

    constructor(rulesEngine: RulesEngine)
      ensures sessions == map[] && this.rulesEngine == rulesEngine
    {
      sessions := map[];
      this.rulesEngine := rulesEngine;
    }

    /**
     * `createSession`: a session at turn 0, out of combat, with no actions and the world's
     * opening narrative, stored under its id (replacing any session there).
     */
    method CreateSession(sessionId: string, character: Character, world: World) returns (session: Session)
      modifies this
      ensures session.id == sessionId && session.character == character && session.world == world
      ensures session.turn == 0 && !session.combatActive && session.combatState.None?
      ensures session.narrative == InitialNarrative(world) && session.actions == []
      ensures sessions == old(sessions)[sessionId := session]
    {
      session := Session(sessionId, character, world, 0, false, None, InitialNarrative(world), []);
      sessions := sessions[sessionId := session];
    }

    /** `getSession`: null for an unknown id. */
    function GetSession(sessionId: string): (r: Option<Session>)
      reads this
      ensures r.None? <==> sessionId !in sessions
      ensures r.Some? ==> r.value == sessions[sessionId]
    {
      if sessionId in sessions then Some(sessions[sessionId]) else None
    }

    /**
     * `processAction`, with `u` the draw behind the attack roll.  An unknown session is an
     * error and changes nothing; otherwise the action is logged and the turn advances,
     * whatever its type, and no other session changes.  An attack rolls with the STR modifier
     * plus 2 and reports the roll or a critical hit; a dodge has a fixed text.
     */
    method ProcessAction(sessionId: string, action: GameAction, u: real) returns (r: Result<ActionResult>)
      requires 0.0 <= u < 1.0
      modifies this
      ensures sessionId !in old(sessions) ==> r == Failure("Session not found") && sessions == old(sessions)
      ensures sessionId in old(sessions) ==>
                var s := old(sessions)[sessionId];
                && sessions == old(sessions)[sessionId := s.(actions := s.actions + [action], turn := s.turn + 1)]
                && r.Success? && r.value.success
                && (action.kind == Attack ==>
                      var roll := RulesEngine.RollAttack(Modifier(s.character.abilities.strength) + 2, u);
                      r.value.text == Some(AttackText(roll)) && r.value.isCrit == Some(roll.roll == 20))
                && (action.kind == Dodge ==> r.value == ActionResult(true, Some("You take the Dodge action"), None))
                && (action.kind != Attack && action.kind != Dodge ==> r.value == ActionResult(true, None, None))
    {
      var found := GetSession(sessionId);
      if found.None? {
        return Failure("Session not found");
      }
      var session := found.value;
      var result := ActionResult(true, None, None);
      if action.kind == Attack {
        var abilityMod := Modifier(session.character.abilities.strength);
        var roll := RulesEngine.RollAttack(abilityMod + 2, u);
        result := result.(text := Some(AttackText(roll)), isCrit := Some(roll.isCrit));
      } else if action.kind == Dodge {
        result := result.(text := Some("You take the Dodge action"));
      }
      session := session.(actions := session.actions + [action]);
      session := session.(turn := session.turn + 1);
      sessions := sessions[sessionId := session];
      return Success(result);
    }
  }

  /** After an action, the log ends in it and every earlier entry is kept. */
  lemma ActionLogGrows(s: Session, action: GameAction)
    ensures var t := s.(actions := s.actions + [action], turn := s.turn + 1);
            |t.actions| == |s.actions| + 1 && t.actions[..|s.actions|] == s.actions
            && t.actions[|s.actions|] == action && t.turn - |t.actions| == s.turn - |s.actions|
  {
  }

  /** A critical hit is reported without the roll; any other roll is printed in the text. */
  lemma AttackTextShowsRoll(attackBonus: int, u: real)
    requires 0.0 <= u < 1.0
    ensures var roll := RulesEngine.RollAttack(attackBonus, u);
            roll.roll == 20 <==> AttackText(roll) == "Critical hit! "
  {
    var roll := RulesEngine.RollAttack(attackBonus, u);
    if roll.roll != 20 {
      var t := AttackText(roll);
      assert t[0] == 'A';
    }
  }
}
