/**
 * The derived game snapshot, the per-ship state inside it, and the closed
 * union of game steps the snapshot is derived from.
 */
module GameStateDto {
  import opened Wrappers
  import opened Enums
  import Seqs

  datatype Obstacle = Obstacle(obstacleId: string, isDestroyed: bool)

  datatype UpgradeState = UpgradeState(upgradeId: string, faceUp: bool)

  /** A face-up damage card; face-down damage is only counted, in `Ship.faceDownDamage`. */
  datatype Crit = Crit(critCardId: string, faceUp: bool)

  datatype Collision = Collision(collisionType: CollisionType, shipId: string, landedOnObstacle: bool)

  /** A token is recorded on the ship that assigned it, with an optional back-reference to a target ship. */
  datatype Token = Token(
    tokenType: TokenType,
    conditionId: Option<string>,
    reinforceDirection: Option<ReinforceDirection>,
    sourceShipId: Option<string>,
    targetShipId: Option<string>)

  /** A usable weapon; `ammo` is `None` for weapons without charges. */
  datatype Weapon = Weapon(
    weaponId: string,
    weaponType: string,
    attack: Option<int>,
    minRange: Option<int>,
    maxRange: Option<int>,
    ammo: Option<int>,
    isDestroyed: bool)

  /**
   * One ship of the match. `hull` and `shields` are single fields: the
   * "maximum" and the current value are not tracked separately.
   */
  datatype Ship = Ship(
    playerId: string,
    shipId: string,
    pilotId: Option<string>,
    pilotSkill: int,
    hull: int,
    shields: int,
    attack: int,
    agility: int,
    maneuvers: seq<Maneuver>,
    tokens: seq<Token>,
    faceUpDamage: seq<Crit>,
    faceDownDamage: int,
    weapons: seq<Weapon>,
    upgrades: seq<UpgradeState>,
    isPlaced: bool,
    isDestroyed: bool,
    didBump: bool,
    dialAssigned: Option<Maneuver>,
    isHalfPointsScored: bool,
    hasActivated: bool,
    collisions: seq<Collision>,
    attackTargetShipId: Option<string>,
    hasAttacked: bool)

  /** The snapshot the reducer folds the step log into. */
  datatype State = State(
    currentStep: nat,
    ships: seq<Ship>,
    playerWithInitiative: Option<string>,
    bombIds: seq<string>,
    mineIds: seq<string>,
    obstacles: seq<Obstacle>,
    player1Points: int,
    player2Points: int,
    totalTurns: int,
    currentPhase: Phase,
    uiScreen: Page,
    currentActivatingShipId: Option<string>,
    currentAttackingShipId: Option<string>,
    currentDefendingShipId: Option<string>)

  /**
   * One logged game step. The token, damage and crit steps, which any phase
   * can log, come first; then the setup, turn, activation and combat steps.
   * The constructors up to `GameEnd` are the variants of the step union; the
   * ones after it are tags the dispatcher routes although the union does not
   * declare them. Timestamps are not modelled.
   */
  datatype Step =
    | AssignToken(
        sourceShipId: string,
        tokenType: TokenType,
        conditionId: Option<string>,
        reinforceDirection: Option<ReinforceDirection>,
        targetShipId: Option<string>)
    | SpendToken(shipId: string, tokenType: TokenType)
    | ApplyDamage(shipId: string, hitsApplied: int, critsApplied: int, hullRemaining: int, shieldsRemaining: int)
    | AssignCrit(shipId: string, critCardId: string)
    | FlipUpgrade(shipId: string, upgradeId: string, faceUp: bool)
    | SpendAmmo(shipId: string, weaponId: string, ammoRemaining: int)
    | ShipHalfHealth(shipId: string)
    | DestroyShip(shipId: string, destroyedByShipId: string)
    | FlipCrit(shipId: string, critCardId: string, faceUp: bool)
    | GameStart
    | IncreaseMaxHull(shipId: string)
    | IncreaseMaxShields(shipId: string)
    | BeginSelectInitiative
    | InitiativeSelected(playerWithInitiative: string)
    | StartSetup
    | PlaceObstacle(obstacleId: string)
    | ShipPlaced(shipId: string)
    | EndSetup
    | TurnStart
    | Planning
    | PlanningComplete(dials: map<string, Maneuver>)
    | ActivationStep(shipId: string)
    | BeginManeuver(shipId: string)
    | CleanManeuver(shipId: string)
    | Collide(shipId: string, collisionType: CollisionType, landedOnObstacle: bool)
    | StressCheck(shipId: string)
    | PerformAction(shipId: string, action: ActionType, targetShipId: Option<string>)
    | ActionSkipped(shipId: string)
    | SelectActionAgain(shipId: string)
    | DoneWithActions(shipId: string)
    | DetonateBomb(bombId: string, affectedShipIds: seq<string>)
    | DestroyObstacle(obstacleId: string)
    | TriggerAbility(shipId: string, abilityId: string)
    | CombatStep(pilotSkill: int)
    | BeginSelectTarget
    | DeclareTarget(attackerShipId: string, defenderShipId: string, weaponId: string, baseAttackDice: int, baseDefenseDice: int)
    | RollAttackDice(results: seq<DiceResult>)
    | ModifyAttackDice(attackerShipId: string, beforeResults: seq<DiceResult>, afterResults: seq<DiceResult>)
    | RollDefenseDice(defenderShipId: string, results: seq<DiceResult>)
    | ModifyDefenseDice(defenderShipId: string, beforeResults: seq<DiceResult>, afterResults: seq<DiceResult>)
    | CompleteAttack(attackerShipId: string)
    | Cleanup
    | TurnEnd
    | GameEnd(winnerId: Option<string>, player1Points: int, player2Points: int, totalTurns: int)
    | DeclareAttackers
    | SelectAttacker
    | SelectWeapon
    | SkipAttack
    | RemoveCrit(shipId: string, critCardId: string)
    | RemoveFacedownDamage(shipId: string, hullRemaining: int)
    | FlipCritFacedown(shipId: string, critCardId: string)
    | UpdatePilotSkill(shipId: string, newPilotSkill: int)
    | DecreaseShields(shipId: string)
  {
    /** Tags the dispatcher routes to handlers whose bodies are not part of this model. */
    predicate Unshown() {
      || PlanningComplete? || ActionSkipped? || SelectActionAgain? || DoneWithActions?
      || DeclareAttackers? || SelectAttacker? || SelectWeapon? || SkipAttack?
      || RemoveCrit? || RemoveFacedownDamage? || FlipCritFacedown?
      || UpdatePilotSkill? || DecreaseShields?
    }

    /** The token, damage and crit steps any phase can log. */
    predicate AnyPhase() {
      || AssignToken? || SpendToken? || ApplyDamage? || AssignCrit? || FlipUpgrade?
      || SpendAmmo? || ShipHalfHealth? || DestroyShip? || FlipCrit?
    }

    /** Union variants the dispatcher has no case for: they fall through the switch. */
    predicate Unrouted() {
      BeginSelectTarget? || FlipUpgrade?
    }
  }

  /** The step counter moves on by one and nothing else changes: the whole effect of the bookkeeping-only handlers. */
  function Advance(s: State): State {
    s.(currentStep := s.currentStep + 1)
  }

  // ---- ships looked up by id: the first ship whose `shipId` matches ----

  function HasId(id: string): Ship -> bool {
    (sh: Ship) => sh.shipId == id
  }

  /** `k` is the index of the ship a `find` by `id` returns. */
  ghost predicate FirstShip(ships: seq<Ship>, id: string, k: int) {
    Seqs.IsFirst(ships, HasId(id), k)
  }

  /** No ship has `id`: the lookup misses. */
  ghost predicate NoShip(ships: seq<Ship>, id: string) {
    Seqs.NoMatch(ships, HasId(id))
  }

  /** Apply `f` to the first ship with `id`; a miss leaves the list unchanged. */
  function EditShip(ships: seq<Ship>, id: string, f: Ship -> Ship): (r: seq<Ship>)
    ensures |r| == |ships|
    ensures NoShip(ships, id) ==> r == ships
    ensures forall k :: FirstShip(ships, id, k) ==> r == ships[k := f(ships[k])]
  {
    Seqs.UpdateFirst(ships, HasId(id), f)
  }

  /** A lookup by id either misses or finds a first match. */
  lemma ShipLookupCases(ships: seq<Ship>, id: string)
    ensures NoShip(ships, id) || exists k :: FirstShip(ships, id, k)
  {
    match Seqs.FindIndex(ships, HasId(id))
    case None =>
    case Some(k) => assert FirstShip(ships, id, k);
  }

  /** Replacing the first ship with `id` by another ship with the same id keeps it the first. */
  lemma FirstShipKept(ships: seq<Ship>, id: string, k: int, x: Ship)
    requires FirstShip(ships, id, k) && x.shipId == id
    ensures FirstShip(ships[k := x], id, k)
  {
  }

  /** The ship a `find` by `id` returns. */
  function FindShip(ships: seq<Ship>, id: string): (r: Option<Ship>)
    ensures r.None? <==> NoShip(ships, id)
    ensures r.Some? ==> exists k :: FirstShip(ships, id, k) && r.value == ships[k]
  {
    Seqs.Find(ships, HasId(id))
  }

  /** The lookup returns the ship at the first index with the id. */
  lemma FindShipAt(ships: seq<Ship>, id: string, k: int)
    requires FirstShip(ships, id, k)
    ensures FindShip(ships, id) == Some(ships[k])
  {
    var r := FindShip(ships, id);
    var k' :| FirstShip(ships, id, k') && r.value == ships[k'];
    Seqs.FirstIsUnique(ships, HasId(id), k, k');
  }

  /** The ids and owners of the ships, in order: what no handler except game start may change. */
  function Roster(ships: seq<Ship>): seq<(string, string)> {
    seq(|ships|, i requires 0 <= i < |ships| => (ships[i].shipId, ships[i].playerId))
  }
}
