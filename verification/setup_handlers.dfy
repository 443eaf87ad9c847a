/** Handlers of the setup steps: game start, stat changes, initiative, obstacle and ship placement. */
module SetupHandlers {
  import opened Wrappers
  import opened Enums
  import opened Cards
  import opened SquadDto
  import opened GameStateDto
  import WeaponFactory
  import Seqs

  // ---- game start ----

  /** The flags, tokens, damage and per-round fields of a ship that has not done anything yet. */
  ghost predicate Pristine(sh: Ship) {
    && sh.tokens == []
    && sh.faceUpDamage == []
    && sh.faceDownDamage == 0
    && !sh.isPlaced && !sh.isDestroyed && !sh.didBump && !sh.isHalfPointsScored
    && !sh.hasActivated && !sh.hasAttacked
    && sh.dialAssigned.None? && sh.attackTargetShipId.None?
    && sh.collisions == []
  }

  /** One face-up upgrade entry per equipped upgrade id, in order. */
  ghost predicate UpgradesFaceUp(sh: Ship, ids: seq<string>) {
    && |sh.upgrades| == |ids|
    && forall i :: 0 <= i < |ids| ==> sh.upgrades[i] == UpgradeState(ids[i], true)
  }

  /** The ship's stats are the pilot card's, or all 0 with no maneuvers when the pilot is unknown. */
  ghost predicate StatsFrom(sh: Ship, pilot: Option<Pilot>) {
    match pilot
    case Some(p) =>
      && sh.hull == p.hull && sh.shields == p.shields && sh.pilotSkill == p.pilotSkill
      && sh.attack == p.attack && sh.agility == p.agility && sh.maneuvers == p.maneuvers
    case None =>
      && sh.hull == 0 && sh.shields == 0 && sh.pilotSkill == 0
      && sh.attack == 0 && sh.agility == 0 && sh.maneuvers == []
  }

  /** The state game start gives one roster ship of the player `userId`. */
  function NewShip(userId: string, ship: RosterShip, cat: Catalog): Ship {
    var pilot := IndexedPilot(cat.pilots, ship.pilotId);
    Ship(
      playerId := userId,
      shipId := ship.id,
      pilotId := Some(ship.pilotId),
      pilotSkill := if pilot.Some? then pilot.value.pilotSkill else 0,
      hull := if pilot.Some? then pilot.value.hull else 0,
      shields := if pilot.Some? then pilot.value.shields else 0,
      attack := if pilot.Some? then pilot.value.attack else 0,
      agility := if pilot.Some? then pilot.value.agility else 0,
      maneuvers := if pilot.Some? then pilot.value.maneuvers else [],
      tokens := [],
      faceUpDamage := [],
      faceDownDamage := 0,
      weapons := WeaponFactory.CreateWeapons(ship, cat),
      upgrades := seq(|ship.upgradeIds|, i requires 0 <= i < |ship.upgradeIds| => UpgradeState(ship.upgradeIds[i], true)),
      isPlaced := false,
      isDestroyed := false,
      didBump := false,
      dialAssigned := None,
      isHalfPointsScored := false,
      hasActivated := false,
      collisions := [],
      attackTargetShipId := None,
      hasAttacked := false)
  }

  /** A new ship carries its roster identity, the pilot card's stats, face-up upgrades and no history. */
  lemma NewShipShape(userId: string, ship: RosterShip, cat: Catalog)
    ensures var r := NewShip(userId, ship, cat);
            && r.shipId == ship.id && r.playerId == userId && r.pilotId == Some(ship.pilotId)
            && StatsFrom(r, IndexedPilot(cat.pilots, ship.pilotId))
            && Pristine(r)
            && UpgradesFaceUp(r, ship.upgradeIds)
            && r.weapons == WeaponFactory.CreateWeapons(ship, cat)
  {
  }

  /** The ships of one squad, in roster order. */
  function SquadShips(squad: Squad, cat: Catalog): (r: seq<Ship>)
    ensures |r| == |squad.ships|
    ensures forall j :: 0 <= j < |squad.ships| ==> r[j] == NewShip(squad.userId, squad.ships[j], cat)
  {
    seq(|squad.ships|, j requires 0 <= j < |squad.ships| => NewShip(squad.userId, squad.ships[j], cat))
  }

  /** The ships of every squad, one sequence per squad. */
  function Fleets(squads: seq<Squad>, cat: Catalog): (r: seq<seq<Ship>>)
    ensures |r| == |squads|
    ensures forall i :: 0 <= i < |squads| ==> r[i] == SquadShips(squads[i], cat)
  {
    seq(|squads|, i requires 0 <= i < |squads| => SquadShips(squads[i], cat))
  }

  /** The ships of all squads: squad order, then roster order within a squad. */
  function AllShips(squads: seq<Squad>, cat: Catalog): seq<Ship> {
    Seqs.Concat(Fleets(squads, cat))
  }

  /** Number of roster ships in the first `n` squads. */
  function Offset(squads: seq<Squad>, n: nat): nat
    requires n <= |squads|
  {
    if n == 0 then 0 else Offset(squads, n - 1) + |squads[n - 1].ships|
  }

  lemma {:induction false} OffsetIsStart(squads: seq<Squad>, cat: Catalog, n: nat)
    requires n <= |squads|
    ensures Offset(squads, n) == Seqs.Start(Fleets(squads, cat), n)
  {
    if n > 0 {
      OffsetIsStart(squads, cat, n - 1);
    }
  }

  /** `game_start`: rebuild the ship list from the roster and reset the match-level fields. */
  function HandleGameStart(s: State, squads: seq<Squad>, cat: Catalog): (r: State)
    ensures r.currentStep == s.currentStep + 1
    ensures r.currentPhase == StartPhase && r.uiScreen == GameStartPage
    ensures r.player1Points == 0 && r.player2Points == 0 && r.totalTurns == 0
    ensures r.bombIds == [] && r.mineIds == [] && r.obstacles == []
    ensures r.playerWithInitiative.None?
    ensures r.currentActivatingShipId == s.currentActivatingShipId
    ensures r.currentAttackingShipId == s.currentAttackingShipId
    ensures r.currentDefendingShipId == s.currentDefendingShipId
  {
    s.(
      currentStep := s.currentStep + 1,
      currentPhase := StartPhase,
      uiScreen := GameStartPage,
      player1Points := 0,
      player2Points := 0,
      bombIds := [],
      mineIds := [],
      obstacles := [],
      ships := AllShips(squads, cat),
      playerWithInitiative := None,
      totalTurns := 0)
  }

  /** After game start there are as many ships as roster entries over all squads. */
  lemma GameStartShipCount(s: State, squads: seq<Squad>, cat: Catalog)
    ensures |HandleGameStart(s, squads, cat).ships| == Offset(squads, |squads|)
  {
    Seqs.ConcatLength(Fleets(squads, cat));
    OffsetIsStart(squads, cat, |squads|);
  }

  /**
   * After game start, ship `j` of squad `i` sits at position `Offset(squads, i) + j`,
   * owned by that squad's user, built from its roster entry and with nothing done yet.
   */
  lemma GameStartShipAt(s: State, squads: seq<Squad>, cat: Catalog, i: nat, j: nat)
    requires i < |squads| && j < |squads[i].ships|
    ensures var r := HandleGameStart(s, squads, cat);
            && Offset(squads, i) + j < |r.ships|
            && var sh := r.ships[Offset(squads, i) + j];
               && sh.shipId == squads[i].ships[j].id
               && sh.playerId == squads[i].userId
               && sh.pilotId == Some(squads[i].ships[j].pilotId)
               && StatsFrom(sh, IndexedPilot(cat.pilots, squads[i].ships[j].pilotId))
               && Pristine(sh)
               && UpgradesFaceUp(sh, squads[i].ships[j].upgradeIds)
               && sh.weapons == WeaponFactory.CreateWeapons(squads[i].ships[j], cat)
  {
    Seqs.ConcatAt(Fleets(squads, cat), i, j);
    OffsetIsStart(squads, cat, i);
    NewShipShape(squads[i].userId, squads[i].ships[j], cat);
  }

  // ---- stat changes: the first ship with the id changes, a miss only advances the counter ----

  function HandleIncreaseMaxHull(s: State, shipId: string): (r: State)
    ensures r == s.(currentStep := s.currentStep + 1, ships := r.ships)
    ensures NoShip(s.ships, shipId) ==> r.ships == s.ships
    ensures forall k | FirstShip(s.ships, shipId, k) :: r.ships == s.ships[k := s.ships[k].(hull := s.ships[k].hull + 1)]
  {
    Advance(s).(ships := EditShip(s.ships, shipId, (sh: Ship) => sh.(hull := sh.hull + 1)))
  }

  function HandleIncreaseMaxShields(s: State, shipId: string): (r: State)
    ensures r == s.(currentStep := s.currentStep + 1, ships := r.ships)
    ensures NoShip(s.ships, shipId) ==> r.ships == s.ships
    ensures forall k | FirstShip(s.ships, shipId, k) :: r.ships == s.ships[k := s.ships[k].(shields := s.ships[k].shields + 1)]
  {
    Advance(s).(ships := EditShip(s.ships, shipId, (sh: Ship) => sh.(shields := sh.shields + 1)))
  }

  function HandleDecreaseMaxHull(s: State, shipId: string): (r: State)
    ensures r == s.(currentStep := s.currentStep + 1, ships := r.ships)
    ensures NoShip(s.ships, shipId) ==> r.ships == s.ships
    ensures |r.ships| == |s.ships|
    ensures forall k | FirstShip(s.ships, shipId, k) ::
              && r.ships == s.ships[k := s.ships[k].(hull := r.ships[k].hull)]
              && r.ships[k].hull >= 0
              && (s.ships[k].hull > 0 ==> r.ships[k].hull == s.ships[k].hull - 1)
              && (s.ships[k].hull <= 0 ==> r.ships[k].hull == 0)
  {
    Advance(s).(ships := EditShip(s.ships, shipId, (sh: Ship) => sh.(hull := if sh.hull - 1 > 0 then sh.hull - 1 else 0)))
  }

  function HandleDecreaseMaxShields(s: State, shipId: string): (r: State)
    ensures r == s.(currentStep := s.currentStep + 1, ships := r.ships)
    ensures NoShip(s.ships, shipId) ==> r.ships == s.ships
    ensures |r.ships| == |s.ships|
    ensures forall k | FirstShip(s.ships, shipId, k) ::
              && r.ships == s.ships[k := s.ships[k].(shields := r.ships[k].shields)]
              && r.ships[k].shields >= 0
              && (s.ships[k].shields > 0 ==> r.ships[k].shields == s.ships[k].shields - 1)
              && (s.ships[k].shields <= 0 ==> r.ships[k].shields == 0)
  {
    Advance(s).(ships := EditShip(s.ships, shipId, (sh: Ship) => sh.(shields := if sh.shields - 1 > 0 then sh.shields - 1 else 0)))
  }

  function HandleModifyPilotSkill(s: State, shipId: string, newValue: int): (r: State)
    ensures r == s.(currentStep := s.currentStep + 1, ships := r.ships)
    ensures NoShip(s.ships, shipId) ==> r.ships == s.ships
    ensures forall k | FirstShip(s.ships, shipId, k) :: r.ships == s.ships[k := s.ships[k].(pilotSkill := newValue)]
  {
    Advance(s).(ships := EditShip(s.ships, shipId, (sh: Ship) => sh.(pilotSkill := newValue)))
  }

  function HandleModifyAgility(s: State, shipId: string, newValue: int): (r: State)
    ensures r == s.(currentStep := s.currentStep + 1, ships := r.ships)
    ensures NoShip(s.ships, shipId) ==> r.ships == s.ships
    ensures forall k | FirstShip(s.ships, shipId, k) :: r.ships == s.ships[k := s.ships[k].(agility := newValue)]
  {
    Advance(s).(ships := EditShip(s.ships, shipId, (sh: Ship) => sh.(agility := newValue)))
  }

  function HandleModifyAttack(s: State, shipId: string, newValue: int): (r: State)
    ensures r == s.(currentStep := s.currentStep + 1, ships := r.ships)
    ensures NoShip(s.ships, shipId) ==> r.ships == s.ships
    ensures forall k | FirstShip(s.ships, shipId, k) :: r.ships == s.ships[k := s.ships[k].(attack := newValue)]
  {
    Advance(s).(ships := EditShip(s.ships, shipId, (sh: Ship) => sh.(attack := newValue)))
  }

  // ---- initiative and placement ----

  function HandleBeginSelectInitiative(s: State): (r: State)
    ensures r == s.(currentStep := s.currentStep + 1, uiScreen := SelectInitiativePage)
  {
    Advance(s).(uiScreen := SelectInitiativePage)
  }

  function HandleInitiativeSelected(s: State, player: string): (r: State)
    ensures r == s.(currentStep := s.currentStep + 1, playerWithInitiative := Some(player))
  {
    Advance(s).(playerWithInitiative := Some(player))
  }

  function HandleStartSetup(s: State): (r: State)
    ensures r == s.(currentStep := s.currentStep + 1, currentPhase := SetupPhase, uiScreen := SetupPage)
  {
    Advance(s).(currentPhase := SetupPhase, uiScreen := SetupPage)
  }

  /** `place_obstacle` appends an intact obstacle and, alone among the setup handlers, leaves the counter alone. */
  function HandlePlaceObstacle(s: State, obstacleId: string): (r: State)
    ensures r == s.(obstacles := r.obstacles)
    ensures |r.obstacles| == |s.obstacles| + 1
    ensures r.obstacles[..|s.obstacles|] == s.obstacles
    ensures r.obstacles[|s.obstacles|] == Obstacle(obstacleId, false)
  {
    s.(obstacles := s.obstacles + [Obstacle(obstacleId, false)])
  }

  function HandleShipPlaced(s: State, shipId: string): (r: State)
    ensures r == s.(currentStep := s.currentStep + 1, uiScreen := SetupPage, ships := r.ships)
    ensures NoShip(s.ships, shipId) ==> r.ships == s.ships
    ensures forall k | FirstShip(s.ships, shipId, k) :: r.ships == s.ships[k := s.ships[k].(isPlaced := true)]
  {
    Advance(s).(uiScreen := SetupPage, ships := EditShip(s.ships, shipId, (sh: Ship) => sh.(isPlaced := true)))
  }

  function HandleEndSetup(s: State): (r: State)
    ensures r == s.(currentStep := s.currentStep + 1, uiScreen := TurnStartPage)
  {
    Advance(s).(uiScreen := TurnStartPage)
  }
}
