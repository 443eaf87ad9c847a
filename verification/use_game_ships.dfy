/**
 * The ship lists the game screens show: ships built straight from a roster
 * before the log has any, the player's ships of the live snapshot once it
 * does, and the hull a ship starts with.
 */
module UseGameShips {
  import opened Wrappers
  import opened Cards
  import opened SquadDto
  import opened GameStateDto
  import SetupHandlers
  import Seqs

  /** A ship's state next to the pilot card it was built from, when that card is known. */
  datatype ShipView = ShipView(ship: Ship, pilot: Option<Pilot>)

  /** The two players of a loaded game. */
  datatype GamePlayers = GamePlayers(player1Id: string, player2Id: string)

  /**
   * A ship built from a roster entry before the log says anything: its
   * identity and owner, the pilot card's stats, face-up upgrades, no weapons
   * and no history. Unlike game start, it records no pilot id.
   */
  ghost predicate RosterBuilt(sh: Ship, dto: RosterShip, playerId: string, pilot: Option<Pilot>) {
    && sh.shipId == dto.id && sh.playerId == playerId && sh.pilotId.None?
    && SetupHandlers.StatsFrom(sh, pilot)
    && SetupHandlers.Pristine(sh)
    && SetupHandlers.UpgradesFaceUp(sh, dto.upgradeIds)
    && sh.weapons == []
  }

  /** `createShipFromSquad`: nothing without a catalog or when the pilot card is unknown. */
  function CreateShipFromSquad(dto: RosterShip, playerId: string, cards: Option<Catalog>): (r: Option<ShipView>)
    ensures r.None? <==> cards.None? || FindPilot(cards.value.pilots, dto.pilotId).None?
    ensures r.Some? ==> && r.value.pilot == FindPilot(cards.value.pilots, dto.pilotId)
                        && RosterBuilt(r.value.ship, dto, playerId, r.value.pilot)
  {
    if cards.None? then None
    else
      match FindPilot(cards.value.pilots, dto.pilotId)
      case None => None
      case Some(p) =>
        var sh := Ship(
          playerId := playerId,
          shipId := dto.id,
          pilotId := None,
          pilotSkill := p.pilotSkill,
          hull := p.hull,
          shields := p.shields,
          attack := p.attack,
          agility := p.agility,
          maneuvers := p.maneuvers,
          tokens := [],
          faceUpDamage := [],
          faceDownDamage := 0,
          weapons := [],
          upgrades := seq(|dto.upgradeIds|, i requires 0 <= i < |dto.upgradeIds| => UpgradeState(dto.upgradeIds[i], true)),
          isPlaced := false,
          isDestroyed := false,
          didBump := false,
          dialAssigned := None,
          isHalfPointsScored := false,
          hasActivated := false,
          collisions := [],
          attackTargetShipId := None,
          hasAttacked := false);
        Some(ShipView(sh, Some(p)))
  }

  /**
   * With unique card ids, a ship built from a roster entry is the ship game
   * start builds from it, less the pilot id and the weapons.
   */
  lemma CreatedShipIsGameStartShip(dto: RosterShip, playerId: string, cat: Catalog)
    requires UniqueIds(cat) && FindPilot(cat.pilots, dto.pilotId).Some?
    ensures CreateShipFromSquad(dto, playerId, Some(cat))
         == Some(ShipView(SetupHandlers.NewShip(playerId, dto, cat).(pilotId := None, weapons := []),
                          FindPilot(cat.pilots, dto.pilotId)))
  {
    IndexedPilotIsFound(cat, dto.pilotId);
  }

  function OwnedBy(playerId: string): Ship -> bool {
    (sh: Ship) => sh.playerId == playerId
  }

  function RosterWithId(id: string): RosterShip -> bool {
    (d: RosterShip) => d.id == id
  }

  /** The pilot card behind a live ship: through the first roster entry with its id; none without such an entry or a catalog. */
  function PilotOf(squad: Squad, cards: Option<Catalog>, shipId: string): Option<Pilot> {
    match Seqs.Find(squad.ships, RosterWithId(shipId))
    case None => None
    case Some(dto) => if cards.None? then None else FindPilot(cards.value.pilots, dto.pilotId)
  }

  /** What `createShipFromSquad` gives for each roster entry, null included. */
  function Built(ships: seq<RosterShip>, playerId: string, cards: Option<Catalog>): (r: seq<Option<ShipView>>)
    ensures |r| == |ships| && forall j :: 0 <= j < |ships| ==> r[j] == CreateShipFromSquad(ships[j], playerId, cards)
  {
    seq(|ships|, j requires 0 <= j < |ships| => CreateShipFromSquad(ships[j], playerId, cards))
  }

  /** The ships the roster entries give, skipping the entries `createShipFromSquad` builds nothing for. */
  function RosterShips(squad: Squad, playerId: string, cards: Option<Catalog>): (r: seq<ShipView>)
    ensures |r| <= |squad.ships|
    ensures forall i :: 0 <= i < |r| ==> exists j :: 0 <= j < |squad.ships| && CreateShipFromSquad(squad.ships[j], playerId, cards) == Some(r[i])
    ensures forall v :: multiset(r)[v] == multiset(Built(squad.ships, playerId, cards))[Some(v)]
  {
    Seqs.SomesCount(Built(squad.ships, playerId, cards));
    Seqs.Somes(Built(squad.ships, playerId, cards))
  }

  /**
   * The roster list keeps roster order: cutting the roster in two, the ships
   * built from the first part come first, then those from the second.
   */
  lemma RosterShipsInOrder(squad: Squad, playerId: string, cards: Option<Catalog>, a: seq<RosterShip>, b: seq<RosterShip>)
    requires squad.ships == a + b
    ensures RosterShips(squad, playerId, cards)
         == RosterShips(Squad(squad.userId, a), playerId, cards) + RosterShips(Squad(squad.userId, b), playerId, cards)
  {
    BuiltAppend(a, b, playerId, cards);
    Seqs.SomesAppend(Built(a, playerId, cards), Built(b, playerId, cards));
  }

  /** Building the entries commutes with cutting the roster in two. */
  lemma BuiltAppend(a: seq<RosterShip>, b: seq<RosterShip>, playerId: string, cards: Option<Catalog>)
    ensures Built(a + b, playerId, cards) == Built(a, playerId, cards) + Built(b, playerId, cards)
  {
    var l, r := Built(a, playerId, cards), Built(b, playerId, cards);
    forall j | 0 <= j < |a + b|
      ensures Built(a + b, playerId, cards)[j] == (l + r)[j]
    {
      if j < |a| { assert (a + b)[j] == a[j]; } else { assert (a + b)[j] == b[j - |a|]; }
    }
  }

  /** A one-entry roster lists the ship `createShipFromSquad` builds for it, or nothing when it builds none. */
  lemma RosterShipsOfOne(squad: Squad, playerId: string, cards: Option<Catalog>, dto: RosterShip)
    requires squad.ships == [dto]
    ensures RosterShips(squad, playerId, cards) == match CreateShipFromSquad(dto, playerId, cards)
                                                  case None => []
                                                  case Some(v) => [v]
  {
    var built := Built(squad.ships, playerId, cards);
    assert built[1..] == [];
  }

  /** The ships of a list of views, in order. */
  function ShipsOf(vs: seq<ShipView>): (r: seq<Ship>)
    ensures |r| == |vs| && forall i :: 0 <= i < |vs| ==> r[i] == vs[i].ship
  {
    seq(|vs|, i requires 0 <= i < |vs| => vs[i].ship)
  }

  /**
   * `getPlayerShips`: nothing without the squad or the game; the player's
   * ships of the snapshot when it has any ships; else the ships built from
   * the roster. Either way every ship listed is the player's.
   */
  function GetPlayerShips(playerSquad: Option<Squad>, gameData: Option<GamePlayers>, playerId: string,
                          current: Option<State>, cards: Option<Catalog>): (r: seq<ShipView>)
    ensures playerSquad.None? || gameData.None? ==> r == []
    ensures forall i :: 0 <= i < |r| ==> r[i].ship.playerId == playerId
  {
    if playerSquad.None? || gameData.None? then []
    else if current.Some? && |current.value.ships| > 0 then
      var mine := Seqs.Filter(current.value.ships, OwnedBy(playerId));
      seq(|mine|, i requires 0 <= i < |mine| => ShipView(mine[i], PilotOf(playerSquad.value, cards, mine[i].shipId)))
    else
      var r := RosterShips(playerSquad.value, playerId, cards);
      assert forall i :: 0 <= i < |r| ==> r[i].ship.playerId == playerId by {
        forall i | 0 <= i < |r|
          ensures r[i].ship.playerId == playerId
        {
          var j :| 0 <= j < |playerSquad.value.ships| && CreateShipFromSquad(playerSquad.value.ships[j], playerId, cards) == Some(r[i]);
        }
      }
      r
  }

  /**
   * Once the snapshot has ships, the list holds exactly the player's ships of
   * the snapshot, each as often as the snapshot has it, with the pilot card
   * found through the roster.
   */
  lemma LivePlayerShips(squad: Squad, gameData: GamePlayers, playerId: string, s: State, cards: Option<Catalog>)
    requires |s.ships| > 0
    ensures var r := GetPlayerShips(Some(squad), Some(gameData), playerId, Some(s), cards);
            && (forall sh :: multiset(ShipsOf(r))[sh] == if sh.playerId == playerId then multiset(s.ships)[sh] else 0)
            && (forall i :: 0 <= i < |r| ==> r[i].pilot == PilotOf(squad, cards, r[i].ship.shipId))
  {
    var r := GetPlayerShips(Some(squad), Some(gameData), playerId, Some(s), cards);
    var mine := Seqs.Filter(s.ships, OwnedBy(playerId));
    assert ShipsOf(r) == mine;
  }

  /**
   * The live list keeps snapshot order: cutting the snapshot's ship list in
   * two, the player's ships from the first part come first.
   */
  lemma LivePlayerShipsInOrder(squad: Squad, gameData: GamePlayers, playerId: string, s: State, cards: Option<Catalog>,
                               a: seq<Ship>, b: seq<Ship>)
    requires s.ships == a + b && |s.ships| > 0
    ensures ShipsOf(GetPlayerShips(Some(squad), Some(gameData), playerId, Some(s), cards))
         == Seqs.Filter(a, OwnedBy(playerId)) + Seqs.Filter(b, OwnedBy(playerId))
  {
    LiveShipsAreFiltered(squad, gameData, playerId, s, cards);
    Seqs.FilterAppend(a, b, OwnedBy(playerId));
  }

  /** The ships of the live list are the snapshot's ships filtered by owner. */
  lemma LiveShipsAreFiltered(squad: Squad, gameData: GamePlayers, playerId: string, s: State, cards: Option<Catalog>)
    requires |s.ships| > 0
    ensures ShipsOf(GetPlayerShips(Some(squad), Some(gameData), playerId, Some(s), cards)) == Seqs.Filter(s.ships, OwnedBy(playerId))
  {
    var r := GetPlayerShips(Some(squad), Some(gameData), playerId, Some(s), cards);
    assert ShipsOf(r) == Seqs.Filter(s.ships, OwnedBy(playerId));
  }

  /**
   * Before the snapshot has ships, the list is built from the roster; when
   * the catalog knows every pilot it has one ship per entry, in roster order.
   */
  lemma RosterPlayerShips(squad: Squad, gameData: GamePlayers, playerId: string, current: Option<State>, cards: Catalog)
    requires current.None? || |current.value.ships| == 0
    requires forall j :: 0 <= j < |squad.ships| ==> FindPilot(cards.pilots, squad.ships[j].pilotId).Some?
    ensures var r := GetPlayerShips(Some(squad), Some(gameData), playerId, current, Some(cards));
            && |r| == |squad.ships|
            && forall j :: 0 <= j < |squad.ships| ==> Some(r[j]) == CreateShipFromSquad(squad.ships[j], playerId, Some(cards))
  {
    var built := Built(squad.ships, playerId, Some(cards));
    assert forall j :: 0 <= j < |built| ==> built[j].Some?;
  }

  /** The roster entry list of `squad` has an entry with this id. */
  predicate HasShip(id: string, squad: Squad) {
    exists k :: 0 <= k < |squad.ships| && squad.ships[k].id == id
  }

  function SquadWithShip(id: string): Squad -> bool {
    (sq: Squad) => HasShip(id, sq)
  }

  /**
   * `getTotalHull`: the hull printed on the pilot card of the first roster
   * entry with the ship's id, in the first squad that has one; 0 when no
   * squad has it, without a catalog, or when the pilot card is unknown.
   */
  function GetTotalHull(shipId: string, squads: seq<Squad>, cards: Option<Catalog>): (r: int)
    ensures (forall i :: 0 <= i < |squads| ==> !HasShip(shipId, squads[i])) ==> r == 0
    ensures cards.None? ==> r == 0
  {
    match Seqs.Find(squads, SquadWithShip(shipId))
    case None => 0
    case Some(squad) =>
      match Seqs.Find(squad.ships, RosterWithId(shipId))
      case None => 0
      case Some(dto) =>
        if cards.None? then 0
        else
          match FindPilot(cards.value.pilots, dto.pilotId)
          case None => 0
          case Some(p) => p.hull
  }

  /**
   * With unique card ids, the total hull of a ship is the hull game start
   * gives the ship built from its first roster entry.
   */
  lemma TotalHullIsStartingHull(shipId: string, squads: seq<Squad>, cat: Catalog, i: nat, j: nat)
    requires UniqueIds(cat)
    requires i < |squads| && j < |squads[i].ships| && squads[i].ships[j].id == shipId
    requires forall i' :: 0 <= i' < i ==> !HasShip(shipId, squads[i'])
    requires forall j' :: 0 <= j' < j ==> squads[i].ships[j'].id != shipId
    ensures GetTotalHull(shipId, squads, Some(cat)) == SetupHandlers.NewShip(squads[i].userId, squads[i].ships[j], cat).hull
  {
    assert Seqs.IsFirst(squads, SquadWithShip(shipId), i);
    assert Seqs.IsFirst(squads[i].ships, RosterWithId(shipId), j);
    var k :| Seqs.IsFirst(squads, SquadWithShip(shipId), k) && Seqs.FindIndex(squads, SquadWithShip(shipId)) == Some(k);
    Seqs.FirstIsUnique(squads, SquadWithShip(shipId), i, k);
    var m :| Seqs.IsFirst(squads[i].ships, RosterWithId(shipId), m) && Seqs.FindIndex(squads[i].ships, RosterWithId(shipId)) == Some(m);
    Seqs.FirstIsUnique(squads[i].ships, RosterWithId(shipId), j, m);
    IndexedPilotIsFound(cat, squads[i].ships[j].pilotId);
  }
}
