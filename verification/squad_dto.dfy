/**
 * The roster a game is derived from: one squad per player, each an ordered list
 * of ship builds. Only the fields the game model reads are kept.
 */
module SquadDto {

  /** One ship build: a stable id, a pilot card id and the equipped upgrade card ids, in order. */
  datatype RosterShip = RosterShip(id: string, pilotId: string, upgradeIds: seq<string>)

  /** A pilot entry as the squad editor lists it: a pilot card id and the equipped upgrade card ids. */
  datatype SquadPilot = SquadPilot(pilotId: string, upgradeIds: seq<string>)

  /** A player's squad. */
  datatype Squad = Squad(userId: string, ships: seq<RosterShip>)
}
