/** Handlers of the planning steps. */
module PlanningHandlers {
  import opened Wrappers
  import opened Enums
  import opened GameStateDto

  /** The per-round fields of a ship as they are at the start of a round. */
  ghost predicate RoundFresh(sh: Ship) {
    && sh.dialAssigned.None?
    && !sh.hasActivated
    && sh.collisions == []
    && sh.attackTargetShipId.None?
    && !sh.hasAttacked
  }

  /** Clear one ship's per-round fields. */
  function ResetRound(sh: Ship): Ship {
    sh.(dialAssigned := None, hasActivated := false, collisions := [], attackTargetShipId := None, hasAttacked := false)
  }

  /**
   * `turn_start`: count the turn, enter planning and clear every ship's
   * per-round fields; identity, stats, tokens and damage are kept.
   */
  function HandleTurnStart(s: State): (r: State)
    ensures r == s.(currentStep := s.currentStep + 1, totalTurns := s.totalTurns + 1, currentPhase := PlanningPhase, ships := r.ships)
    ensures |r.ships| == |s.ships|
    ensures forall i :: 0 <= i < |s.ships| ==>
              && RoundFresh(r.ships[i])
              && r.ships[i] == s.ships[i].(dialAssigned := None, hasActivated := false, collisions := [],
                                           attackTargetShipId := None, hasAttacked := false)
  {
    Advance(s).(
      totalTurns := s.totalTurns + 1,
      currentPhase := PlanningPhase,
      ships := seq(|s.ships|, i requires 0 <= i < |s.ships| => ResetRound(s.ships[i])))
  }

  /** A second turn start clears nothing more: the ship list is a fixed point of the reset. */
  lemma TurnStartShipsIdempotent(s: State)
    ensures HandleTurnStart(HandleTurnStart(s)).ships == HandleTurnStart(s).ships
  {
    var once := HandleTurnStart(s);
    var twice := HandleTurnStart(once);
    assert forall i :: 0 <= i < |once.ships| ==> twice.ships[i] == once.ships[i];
  }

  /** `assign_dial` (not reached from the dispatcher): record the first matching ship's dial. */
  function HandleAssignDial(s: State, shipId: string, maneuver: Maneuver): (r: State)
    ensures r == s.(currentStep := s.currentStep + 1, ships := r.ships)
    ensures NoShip(s.ships, shipId) ==> r.ships == s.ships
    ensures forall k | FirstShip(s.ships, shipId, k) :: r.ships == s.ships[k := s.ships[k].(dialAssigned := Some(maneuver))]
  {
    Advance(s).(ships := EditShip(s.ships, shipId, (sh: Ship) => sh.(dialAssigned := Some(maneuver))))
  }
}
