/** Handlers of the combat steps that touch the snapshot beyond the step counter. */
module CombatHandlers {
  import opened Wrappers
  import opened Enums
  import opened GameStateDto

  /** `combat_step`: enter the engagement phase on the combat start screen. */
  function HandleCombatStep(s: State): (r: State)
    ensures r == s.(currentStep := s.currentStep + 1, currentPhase := EngagementPhase, uiScreen := CombatStartPage)
  {
    Advance(s).(currentPhase := EngagementPhase, uiScreen := CombatStartPage)
  }

  /** `begin_select_target` as its handler defines it; the dispatcher never calls it. */
  function HandleBeginSelectTarget(s: State): (r: State)
    ensures r == s.(currentStep := s.currentStep + 1, uiScreen := SelectTargetPage)
  {
    Advance(s).(uiScreen := SelectTargetPage)
  }

  /** `declare_target`: the first ship with the attacker's id records its target; the engagement screen opens either way. */
  function HandleDeclareTarget(s: State, attackerShipId: string, defenderShipId: string): (r: State)
    ensures r == s.(currentStep := s.currentStep + 1, uiScreen := EngagementPage, ships := r.ships)
    ensures NoShip(s.ships, attackerShipId) ==> r.ships == s.ships
    ensures forall k | FirstShip(s.ships, attackerShipId, k) ::
              r.ships == s.ships[k := s.ships[k].(attackTargetShipId := Some(defenderShipId))]
  {
    Advance(s).(
      uiScreen := EngagementPage,
      ships := EditShip(s.ships, attackerShipId, (sh: Ship) => sh.(attackTargetShipId := Some(defenderShipId))))
  }

  /** `complete_attack`: the first ship with the attacker's id has attacked this round. */
  function HandleCompleteAttack(s: State, attackerShipId: string): (r: State)
    ensures r == s.(currentStep := s.currentStep + 1, ships := r.ships)
    ensures NoShip(s.ships, attackerShipId) ==> r.ships == s.ships
    ensures forall k | FirstShip(s.ships, attackerShipId, k) :: r.ships == s.ships[k := s.ships[k].(hasAttacked := true)]
  {
    Advance(s).(ships := EditShip(s.ships, attackerShipId, (sh: Ship) => sh.(hasAttacked := true)))
  }
}
