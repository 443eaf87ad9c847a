/** Handlers of the activation steps that touch the snapshot beyond the step counter. */
module ActivationHandlers {
  import opened Enums
  import opened GameStateDto

  /** `activation_step`: enter the activation phase. */
  function HandleActivationStep(s: State): (r: State)
    ensures r == s.(currentStep := s.currentStep + 1, currentPhase := ActivationPhase)
  {
    Advance(s).(currentPhase := ActivationPhase)
  }

  /** `begin_maneuver`: the first ship with the id is marked as activated. */
  function HandleBeginManeuver(s: State, shipId: string): (r: State)
    ensures r == s.(currentStep := s.currentStep + 1, ships := r.ships)
    ensures NoShip(s.ships, shipId) ==> r.ships == s.ships
    ensures forall k | FirstShip(s.ships, shipId, k) :: r.ships == s.ships[k := s.ships[k].(hasActivated := true)]
  {
    Advance(s).(ships := EditShip(s.ships, shipId, (sh: Ship) => sh.(hasActivated := true)))
  }

  /** `clean_maneuver`: the first ship with the id no longer counts as bumped. */
  function HandleCleanManeuver(s: State, shipId: string): (r: State)
    ensures r == s.(currentStep := s.currentStep + 1, ships := r.ships)
    ensures NoShip(s.ships, shipId) ==> r.ships == s.ships
    ensures forall k | FirstShip(s.ships, shipId, k) :: r.ships == s.ships[k := s.ships[k].(didBump := false)]
  {
    Advance(s).(ships := EditShip(s.ships, shipId, (sh: Ship) => sh.(didBump := false)))
  }

  /**
   * `collide`: append a collision to the first ship with the id. The recorded
   * `shipId` is the moving ship's own id, the only ship id the step carries.
   */
  function HandleCollide(s: State, shipId: string, collisionType: CollisionType, landedOnObstacle: bool): (r: State)
    ensures r == s.(currentStep := s.currentStep + 1, ships := r.ships)
    ensures NoShip(s.ships, shipId) ==> r.ships == s.ships
    ensures forall k | FirstShip(s.ships, shipId, k) ::
              r.ships == s.ships[k := s.ships[k].(collisions := s.ships[k].collisions + [Collision(collisionType, shipId, landedOnObstacle)])]
  {
    Advance(s).(ships := EditShip(s.ships, shipId,
      (sh: Ship) => sh.(collisions := sh.collisions + [Collision(collisionType, shipId, landedOnObstacle)])))
  }
}
