/**
 * Enumerations of the game model. The repository's enum file defines only
 * factions; the token, collision, maneuver, action, reinforce-direction and
 * dice-result enumerations are not part of this model and are carried as
 * opaque strings.
 */
module Enums {

  type TokenType = string
  type CollisionType = string
  type Maneuver = string
  type ActionType = string
  type ReinforceDirection = string
  type DiceResult = string

  /** The game phase recorded in the snapshot. */
  datatype Phase = StartPhase | SetupPhase | PlanningPhase | ActivationPhase | EngagementPhase | EndPhase

  /** The screen the snapshot asks the user interface to show (the handlers' `uiScreen`). */
  datatype Page =
    | GameStartPage
    | SelectInitiativePage
    | SetupPage
    | TurnStartPage
    | CombatStartPage
    | SelectTargetPage
    | EngagementPage
}
