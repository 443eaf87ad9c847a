/** Handlers of the end-of-round and end-of-game steps. */
module CleanupHandlers {
  import opened Enums
  import opened GameStateDto

  /** `cleanup`: enter the end phase. */
  function HandleCleanup(s: State): (r: State)
    ensures r == s.(currentStep := s.currentStep + 1, currentPhase := EndPhase)
  {
    Advance(s).(currentPhase := EndPhase)
  }

  /** `turn_end`: enter the end phase; the turn counter moves only at the next turn start. */
  function HandleTurnEnd(s: State): (r: State)
    ensures r == s.(currentStep := s.currentStep + 1, currentPhase := EndPhase)
  {
    Advance(s).(currentPhase := EndPhase)
  }

  /** `game_end`: the final score and turn count are taken from the step, overwriting the running ones. */
  function HandleGameEnd(s: State, player1Points: int, player2Points: int, totalTurns: int): (r: State)
    ensures r == s.(currentStep := s.currentStep + 1, currentPhase := EndPhase,
                    player1Points := player1Points, player2Points := player2Points, totalTurns := totalTurns)
  {
    Advance(s).(currentPhase := EndPhase, player1Points := player1Points, player2Points := player2Points, totalTurns := totalTurns)
  }
}
