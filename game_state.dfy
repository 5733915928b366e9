/** The simulator's snapshot of a match, as the orchestrator sees it. */
module GameStates {

  /** One car's record. The orchestrator reads only its car id; the physical
      state it also carries is handed to the strategies untouched. */
  datatype PlayerData = PlayerData(carId: int)

  /** A snapshot: the players in their stable per-episode order and the two team scores. */
  datatype GameState = GameState(players: seq<PlayerData>, blueScore: int, orangeScore: int)

  /** Blue's lead over orange in a snapshot. */
  function ScoreDiff(state: GameState): int
  {
    state.blueScore - state.orangeScore
  }

  /** The placeholder snapshot a facade holds before its first reset: no players, no goals. */
  function NewGameState(): GameState
  {
    GameState([], 0, 0)
  }
}
