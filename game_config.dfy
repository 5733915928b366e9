/** The shape of a match: team size, opponents, tick skip and simulator tuning. */
module Config {

  /** The vehicle profile handed to the simulator; only the default one is named here. */
  datatype CarConfig = Octane

  /** A match configuration. It is replaced as a whole, never changed field by field. */
  datatype GameConfig = GameConfig(
    gravity: real,
    boostConsumption: real,
    teamSize: nat,
    tickSkip: nat,
    spawnOpponents: bool,
    carConfig: CarConfig)

  /** The number of controlled cars a configuration asks for. */
  function AgentCount(config: GameConfig): nat
  {
    if config.spawnOpponents then config.teamSize * 2 else config.teamSize
  }

  /** The default configuration: one-a-side with opponents, 8 ticks per step, standard physics. */
  function Default(): GameConfig
  {
    GameConfig(1.0, 1.0, 1, 8, true, Octane)
  }

  /** The default configuration is a 1v1 match controlled at 8 physics ticks per step. */
  lemma DefaultIsOneVersusOne()
    ensures Default().teamSize == 1 && Default().spawnOpponents && Default().tickSkip == 8
    ensures AgentCount(Default()) == 2
    ensures Default().gravity == 1.0 && Default().boostConsumption == 1.0 && Default().carConfig == Octane
  {
  }
}
