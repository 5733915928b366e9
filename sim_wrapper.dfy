/**
 * The RocketSim wrapper, as an oracle: the physics engine is a parameter
 * (Physics) and the wrapper records every call made on it, so each snapshot
 * it returns is a function of the calls so far.
 */
module SimWrapper {
  import opened GameStates
  import opened Config
  import opened Strategies

  datatype SimCall =
    | SimNew(config: GameConfig)
    | SimSetState(wrapper: StateWrapper)
    | SimStep(actions: seq<Action>)
    | SimSetGameConfig(config: GameConfig, restart: bool)
    | SimGetGamestate(flag: bool)

  /** How the engine answers each kind of call, given the calls before it. */
  datatype Physics = Physics(
    setState: (seq<SimCall>, StateWrapper) -> GameState,
    step: (seq<SimCall>, seq<Action>) -> GameState,
    setGameConfig: (seq<SimCall>, GameConfig, bool) -> GameState,
    gamestate: (seq<SimCall>, bool) -> GameState)

  datatype RocketsimWrapper = RocketsimWrapper(physics: Physics, calls: seq<SimCall>)
  {
    static function New(physics: Physics, config: GameConfig): RocketsimWrapper
    {
      RocketsimWrapper(physics, [SimNew(config)])
    }

    /** Forces the simulator into a built reset state and returns the resulting snapshot. */
    function SetState(wrapper: StateWrapper): (RocketsimWrapper, GameState)
    {
      (this.(calls := calls + [SimSetState(wrapper)]), physics.setState(calls, wrapper))
    }

    /** Advances one control step (tick_skip physics ticks) with the parsed actions. */
    function Step(actions: seq<Action>): (RocketsimWrapper, GameState)
    {
      (this.(calls := calls + [SimStep(actions)]), physics.step(calls, actions))
    }

    function SetGameConfig(config: GameConfig, restart: bool): (RocketsimWrapper, GameState)
    {
      (this.(calls := calls + [SimSetGameConfig(config, restart)]), physics.setGameConfig(calls, config, restart))
    }

    function GetRlgymGamestate(flag: bool): (RocketsimWrapper, GameState)
    {
      (this.(calls := calls + [SimGetGamestate(flag)]), physics.gamestate(calls, flag))
    }
  }
}
