/**
 * The five pluggable strategies the orchestrator drives: observation builder,
 * reward function, terminal condition, action parser and state setter.
 *
 * Each strategy is a value that holds its behaviour and the log of every call
 * made on it. An answer is the behaviour applied to the log so far and to the
 * call's arguments, so a strategy may keep any internal state it likes: that
 * state is a function of what it has been told. Each strategy is owned by
 * exactly one orchestrator, so value semantics loses no sharing.
 */
module Strategies {
  import opened Outcomes
  import opened GameStates
  import opened Config

  /** One player's observation vector; its values are only passed through. */
  type Obs

  /** One player's reward for one step; only passed through. */
  type Reward

  /** One player's controller input: 8 values when well formed. */
  type Action = seq<real>

  /** The simulator-ready reset state a state setter builds; its contents are the setter's business. */
  type StateWrapper

  // ----- observation builder -----

  datatype ObsCall =
    | ObsReset(state: GameState)
    | ObsPreStep(state: GameState, config: GameConfig)
    | ObsBuild(player: PlayerData, state: GameState, config: GameConfig)

  datatype ObsBuilder = ObsBuilder(
    buildObs: (seq<ObsCall>, PlayerData, GameState, GameConfig) -> Obs,
    calls: seq<ObsCall>)
  {
    function Reset(state: GameState): ObsBuilder
    {
      this.(calls := calls + [ObsReset(state)])
    }

    function PreStep(state: GameState, config: GameConfig): ObsBuilder
    {
      this.(calls := calls + [ObsPreStep(state, config)])
    }

    function BuildObs(player: PlayerData, state: GameState, config: GameConfig): (ObsBuilder, Obs)
    {
      (this.(calls := calls + [ObsBuild(player, state, config)]), buildObs(calls, player, state, config))
    }
  }

  // ----- reward function -----

  datatype RewardCall =
    | RewardReset(state: GameState, stage: Option<nat>)
    | RewardPreStep(state: GameState)
    | RewardGet(player: PlayerData, state: GameState)
    | RewardGetFinal(player: PlayerData, state: GameState)

  datatype RewardFn = RewardFn(
    reward: (seq<RewardCall>, PlayerData, GameState) -> Reward,
    finalReward: (seq<RewardCall>, PlayerData, GameState) -> Reward,
    calls: seq<RewardCall>)
  {
    function Reset(state: GameState, stage: Option<nat>): RewardFn
    {
      this.(calls := calls + [RewardReset(state, stage)])
    }

    function PreStep(state: GameState): RewardFn
    {
      this.(calls := calls + [RewardPreStep(state)])
    }

    function GetReward(player: PlayerData, state: GameState): (RewardFn, Reward)
    {
      (this.(calls := calls + [RewardGet(player, state)]), reward(calls, player, state))
    }

    function GetFinalReward(player: PlayerData, state: GameState): (RewardFn, Reward)
    {
      (this.(calls := calls + [RewardGetFinal(player, state)]), finalReward(calls, player, state))
    }
  }

  // ----- terminal condition -----

  datatype TerminalCall =
    | TerminalReset(state: GameState)
    | TerminalIsTerminal(state: GameState)
    | TerminalIsTruncated(state: GameState)

  datatype TerminalCondition = TerminalCondition(
    terminal: (seq<TerminalCall>, GameState) -> bool,
    truncated: (seq<TerminalCall>, GameState) -> bool,
    calls: seq<TerminalCall>)
  {
    function Reset(state: GameState): TerminalCondition
    {
      this.(calls := calls + [TerminalReset(state)])
    }

    function IsTerminal(state: GameState): (TerminalCondition, bool)
    {
      (this.(calls := calls + [TerminalIsTerminal(state)]), terminal(calls, state))
    }

    function IsTruncated(state: GameState): (TerminalCondition, bool)
    {
      (this.(calls := calls + [TerminalIsTruncated(state)]), truncated(calls, state))
    }
  }

  // ----- action parser -----

  datatype ParserCall = ParserParse(actions: seq<Action>, state: GameState)

  datatype ActionParser = ActionParser(
    parse: (seq<ParserCall>, seq<Action>, GameState) -> seq<Action>,
    calls: seq<ParserCall>)
  {
    function ParseActions(actions: seq<Action>, state: GameState): (ActionParser, seq<Action>)
    {
      (this.(calls := calls + [ParserParse(actions, state)]), parse(calls, actions, state))
    }
  }

  // ----- state setter -----

  datatype SetterCall =
    | SetterSetSeed(seed: nat)
    | SetterBuildWrapper(teamSize: nat, spawnOpponents: bool, seedState: Option<GameState>)
    | SetterReset(wrapper: StateWrapper)

  datatype StateSetter = StateSetter(
    buildWrapper: (seq<SetterCall>, nat, bool, Option<GameState>) -> StateWrapper,
    resetWrapper: (seq<SetterCall>, StateWrapper) -> StateWrapper,
    calls: seq<SetterCall>)
  {
    function SetSeed(seed: nat): StateSetter
    {
      this.(calls := calls + [SetterSetSeed(seed)])
    }

    function BuildWrapper(teamSize: nat, spawnOpponents: bool, seedState: Option<GameState>): (StateSetter, StateWrapper)
    {
      (this.(calls := calls + [SetterBuildWrapper(teamSize, spawnOpponents, seedState)]),
       buildWrapper(calls, teamSize, spawnOpponents, seedState))
    }

    /** Randomises a built wrapper in place; the new wrapper is returned. */
    function Reset(wrapper: StateWrapper): (StateSetter, StateWrapper)
    {
      (this.(calls := calls + [SetterReset(wrapper)]), resetWrapper(calls, wrapper))
    }
  }
}
