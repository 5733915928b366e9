/**
 * The episode orchestrator: owns the match configuration, the five strategies
 * and the simulator wrapper, keeps the per-episode bookkeeping (previous
 * actions, spectator ids, initial score) and sequences the strategy calls of
 * every reset and every step.
 *
 * MatchModel is the orchestrator as a value, with one function per operation;
 * the lemmas state what each operation promises. GameMatch is the orchestrator
 * as the object the facade mutates, each method proved to have the effect of
 * the matching MatchModel function.
 */
module Envs {
  import opened Outcomes
  import opened GameStates
  import opened Config
  import opened Strategies
  import opened SimWrapper

  /** Controller degrees of freedom of one action. */
  const ACTION_LEN: nat := 8

  /** Spectator-id slots a fresh orchestrator starts with. */
  const SPECTATOR_SLOTS: nat := 6

  /** Everything an orchestrator is built from. */
  datatype MakeConfig = MakeConfig(
    gameConfig: GameConfig,
    rewardFn: RewardFn,
    terminalCondition: TerminalCondition,
    obsBuilder: seq<ObsBuilder>,
    actionParser: ActionParser,
    stateSetter: StateSetter,
    useSingleObs: bool)

  // ----- specification helpers -----

  /** `n` previous-action rows of 8 zeros. */
  function ZeroActions(n: nat): seq<Action>
  {
    seq(n, _ => seq(ACTION_LEN, _ => 0.0))
  }

  function CarIds(players: seq<PlayerData>): seq<int>
  {
    seq(|players|, i requires 0 <= i < |players| => players[i].carId)
  }

  function ResetAll(builders: seq<ObsBuilder>, state: GameState): seq<ObsBuilder>
  {
    seq(|builders|, i requires 0 <= i < |builders| => builders[i].Reset(state))
  }

  function PreStepAll(builders: seq<ObsBuilder>, state: GameState, config: GameConfig): seq<ObsBuilder>
  {
    seq(|builders|, i requires 0 <= i < |builders| => builders[i].PreStep(state, config))
  }

  /** The build_obs calls one shared builder receives for `players`, in order. */
  function BuildCalls(players: seq<PlayerData>, state: GameState, config: GameConfig): seq<ObsCall>
  {
    seq(|players|, i requires 0 <= i < |players| => ObsBuild(players[i], state, config))
  }

  /** One shared builder serves every player in turn. */
  function SharedObservations(builder: ObsBuilder, players: seq<PlayerData>, state: GameState, config: GameConfig)
    : (ObsBuilder, seq<Obs>)
    decreases |players|
  {
    if players == [] then (builder, [])
    else
      var (before, obs) := SharedObservations(builder, players[..|players| - 1], state, config);
      var (after, o) := before.BuildObs(players[|players| - 1], state, config);
      (after, obs + [o])
  }

  /** Players zipped with builders: builder i serves player i; builders past the last player are left alone. */
  function PairedObservations(builders: seq<ObsBuilder>, players: seq<PlayerData>, state: GameState, config: GameConfig)
    : (seq<ObsBuilder>, seq<Obs>)
    requires |players| <= |builders|
  {
    (seq(|builders|, i requires 0 <= i < |builders| =>
       if i < |players| then builders[i].BuildObs(players[i], state, config).0 else builders[i]),
     seq(|players|, i requires 0 <= i < |players| => builders[i].BuildObs(players[i], state, config).1))
  }

  /** The per-player reward calls of one step: all final rewards on a done step, all ordinary ones otherwise. */
  function RewardCalls(players: seq<PlayerData>, state: GameState, done: bool): seq<RewardCall>
  {
    seq(|players|, i requires 0 <= i < |players| =>
      if done then RewardGetFinal(players[i], state) else RewardGet(players[i], state))
  }

  /** The reward loop: one reward per player, in player order. */
  function CollectRewards(rewardFn: RewardFn, players: seq<PlayerData>, state: GameState, done: bool)
    : (RewardFn, seq<Reward>)
    decreases |players|
  {
    if players == [] then (rewardFn, [])
    else
      var (before, rewards) := CollectRewards(rewardFn, players[..|players| - 1], state, done);
      var player := players[|players| - 1];
      var (after, r) := if done then before.GetFinalReward(player, state) else before.GetReward(player, state);
      (after, rewards + [r])
  }

  // ----- the orchestrator as a value -----

  datatype MatchModel = MatchModel(
    gameConfig: GameConfig,
    rewardFn: RewardFn,
    terminalCondition: TerminalCondition,
    obsBuilder: seq<ObsBuilder>,
    actionParser: ActionParser,
    stateSetter: StateSetter,
    agents: nat,
    observationSpace: seq<nat>,
    useSingleObs: bool,
    actionSpace: seq<nat>,
    prevActions: seq<Action>,
    spectatorIds: seq<int>,
    initialScore: int,
    simWrapper: RocketsimWrapper)
  {
    /** The agent count is the one the configuration asks for. */
    predicate Valid()
    {
      agents == AgentCount(gameConfig)
    }

    static function New(config: MakeConfig, physics: Physics): MatchModel
    {
      var agents := AgentCount(config.gameConfig);
      MatchModel(
        config.gameConfig, config.rewardFn, config.terminalCondition, config.obsBuilder,
        config.actionParser, config.stateSetter, agents, [], config.useSingleObs, [],
        ZeroActions(agents), seq(SPECTATOR_SLOTS, _ => 0), 0,
        RocketsimWrapper.New(physics, config.gameConfig))
    }

    function EpisodeReset(initialState: GameState, rewardStage: Option<nat>): (MatchModel, Result<()>)
    {
      // builder 0 does not exist in single mode with an empty builder list: the call panics there,
      // after the spectator ids, previous actions, terminal condition and reward function were reset
      var panics := useSingleObs && |obsBuilder| == 0;
      var builders :=
        if !useSingleObs then ResetAll(obsBuilder, initialState)
        else if panics then obsBuilder
        else obsBuilder[0 := obsBuilder[0].Reset(initialState)];
      (this.(spectatorIds := CarIds(initialState.players),
             prevActions := ZeroActions(agents),
             terminalCondition := terminalCondition.Reset(initialState),
             rewardFn := rewardFn.Reset(initialState, rewardStage),
             obsBuilder := builders,
             initialScore := if panics then initialScore else ScoreDiff(initialState)),
       if panics then Err(NoObsBuilder) else Ok(()))
    }

    function BuildObservations(state: GameState): (MatchModel, Result<seq<Obs>>)
    {
      if !useSingleObs && |obsBuilder| < |state.players| then
        (this, Err(NotEnoughObsBuilders(|obsBuilder|, |state.players|)))
      else if useSingleObs then
        if |obsBuilder| == 0 then (this, Err(NoObsBuilder))
        else
          var (builder, obs) := SharedObservations(obsBuilder[0].PreStep(state, gameConfig), state.players, state, gameConfig);
          (this.(obsBuilder := obsBuilder[0 := builder]), Ok(obs))
      else
        var (builders, obs) := PairedObservations(PreStepAll(obsBuilder, state, gameConfig), state.players, state, gameConfig);
        (this.(obsBuilder := builders), Ok(obs))
    }

    function GetRewards(state: GameState, done: bool): (MatchModel, seq<Reward>)
    {
      var (r, rewards) := CollectRewards(rewardFn.PreStep(state), state.players, state, done);
      (this.(rewardFn := r), rewards)
    }

    function IsDone(state: GameState): (MatchModel, bool)
    {
      var (t, done) := terminalCondition.IsTerminal(state);
      (this.(terminalCondition := t), done)
    }

    function IsTruncated(state: GameState): (MatchModel, bool)
    {
      var (t, truncated) := terminalCondition.IsTruncated(state);
      (this.(terminalCondition := t), truncated)
    }

    function GetResult(state: GameState): int
    {
      ScoreDiff(state) - initialScore
    }

    function GetState(): (MatchModel, GameState)
    {
      var (sim, state) := simWrapper.GetRlgymGamestate(false);
      (this.(simWrapper := sim), state)
    }

    function ParseActions(actions: seq<Action>, state: GameState): (MatchModel, Result<seq<Action>>)
    {
      var (parser, parsed) := actionParser.ParseActions(actions, state);
      if |parsed| != |state.players| then
        (this.(actionParser := parser), Err(ActionCountMismatch(|parsed|, |state.players|)))
      else
        (this.(actionParser := parser, prevActions := parsed), Ok(parsed))
    }

    function GetResetState(state: GameState): (MatchModel, StateWrapper)
    {
      var (built, wrapper) := stateSetter.BuildWrapper(gameConfig.teamSize, gameConfig.spawnOpponents, Some(state));
      var (setter, reset) := built.Reset(wrapper);
      (this.(stateSetter := setter), reset)
    }

    function SetSeeds(seed: nat): MatchModel
    {
      this.(stateSetter := stateSetter.SetSeed(seed))
    }

    function UpdateSettings(newConfig: GameConfig, newObsBuilder: Option<seq<ObsBuilder>>): (MatchModel, GameState)
    {
      var (sim, state) := simWrapper.SetGameConfig(newConfig, false);
      (this.(gameConfig := newConfig,
             agents := AgentCount(newConfig),
             obsBuilder := if newObsBuilder.Some? then newObsBuilder.value else obsBuilder,
             simWrapper := sim), state)
    }
  }

  // ----- what the operations promise -----

  /** A fresh orchestrator: one zero action row per agent, six zero spectator slots, no score yet. */
  lemma NewSpec(config: MakeConfig, physics: Physics)
    ensures var m := MatchModel.New(config, physics);
      var c := config.gameConfig;
      && m.Valid()
      && m.agents == (if c.spawnOpponents then c.teamSize * 2 else c.teamSize)
      && |m.prevActions| == m.agents
      && (forall i :: 0 <= i < m.agents ==> m.prevActions[i] == [0.0, 0.0, 0.0, 0.0, 0.0, 0.0, 0.0, 0.0])
      && m.spectatorIds == [0, 0, 0, 0, 0, 0]
      && m.initialScore == 0
      && m.observationSpace == [] && m.actionSpace == []
      && m.gameConfig == c && m.useSingleObs == config.useSingleObs && m.obsBuilder == config.obsBuilder
      && m.rewardFn == config.rewardFn && m.terminalCondition == config.terminalCondition
      && m.actionParser == config.actionParser && m.stateSetter == config.stateSetter
      && m.simWrapper == RocketsimWrapper(physics, [SimNew(c)])
  {
    var m := MatchModel.New(config, physics);
    forall i | 0 <= i < m.agents
      ensures m.prevActions[i] == [0.0, 0.0, 0.0, 0.0, 0.0, 0.0, 0.0, 0.0]
    {
      assert |m.prevActions[i]| == 8;
    }
  }

  /** Every operation but UpdateSettings leaves configuration and agent count alone. */
  lemma AgentCountInvariant(m: MatchModel, state: GameState, stage: Option<nat>, actions: seq<Action>, done: bool, seed: nat)
    requires m.Valid()
    ensures m.EpisodeReset(state, stage).0.Valid()
    ensures m.BuildObservations(state).0.Valid()
    ensures m.GetRewards(state, done).0.Valid()
    ensures m.IsDone(state).0.Valid() && m.IsTruncated(state).0.Valid()
    ensures m.ParseActions(actions, state).0.Valid()
    ensures m.GetResetState(state).0.Valid() && m.SetSeeds(seed).Valid() && m.GetState().0.Valid()
  {
  }

  /** Episode reset: fresh bookkeeping, one reset per strategy, and the score baseline. */
  lemma EpisodeResetSpec(m: MatchModel, initialState: GameState, stage: Option<nat>)
    ensures var (m', r) := m.EpisodeReset(initialState, stage);
      var players := initialState.players;
      && |m'.spectatorIds| == |players|
      && (forall i :: 0 <= i < |players| ==> m'.spectatorIds[i] == players[i].carId)
      && |m'.prevActions| == m.agents
      && (forall i :: 0 <= i < m.agents ==> m'.prevActions[i] == [0.0, 0.0, 0.0, 0.0, 0.0, 0.0, 0.0, 0.0])
      && m'.terminalCondition == m.terminalCondition.(calls := m.terminalCondition.calls + [TerminalReset(initialState)])
      && m'.rewardFn == m.rewardFn.(calls := m.rewardFn.calls + [RewardReset(initialState, stage)])
      && (r.Err? <==> m.useSingleObs && |m.obsBuilder| == 0)
      && (r.Err? ==> r.panic == NoObsBuilder && m'.initialScore == m.initialScore)
      && (r.Ok? ==> m'.initialScore == ScoreDiff(initialState) && m'.GetResult(initialState) == 0)
      && (r.Ok? ==> forall s :: m'.GetResult(s) == ScoreDiff(s) - ScoreDiff(initialState))
      && |m'.obsBuilder| == |m.obsBuilder|
      && (forall i :: 0 <= i < |m.obsBuilder| ==>
            m'.obsBuilder[i] ==
              if !m.useSingleObs || i == 0 then m.obsBuilder[i].(calls := m.obsBuilder[i].calls + [ObsReset(initialState)])
              else m.obsBuilder[i])
      && m' == m.(spectatorIds := m'.spectatorIds, prevActions := m'.prevActions,
                 terminalCondition := m'.terminalCondition, rewardFn := m'.rewardFn,
                 obsBuilder := m'.obsBuilder, initialScore := m'.initialScore)
  {
    NewZeroRows(m.agents);
  }

  lemma NewZeroRows(n: nat)
    ensures forall i :: 0 <= i < n ==> ZeroActions(n)[i] == [0.0, 0.0, 0.0, 0.0, 0.0, 0.0, 0.0, 0.0]
  {
    forall i | 0 <= i < n
      ensures ZeroActions(n)[i] == [0.0, 0.0, 0.0, 0.0, 0.0, 0.0, 0.0, 0.0]
    {
      assert |ZeroActions(n)[i]| == 8;
    }
  }

  /** A shared builder hears build_obs once per player, in player order, and player i's
      observation is built after exactly the calls for the players before it. */
  lemma {:induction false} SharedObservationsInOrder(builder: ObsBuilder, players: seq<PlayerData>, state: GameState, config: GameConfig)
    ensures var (after, obs) := SharedObservations(builder, players, state, config);
      && after == builder.(calls := builder.calls + BuildCalls(players, state, config))
      && |obs| == |players|
      && forall i :: 0 <= i < |players| ==>
           obs[i] == builder.buildObs(builder.calls + BuildCalls(players[..i], state, config), players[i], state, config)
    decreases |players|
  {
    if players != [] {
      var n := |players| - 1;
      var init := players[..n];
      SharedObservationsInOrder(builder, init, state, config);
      assert BuildCalls(players, state, config) == BuildCalls(init, state, config) + [ObsBuild(players[n], state, config)];
      assert players[..n] == init;
      var all := SharedObservations(builder, players, state, config).1;
      forall i | 0 <= i < |players|
        ensures all[i] == builder.buildObs(builder.calls + BuildCalls(players[..i], state, config), players[i], state, config)
      {
        if i < n {
          assert init[..i] == players[..i];
        }
      }
    }
  }

  /** The reward loop hears one call per player, in player order, all final on a done step
      and all ordinary otherwise; player i's reward is answered after exactly the calls before it. */
  lemma {:induction false} CollectRewardsInOrder(rewardFn: RewardFn, players: seq<PlayerData>, state: GameState, done: bool)
    ensures var (after, rewards) := CollectRewards(rewardFn, players, state, done);
      && after == rewardFn.(calls := rewardFn.calls + RewardCalls(players, state, done))
      && |rewards| == |players|
      && forall i :: 0 <= i < |players| ==>
           var heard := rewardFn.calls + RewardCalls(players[..i], state, done);
           rewards[i] ==
             if done then rewardFn.finalReward(heard, players[i], state) else rewardFn.reward(heard, players[i], state)
    decreases |players|
  {
    if players != [] {
      var n := |players| - 1;
      var init := players[..n];
      CollectRewardsInOrder(rewardFn, init, state, done);
      var last := if done then RewardGetFinal(players[n], state) else RewardGet(players[n], state);
      assert RewardCalls(players, state, done) == RewardCalls(init, state, done) + [last];
      assert players[..n] == init;
      var all := CollectRewards(rewardFn, players, state, done).1;
      forall i | 0 <= i < |players|
        ensures var heard := rewardFn.calls + RewardCalls(players[..i], state, done);
          all[i] == if done then rewardFn.finalReward(heard, players[i], state) else rewardFn.reward(heard, players[i], state)
      {
        if i < n {
          assert init[..i] == players[..i];
          var earlier := CollectRewards(rewardFn, init, state, done).1;
          assert all[i] == earlier[i];
        } else {
          var before := CollectRewards(rewardFn, init, state, done).0;
          assert before.calls == rewardFn.calls + RewardCalls(players[..i], state, done);
          if done {
            assert all[i] == before.finalReward(before.calls, players[n], state);
          } else {
            assert all[i] == before.reward(before.calls, players[n], state);
          }
        }
      }
    }
  }

  /** build_observations: when it panics, and on success one observation per player in player
      order, from builder 0 throughout in single mode and from builder i for player i otherwise,
      each builder having had pre_step exactly once before. */
  lemma BuildObservationsSpec(m: MatchModel, state: GameState)
    ensures var (m', r) := m.BuildObservations(state);
      var players := state.players;
      var c := m.gameConfig;
      && m' == m.(obsBuilder := m'.obsBuilder)
      && |m'.obsBuilder| == |m.obsBuilder|
      && (r.Err? <==> (if m.useSingleObs then |m.obsBuilder| == 0 else |m.obsBuilder| < |players|))
      && (r.Err? ==> m' == m)
      && (r.Err? ==> r.panic == if m.useSingleObs then NoObsBuilder else NotEnoughObsBuilders(|m.obsBuilder|, |players|))
      && (r.Ok? ==> |r.value| == |players|)
      && (r.Ok? && m.useSingleObs ==>
            var b := m.obsBuilder[0];
            var primed := b.calls + [ObsPreStep(state, c)];
            && m'.obsBuilder[0] == b.(calls := primed + BuildCalls(players, state, c))
            && (forall i :: 1 <= i < |m.obsBuilder| ==> m'.obsBuilder[i] == m.obsBuilder[i])
            && (forall i :: 0 <= i < |players| ==>
                  r.value[i] == b.buildObs(primed + BuildCalls(players[..i], state, c), players[i], state, c)))
      && (r.Ok? && !m.useSingleObs ==>
            && (forall i :: 0 <= i < |m.obsBuilder| ==>
                  m'.obsBuilder[i] ==
                    m.obsBuilder[i].(calls := m.obsBuilder[i].calls + [ObsPreStep(state, c)] +
                                               (if i < |players| then [ObsBuild(players[i], state, c)] else [])))
            && (forall i :: 0 <= i < |players| ==>
                  r.value[i] == m.obsBuilder[i].buildObs(m.obsBuilder[i].calls + [ObsPreStep(state, c)], players[i], state, c)))
  {
    if m.useSingleObs && |m.obsBuilder| > 0 {
      SharedObservationsInOrder(m.obsBuilder[0].PreStep(state, m.gameConfig), state.players, state, m.gameConfig);
    }
  }

  /** get_rewards: one pre_step, then one reward per player in order, final ones exactly on a done step. */
  lemma GetRewardsSpec(m: MatchModel, state: GameState, done: bool)
    ensures var (m', rewards) := m.GetRewards(state, done);
      var primed := m.rewardFn.calls + [RewardPreStep(state)];
      && m' == m.(rewardFn := m.rewardFn.(calls := primed + RewardCalls(state.players, state, done)))
      && |rewards| == |state.players|
      && (forall i :: 0 <= i < |state.players| ==>
            var heard := primed + RewardCalls(state.players[..i], state, done);
            rewards[i] ==
              if done then m.rewardFn.finalReward(heard, state.players[i], state)
              else m.rewardFn.reward(heard, state.players[i], state))
  {
    CollectRewardsInOrder(m.rewardFn.PreStep(state), state.players, state, done);
  }

  /** parse_actions: the parser is consulted once; its output is accepted, unchanged and cached,
      exactly when it has one action per player. */
  lemma ParseActionsSpec(m: MatchModel, actions: seq<Action>, state: GameState)
    ensures var (m', r) := m.ParseActions(actions, state);
      var parsed := m.actionParser.parse(m.actionParser.calls, actions, state);
      && m'.actionParser == m.actionParser.(calls := m.actionParser.calls + [ParserParse(actions, state)])
      && (r.Ok? <==> |parsed| == |state.players|)
      && (r.Ok? ==> r.value == parsed && m' == m.(actionParser := m'.actionParser, prevActions := parsed))
      && (r.Err? ==> r.panic == ActionCountMismatch(|parsed|, |state.players|) && m' == m.(actionParser := m'.actionParser))
  {
  }

  /** update_settings: the new configuration and its agent count, the builders only when new ones
      are given, the other strategies untouched, and the simulator reconfigured without a restart. */
  lemma UpdateSettingsSpec(m: MatchModel, newConfig: GameConfig, newObsBuilder: Option<seq<ObsBuilder>>)
    ensures var (m', state) := m.UpdateSettings(newConfig, newObsBuilder);
      && m'.Valid()
      && m'.gameConfig == newConfig
      && m'.agents == (if newConfig.spawnOpponents then newConfig.teamSize * 2 else newConfig.teamSize)
      && m'.obsBuilder == (if newObsBuilder.Some? then newObsBuilder.value else m.obsBuilder)
      && m'.simWrapper.calls == m.simWrapper.calls + [SimSetGameConfig(newConfig, false)]
      && state == m.simWrapper.physics.setGameConfig(m.simWrapper.calls, newConfig, false)
      && m' == m.(gameConfig := newConfig, agents := m'.agents, obsBuilder := m'.obsBuilder, simWrapper := m'.simWrapper)
  {
  }

  /** get_reset_state: the setter builds a wrapper for the configured team shape around the given
      snapshot, then resets that wrapper; the reset wrapper is the result. */
  lemma GetResetStateSpec(m: MatchModel, state: GameState)
    ensures var (m', wrapper) := m.GetResetState(state);
      var setter := m.stateSetter;
      var buildCall := SetterBuildWrapper(m.gameConfig.teamSize, m.gameConfig.spawnOpponents, Some(state));
      var built := setter.buildWrapper(setter.calls, m.gameConfig.teamSize, m.gameConfig.spawnOpponents, Some(state));
      && m'.stateSetter == setter.(calls := setter.calls + [buildCall, SetterReset(built)])
      && wrapper == setter.resetWrapper(setter.calls + [buildCall], built)
      && m' == m.(stateSetter := m'.stateSetter)
  {
  }

  // ----- the orchestrator as an object -----

  class GameMatch {
    var gameConfig: GameConfig
    var rewardFn: RewardFn
    var terminalCondition: TerminalCondition
    var obsBuilder: seq<ObsBuilder>
    var actionParser: ActionParser
    var stateSetter: StateSetter
    var agents: nat
    var observationSpace: seq<nat>
    var useSingleObs: bool
    var actionSpace: seq<nat>
    var prevActions: seq<Action>
    var spectatorIds: seq<int>
    var initialScore: int
    var simWrapper: RocketsimWrapper

    /** The object's fields as a MatchModel value. */
    ghost function Model(): MatchModel
      reads this
    {
      MatchModel(gameConfig, rewardFn, terminalCondition, obsBuilder, actionParser, stateSetter,
                 agents, observationSpace, useSingleObs, actionSpace, prevActions, spectatorIds,
                 initialScore, simWrapper)
    }

    ghost predicate Valid()
      reads this
    {
      Model().Valid()
    }

    constructor (config: MakeConfig, physics: Physics)
      ensures Valid()
      ensures Model() == MatchModel.New(config, physics)
    {
      var numAgents := if config.gameConfig.spawnOpponents then config.gameConfig.teamSize * 2 else config.gameConfig.teamSize;
      var sim := RocketsimWrapper.New(physics, config.gameConfig);
      gameConfig := config.gameConfig;
      rewardFn := config.rewardFn;
      terminalCondition := config.terminalCondition;
      obsBuilder := config.obsBuilder;
      actionParser := config.actionParser;
      stateSetter := config.stateSetter;
      agents := numAgents;
      observationSpace := [];
      useSingleObs := config.useSingleObs;
      actionSpace := [];
      prevActions := ZeroActions(numAgents);
      spectatorIds := seq(SPECTATOR_SLOTS, _ => 0);
      initialScore := 0;
      simWrapper := sim;
    }

    method EpisodeReset(initialState: GameState, rewardStage: Option<nat>) returns (r: Result<()>)
      modifies this
      ensures (Model(), r) == old(Model()).EpisodeReset(initialState, rewardStage)
    {
      spectatorIds := CarIds(initialState.players);
      prevActions := ZeroActions(agents);
      terminalCondition := terminalCondition.Reset(initialState);
      rewardFn := rewardFn.Reset(initialState, rewardStage);
      if useSingleObs {
        if |obsBuilder| == 0 {
          return Err(NoObsBuilder);
        }
        obsBuilder := obsBuilder[0 := obsBuilder[0].Reset(initialState)];
      } else {
        var builders := obsBuilder;
        for i := 0 to |builders|
          invariant |builders| == |obsBuilder|
          invariant forall k :: 0 <= k < i ==> builders[k] == obsBuilder[k].Reset(initialState)
          invariant forall k :: i <= k < |builders| ==> builders[k] == obsBuilder[k]
        {
          builders := builders[i := builders[i].Reset(initialState)];
        }
        assert builders == ResetAll(obsBuilder, initialState);
        obsBuilder := builders;
      }
      initialScore := initialState.blueScore - initialState.orangeScore;
      r := Ok(());
    }

    method BuildObservations(state: GameState) returns (r: Result<seq<Obs>>)
      modifies this
      ensures (Model(), r) == old(Model()).BuildObservations(state)
    {
      if !useSingleObs && |obsBuilder| < |state.players| {
        return Err(NotEnoughObsBuilders(|obsBuilder|, |state.players|));
      }
      if useSingleObs {
        if |obsBuilder| == 0 {
          return Err(NoObsBuilder);
        }
        var builder := obsBuilder[0].PreStep(state, gameConfig);
        ghost var primed := builder;
        var obs: seq<Obs> := [];
        for i := 0 to |state.players|
          invariant (builder, obs) == SharedObservations(primed, state.players[..i], state, gameConfig)
        {
          var built := builder.BuildObs(state.players[i], state, gameConfig);
          builder := built.0;
          obs := obs + [built.1];
          assert state.players[..i + 1][..i] == state.players[..i];
        }
        assert state.players[..|state.players|] == state.players;
        obsBuilder := obsBuilder[0 := builder];
        r := Ok(obs);
      } else {
        var builders := obsBuilder;
        for i := 0 to |builders|
          invariant |builders| == |obsBuilder|
          invariant forall k :: 0 <= k < i ==> builders[k] == obsBuilder[k].PreStep(state, gameConfig)
          invariant forall k :: i <= k < |builders| ==> builders[k] == obsBuilder[k]
        {
          builders := builders[i := builders[i].PreStep(state, gameConfig)];
        }
        assert builders == PreStepAll(obsBuilder, state, gameConfig);
        ghost var primed := builders;
        var obs: seq<Obs> := [];
        for j := 0 to |state.players|
          invariant |builders| == |primed| && |obs| == j
          invariant forall k :: 0 <= k < j ==> builders[k] == primed[k].BuildObs(state.players[k], state, gameConfig).0
          invariant forall k :: 0 <= k < j ==> obs[k] == primed[k].BuildObs(state.players[k], state, gameConfig).1
          invariant forall k :: j <= k < |builders| ==> builders[k] == primed[k]
        {
          var built := builders[j].BuildObs(state.players[j], state, gameConfig);
          builders := builders[j := built.0];
          obs := obs + [built.1];
        }
        assert builders == PairedObservations(primed, state.players, state, gameConfig).0;
        assert obs == PairedObservations(primed, state.players, state, gameConfig).1;
        obsBuilder := builders;
        r := Ok(obs);
      }
    }

    method GetRewards(state: GameState, done: bool) returns (rewards: seq<Reward>)
      modifies this
      ensures (Model(), rewards) == old(Model()).GetRewards(state, done)
    {
      var rf := rewardFn.PreStep(state);
      ghost var primed := rf;
      rewards := [];
      for i := 0 to |state.players|
        invariant (rf, rewards) == CollectRewards(primed, state.players[..i], state, done)
      {
        var player := state.players[i];
        var got := if done then rf.GetFinalReward(player, state) else rf.GetReward(player, state);
        rf := got.0;
        rewards := rewards + [got.1];
        assert state.players[..i + 1][..i] == state.players[..i];
      }
      assert state.players[..|state.players|] == state.players;
      rewardFn := rf;
    }

    method IsDone(state: GameState) returns (done: bool)
      modifies this
      ensures (Model(), done) == old(Model()).IsDone(state)
    {
      var asked := terminalCondition.IsTerminal(state);
      terminalCondition := asked.0;
      done := asked.1;
    }

    method IsTruncated(state: GameState) returns (truncated: bool)
      modifies this
      ensures (Model(), truncated) == old(Model()).IsTruncated(state)
    {
      var asked := terminalCondition.IsTruncated(state);
      terminalCondition := asked.0;
      truncated := asked.1;
    }

    /** The score difference of `state` relative to the one captured at the last episode reset. */
    function GetResult(state: GameState): (result: int)
      reads this
      ensures result == Model().GetResult(state)
    {
      (state.blueScore - state.orangeScore) - initialScore
    }

    method GetState() returns (state: GameState)
      modifies this
      ensures (Model(), state) == old(Model()).GetState()
    {
      var got := simWrapper.GetRlgymGamestate(false);
      simWrapper := got.0;
      state := got.1;
    }

    method ParseActions(actions: seq<Action>, state: GameState) returns (r: Result<seq<Action>>)
      modifies this
      ensures (Model(), r) == old(Model()).ParseActions(actions, state)
    {
      var parsed := actionParser.ParseActions(actions, state);
      actionParser := parsed.0;
      if |parsed.1| != |state.players| {
        return Err(ActionCountMismatch(|parsed.1|, |state.players|));
      }
      prevActions := parsed.1;
      r := Ok(parsed.1);
    }

    method GetResetState(state: GameState) returns (wrapper: StateWrapper)
      modifies this
      ensures (Model(), wrapper) == old(Model()).GetResetState(state)
    {
      var built := stateSetter.BuildWrapper(gameConfig.teamSize, gameConfig.spawnOpponents, Some(state));
      var reset := built.0.Reset(built.1);
      stateSetter := reset.0;
      wrapper := reset.1;
    }

    method SetSeeds(seed: nat)
      modifies this
      ensures Model() == old(Model()).SetSeeds(seed)
    {
      stateSetter := stateSetter.SetSeed(seed);
    }

    /** The stored configuration, the one the agent count is derived from. */
    function GetConfig(): (config: GameConfig)
      reads this
      requires Valid()
      ensures config == Model().gameConfig
      ensures agents == if config.spawnOpponents then config.teamSize * 2 else config.teamSize
    {
      gameConfig
    }

    method UpdateSettings(newConfig: GameConfig, newObsBuilder: Option<seq<ObsBuilder>>) returns (state: GameState)
      modifies this
      ensures Valid()
      ensures (Model(), state) == old(Model()).UpdateSettings(newConfig, newObsBuilder)
    {
      gameConfig := newConfig;
      var carCount := if newConfig.spawnOpponents then newConfig.teamSize * 2 else newConfig.teamSize;
      agents := carCount;
      if newObsBuilder.Some? {
        obsBuilder := newObsBuilder.value;
      }
      var reconfigured := simWrapper.SetGameConfig(newConfig, false);
      simWrapper := reconfigured.0;
      state := reconfigured.1;
    }
  }
}
