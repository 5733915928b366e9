/**
 * The environment facade: owns the orchestrator and the last snapshot, and
 * exposes the reset / step loop a training process drives.
 *
 * GymModel is the facade as a value, with reset and step as functions over the
 * orchestrator's MatchModel; the lemmas state what they promise. Gym is the
 * facade as an object, each method proved to have the effect of the matching
 * GymModel function.
 *
 * Two call sites of the facade do not match the orchestrator's signatures:
 * get_reset_state takes the previous snapshot and episode_reset takes a reward
 * stage. The facade passes its cached previous snapshot and no reward stage.
 */
module RlGym {
  import opened Outcomes
  import opened GameStates
  import opened Config
  import opened Strategies
  import opened SimWrapper
  import opened Envs

  /** What one step hands back: one observation and one reward per player, the done flag,
      and an info map whose "result" entry is the episode-relative score difference. */
  datatype StepOutput = StepOutput(observations: seq<Obs>, rewards: seq<Reward>, done: bool, info: map<string, int>)

  /** The actions of `actions` that are not 8 values long, in order. */
  function Malformed(actions: seq<Action>): seq<Action>
    decreases |actions|
  {
    if actions == [] then []
    else
      var last := actions[|actions| - 1];
      Malformed(actions[..|actions| - 1]) + (if |last| != ACTION_LEN then [last] else [])
  }

  /** The malformed actions are exactly those of the wrong length, so none means all are well formed. */
  lemma {:induction false} MalformedSpec(actions: seq<Action>)
    ensures Malformed(actions) == [] <==> forall i :: 0 <= i < |actions| ==> |actions[i]| == ACTION_LEN
    ensures forall a :: a in Malformed(actions) ==> a in actions && |a| != ACTION_LEN
    ensures forall a :: a in actions && |a| != ACTION_LEN ==> a in Malformed(actions)
    decreases |actions|
  {
    if actions != [] {
      var n := |actions| - 1;
      MalformedSpec(actions[..n]);
      assert actions == actions[..n] + [actions[n]];
      forall a | a in actions && |a| != ACTION_LEN
        ensures a in Malformed(actions)
      {
        if a != actions[n] {
          assert a in actions[..n];
        }
      }
    }
  }

  datatype GymModel = GymModel(
    gameMatch: MatchModel,
    observationSpace: seq<nat>,
    actionSpace: seq<nat>,
    prevState: GameState)
  {
    /** A new facade copies the spaces from the orchestrator and resets once, with no seed. */
    static function New(gameMatch: MatchModel): (GymModel, Result<seq<Obs>>)
    {
      GymModel(gameMatch, gameMatch.observationSpace, gameMatch.actionSpace, NewGameState()).Reset(None)
    }

    function Reset(seed: Option<nat>): (GymModel, Result<seq<Obs>>)
    {
      var seeded := if seed.Some? then gameMatch.SetSeeds(seed.value) else gameMatch;
      var (m1, wrapper) := seeded.GetResetState(prevState);
      var (sim, state) := m1.simWrapper.SetState(wrapper);
      var (m2, reset) := m1.(simWrapper := sim).EpisodeReset(state, None);
      if reset.Err? then (this.(gameMatch := m2), Err(reset.panic))
      else
        var (m3, obs) := m2.BuildObservations(state);
        (this.(gameMatch := m3, prevState := state), obs)
    }

    function Step(actions: seq<Action>): (GymModel, Result<StepOutput>)
    {
      var (m1, parsed) := gameMatch.ParseActions(actions, prevState);
      if parsed.Err? then (this.(gameMatch := m1), Err(parsed.panic))
      else
        var (sim, state) := m1.simWrapper.Step(parsed.value);
        var (m2, obs) := m1.(simWrapper := sim).BuildObservations(state);
        if obs.Err? then (this.(gameMatch := m2), Err(obs.panic))
        else
          var (m3, done) := m2.IsDone(state);
          var (m4, rewards) := m3.GetRewards(state, done);
          var info := map["result" := m4.GetResult(state)];
          (this.(gameMatch := m4, prevState := state), Ok(StepOutput(obs.value, rewards, done, info)))
    }
  }

  /** A reset: the seed (if any) reaches the state setter before the reset state is built around
      the previous snapshot; the simulator adopts that state once; the episode starts from the
      snapshot it returns, which is cached and observed, one observation per player. */
  lemma ResetSpec(g: GymModel, seed: Option<nat>)
    ensures var m := g.gameMatch;
      var (g', r) := g.Reset(seed);
      var ts := m.gameConfig.teamSize;
      var so := m.gameConfig.spawnOpponents;
      var seeding := if seed.Some? then [SetterSetSeed(seed.value)] else [];
      var setter := m.stateSetter.(calls := m.stateSetter.calls + seeding);
      var built := setter.buildWrapper(setter.calls, ts, so, Some(g.prevState));
      var buildCall := SetterBuildWrapper(ts, so, Some(g.prevState));
      var wrapper := setter.resetWrapper(setter.calls + [buildCall], built);
      var state := m.simWrapper.physics.setState(m.simWrapper.calls, wrapper);
      && g'.gameMatch.stateSetter.calls == m.stateSetter.calls + seeding + [buildCall, SetterReset(built)]
      && g'.gameMatch.simWrapper.calls == m.simWrapper.calls + [SimSetState(wrapper)]
      && g'.gameMatch.rewardFn.calls == m.rewardFn.calls + [RewardReset(state, None)]
      && g'.gameMatch.terminalCondition.calls == m.terminalCondition.calls + [TerminalReset(state)]
      && g'.observationSpace == g.observationSpace && g'.actionSpace == g.actionSpace
      && (r.Ok? <==> if m.useSingleObs then |m.obsBuilder| > 0 else |m.obsBuilder| >= |state.players|)
      && (r.Ok? ==>
            && |r.value| == |state.players|
            && g'.gameMatch.spectatorIds == CarIds(state.players)
            && g'.gameMatch.prevActions == ZeroActions(m.agents)
            && g'.gameMatch.GetResult(state) == 0)
      && g'.prevState == (if m.useSingleObs && |m.obsBuilder| == 0 then g.prevState else state)
  {
    var m := g.gameMatch;
    var seeded := if seed.Some? then m.SetSeeds(seed.value) else m;
    var (m1, wrapper) := seeded.GetResetState(g.prevState);
    var (sim, state) := m1.simWrapper.SetState(wrapper);
    GetResetStateSpec(seeded, g.prevState);
    assert seeded.stateSetter == m.stateSetter.(calls := m.stateSetter.calls + (if seed.Some? then [SetterSetSeed(seed.value)] else []));
    var (m2, reset) := m1.(simWrapper := sim).EpisodeReset(state, None);
    EpisodeResetSpec(m1.(simWrapper := sim), state, None);
    if reset.Ok? {
      BuildObservationsSpec(m2, state);
    }
  }

  /** A new facade copies the orchestrator's spaces and performs exactly one seedless reset
      around the placeholder snapshot. */
  lemma NewSpec(m: MatchModel)
    ensures var (g, r) := GymModel.New(m);
      var ts := m.gameConfig.teamSize;
      var so := m.gameConfig.spawnOpponents;
      var built := m.stateSetter.buildWrapper(m.stateSetter.calls, ts, so, Some(NewGameState()));
      var buildCall := SetterBuildWrapper(ts, so, Some(NewGameState()));
      var wrapper := m.stateSetter.resetWrapper(m.stateSetter.calls + [buildCall], built);
      && g.observationSpace == m.observationSpace && g.actionSpace == m.actionSpace
      && g.gameMatch.stateSetter.calls == m.stateSetter.calls + [buildCall, SetterReset(built)]
      && g.gameMatch.simWrapper.calls == m.simWrapper.calls + [SimSetState(wrapper)]
  {
    ResetSpec(GymModel(m, m.observationSpace, m.actionSpace, NewGameState()), None);
  }

  /** A step: actions are parsed against the snapshot cached before the step; on a count
      mismatch nothing reaches the simulator. Otherwise the simulator steps once, done is the
      terminal condition's verdict on the new snapshot (truncation is never asked), rewards are
      all final exactly when done, observations and rewards have one entry per player of the new
      snapshot, the info map holds only "result", and the new snapshot is cached. When observation
      building panics after the simulator step, the panic names the missing builders and the
      builders, terminal condition, reward function and cached snapshot are untouched. */
  lemma StepSpec(g: GymModel, actions: seq<Action>)
    ensures var m := g.gameMatch;
      var (g', r) := g.Step(actions);
      var parsed := m.actionParser.parse(m.actionParser.calls, actions, g.prevState);
      var players := g.prevState.players;
      && g'.gameMatch.actionParser.calls == m.actionParser.calls + [ParserParse(actions, g.prevState)]
      && g'.observationSpace == g.observationSpace && g'.actionSpace == g.actionSpace
      && (|parsed| != |players| ==>
            && r == Err(ActionCountMismatch(|parsed|, |players|))
            && g'.prevState == g.prevState
            && g'.gameMatch.simWrapper == m.simWrapper)
      && (|parsed| == |players| ==>
            var state := m.simWrapper.physics.step(m.simWrapper.calls, parsed);
            && g'.gameMatch.simWrapper.calls == m.simWrapper.calls + [SimStep(parsed)]
            && g'.gameMatch.prevActions == parsed
            && (r.Ok? <==> if m.useSingleObs then |m.obsBuilder| > 0 else |m.obsBuilder| >= |state.players|)
            && (r.Err? ==>
                  && r.panic == (if m.useSingleObs then NoObsBuilder
                                 else NotEnoughObsBuilders(|m.obsBuilder|, |state.players|))
                  && g'.prevState == g.prevState
                  && g'.gameMatch.obsBuilder == m.obsBuilder
                  && g'.gameMatch.terminalCondition == m.terminalCondition
                  && g'.gameMatch.rewardFn == m.rewardFn)
            && (r.Ok? ==>
                  var out := r.value;
                  && g'.prevState == state
                  && out.done == m.terminalCondition.terminal(m.terminalCondition.calls, state)
                  && g'.gameMatch.terminalCondition.calls == m.terminalCondition.calls + [TerminalIsTerminal(state)]
                  && g'.gameMatch.rewardFn.calls
                       == m.rewardFn.calls + [RewardPreStep(state)] + RewardCalls(state.players, state, out.done)
                  && |out.observations| == |state.players|
                  && |out.rewards| == |state.players|
                  && out.info.Keys == {"result"}
                  && out.info["result"] == ScoreDiff(state) - m.initialScore
                  && g'.gameMatch.initialScore == m.initialScore))
  {
    var m := g.gameMatch;
    var (m1, parsed) := m.ParseActions(actions, g.prevState);
    ParseActionsSpec(m, actions, g.prevState);
    if parsed.Ok? {
      var (sim, state) := m1.simWrapper.Step(parsed.value);
      var (m2, obs) := m1.(simWrapper := sim).BuildObservations(state);
      BuildObservationsSpec(m1.(simWrapper := sim), state);
      if obs.Ok? {
        var (m3, done) := m2.IsDone(state);
        GetRewardsSpec(m3, state, done);
      }
    }
  }

  /** Across a reset and the step after it, "result" is the change in blue's lead since the
      reset snapshot: a reset at 0-0 followed by a blue goal reports 1. */
  lemma ResultCountsGoalsSinceReset(g: GymModel, seed: Option<nat>, actions: seq<Action>)
    ensures var (g1, r1) := g.Reset(seed);
      var (g2, r2) := g1.Step(actions);
      r1.Ok? && r2.Ok? ==> r2.value.info["result"] == ScoreDiff(g2.prevState) - ScoreDiff(g1.prevState)
  {
    ResetSpec(g, seed);
    var (g1, r1) := g.Reset(seed);
    StepSpec(g1, actions);
  }

  class Gym {
    const gameMatch: GameMatch
    var observationSpace: seq<nat>
    var actionSpace: seq<nat>
    var prevState: GameState

    /** The object's fields, and its orchestrator's, as a GymModel value. */
    ghost function Model(): GymModel
      reads this, gameMatch
    {
      GymModel(gameMatch.Model(), observationSpace, actionSpace, prevState)
    }

    /** Takes ownership of an orchestrator and resets once; a panic in that reset is not reported here. */
    constructor (gameMatch: GameMatch)
      modifies gameMatch
      ensures this.gameMatch == gameMatch
      ensures Model() == GymModel.New(old(gameMatch.Model())).0
    {
      this.gameMatch := gameMatch;
      observationSpace := gameMatch.observationSpace;
      actionSpace := gameMatch.actionSpace;
      prevState := NewGameState();
      new;
      var discarded := Reset(None, None);
    }

    /** `returnInfo` is accepted and ignored. */
    method Reset(returnInfo: Option<bool>, seed: Option<nat>) returns (r: Result<seq<Obs>>)
      modifies this, gameMatch
      ensures (Model(), r) == old(Model()).Reset(seed)
    {
      if seed.Some? {
        gameMatch.SetSeeds(seed.value);
      }
      var wrapper := gameMatch.GetResetState(prevState);
      var adopted := gameMatch.simWrapper.SetState(wrapper);
      gameMatch.simWrapper := adopted.0;
      var state := adopted.1;
      var reset := gameMatch.EpisodeReset(state, None);
      if reset.Err? {
        return Err(reset.panic);
      }
      prevState := state;
      r := gameMatch.BuildObservations(state);
    }

    method Step(actions: seq<Action>) returns (r: Result<StepOutput>)
      modifies this, gameMatch
      ensures (Model(), r) == old(Model()).Step(actions)
    {
      var parsed := gameMatch.ParseActions(actions, prevState);
      if parsed.Err? {
        return Err(parsed.panic);
      }
      var stepped := gameMatch.simWrapper.Step(parsed.value);
      gameMatch.simWrapper := stepped.0;
      var state := stepped.1;
      var obs := gameMatch.BuildObservations(state);
      if obs.Err? {
        return Err(obs.panic);
      }
      var done := gameMatch.IsDone(state);
      prevState := state;
      var reward := gameMatch.GetRewards(state, done);
      var info := map["result" := gameMatch.GetResult(state)];
      r := Ok(StepOutput(obs.value, reward, done, info));
    }

    /** Checks every action's length, reporting each malformed one; true when none is. */
    method SendActions(actions: seq<Action>) returns (result: bool, reported: seq<Action>)
      ensures result <==> forall i :: 0 <= i < |actions| ==> |actions[i]| == ACTION_LEN
      ensures reported == Malformed(actions)
    {
      result := true;
      reported := [];
      for i := 0 to |actions|
        invariant reported == Malformed(actions[..i])
        invariant result <==> reported == []
      {
        if |actions[i]| != ACTION_LEN {
          reported := reported + [actions[i]];
          result := false;
        }
        assert actions[..i + 1][..i] == actions[..i];
      }
      assert actions[..|actions|] == actions;
      MalformedSpec(actions);
    }
  }
}
