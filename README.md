# rlgym-sim-rs: episode orchestrator and environment facade, in Dafny

This project models the core of rlgym-sim-rs, a reinforcement-learning environment built on the RocketSim simulator. The core has two parts:

- **The episode orchestrator `GameMatch`** (`src/envs/game_match.rs`). It derives the agent count from the match configuration. It keeps the per-episode bookkeeping: previous actions, spectator ids and the initial score. It calls the five pluggable strategies (observation builders, reward function, terminal condition, action parser, state setter) in a fixed order and panics on cardinality mismatches.
- **The facade `Gym`** (`src/gym.rs`). It exposes `reset` and `step` to a training loop and caches the last snapshot.

## How it is modelled

- **Strategies and the simulator are values with a call log.** Each one (`Strategies.ObsBuilder`, `RewardFn`, `TerminalCondition`, `ActionParser`, `StateSetter`, `SimWrapper.RocketsimWrapper`) holds its behaviour as a total function and the log `calls` of every call made on it. Each answer is the behaviour applied to the log so far and to the call's arguments. So a strategy may keep any internal state, and "called once", "once per player, in player order" and "builder i serves player i" become statements about the logs. The Rust `Box<dyn …>` strategies are owned by exactly one orchestrator, so value semantics loses no aliasing.
- **Opaque and plain types.** Observations, rewards and the state setter's wrapper are opaque types. An action is a `seq<real>`, because the orchestrator builds rows of `0.0`; nothing computes on those values.
- **A functional core with an imperative shell.**
  - `Envs.MatchModel` and `RlGym.GymModel` are the orchestrator and the facade as values, with one function per operation. The lemmas beside them state what each operation promises.
  - `Envs.GameMatch` and `RlGym.Gym` are classes with the source's fields. Each state-changing method has `ensures (Model(), r) == old(Model()).Op(…)`; the read-only members `GetResult`, `GetConfig` and `SendActions` state their results directly.
  - The iterator pipelines of the source (`iter_mut` resets and pre-steps, `map`/`collect` over players with a mutating builder, the reward loop) are `for` loops. Their invariants tie them to the specification functions `SharedObservations`, `PairedObservations`, `PreStepAll`, `ResetAll` and `CollectRewards`.
- **The orchestrator's own panics are results.** A panic raised by the core itself (`assert!`, indexing builder 0 of an empty list) becomes `Outcomes.Result` with a `Panic` reason. State changes made before the panic are kept, in the order the source makes them.
- **Two facade call sites do not match the orchestrator's signatures.** `gym.rs` calls `get_reset_state()` without an argument and `episode_reset(&state)` without a reward stage. The model keeps the orchestrator's signatures. The facade passes its cached previous snapshot to `GetResetState` and `None` as the reward stage.
- **Two behaviours worth knowing.**
  - `update_settings` accepts a team size of 0, and so does the model.
  - `new` starts with six zero spectator slots; `episode_reset` replaces them with one id per player.

## Model

| member | source | states |
|---|---|---|
| `Config.DefaultIsOneVersusOne` | src/envs/game_match.rs:60-71 | the default configuration is team size 1 with opponents (2 agents), tick skip 8, gravity and boost consumption 1, the octane car |
| `Envs.NewSpec` | src/envs/game_match.rs:84-108 | a new orchestrator has agents = team_size*2 with opponents and team_size otherwise, one 8-zero action row per agent, six zero spectator slots, initial score 0, empty spaces, the strategies given, and a simulator created once with the configuration |
| `Envs.AgentCountInvariant` | src/envs/game_match.rs:110-207 | every operation other than update_settings keeps the agent count equal to team_size*2 with opponents and team_size otherwise |
| `Envs.EpisodeResetSpec` | src/envs/game_match.rs:110-121 | spectator ids are the players' car ids in order; one 8-zero action row per agent; one reset each for the terminal condition and the reward function (with the stage); builder 0 only in single mode, every builder once otherwise; panics exactly in single mode with no builder, before the score is captured; otherwise the initial score is blue minus orange, so the result of that snapshot is 0 |
| `Envs.SharedObservationsInOrder` | src/envs/game_match.rs:130-136 | a shared builder gets one build_obs per player in player order; observation i is built after exactly the calls for players before i |
| `Envs.BuildObservationsSpec` | src/envs/game_match.rs:123-146 | panics iff there are fewer builders than players (multi mode) or no builder (single mode), changing nothing; otherwise one observation per player in order, each builder pre-stepped once before building, builder 0 serving all players in single mode, builder i serving player i otherwise, and only the builders change |
| `Envs.CollectRewardsInOrder` | src/envs/game_match.rs:153-159 | the reward loop makes one call per player in order, all get_final_reward when done and all get_reward otherwise; reward i is answered after exactly the calls before it |
| `Envs.GetRewardsSpec` | src/envs/game_match.rs:148-167 | one pre_step, then one reward per player; final rewards exactly when done, never mixed; only the reward function changes |
| `Envs.ParseActionsSpec` | src/envs/game_match.rs:186-193 | the parser is called once; the call succeeds iff its output has one action per player, and then returns that output unchanged and stores it as the previous actions; on failure the previous actions are kept |
| `Envs.GetResetStateSpec` | src/envs/game_match.rs:195-199 | the setter builds a wrapper for the configured team size and opponents around the given snapshot, then resets it; the reset wrapper is returned and only the setter changes |
| `Envs.UpdateSettingsSpec` | src/envs/game_match.rs:209-220 | the configuration is replaced and the agent count recomputed from it; builders are replaced only when new ones are given; the other strategies are untouched; the simulator is reconfigured once without a restart and its snapshot returned |
| `Envs.GameMatch.constructor` | src/envs/game_match.rs:84-108 | the fields are those of MatchModel.New, and the agent count matches the configuration |
| `Envs.GameMatch.EpisodeReset` | src/envs/game_match.rs:110-121 | the new fields and the outcome are those of MatchModel.EpisodeReset; the builder loop resets every builder once |
| `Envs.GameMatch.BuildObservations` | src/envs/game_match.rs:123-146 | the new fields and the result are those of MatchModel.BuildObservations; the pre-step and build loops realise SharedObservations and PairedObservations |
| `Envs.GameMatch.GetRewards` | src/envs/game_match.rs:148-167 | the new fields and the rewards are those of MatchModel.GetRewards; the loop realises CollectRewards |
| `Envs.GameMatch.IsDone` | src/envs/game_match.rs:169-171 | the answer is the terminal condition's is_terminal, which is logged |
| `Envs.GameMatch.IsTruncated` | src/envs/game_match.rs:173-175 | the answer is the terminal condition's is_truncated, which is logged |
| `Envs.GameMatch.GetResult` | src/envs/game_match.rs:177-180 | equals MatchModel.GetResult: the snapshot's blue-minus-orange minus the difference captured at the last episode reset |
| `Envs.GameMatch.GetState` | src/envs/game_match.rs:182-184 | the snapshot is the simulator's get_rlgym_gamestate(false), which is logged |
| `Envs.GameMatch.ParseActions` | src/envs/game_match.rs:186-193 | the new fields and the result are those of MatchModel.ParseActions |
| `Envs.GameMatch.GetResetState` | src/envs/game_match.rs:195-199 | the new fields and the wrapper are those of MatchModel.GetResetState |
| `Envs.GameMatch.SetSeeds` | src/envs/game_match.rs:201-203 | the seed is forwarded to the state setter and nothing else changes |
| `Envs.GameMatch.GetConfig` | src/envs/game_match.rs:205-207 | returns the stored configuration, the one the agent count is derived from |
| `Envs.GameMatch.UpdateSettings` | src/envs/game_match.rs:209-220 | the new fields and snapshot are those of MatchModel.UpdateSettings, and the agent count again matches the configuration |
| `RlGym.NewSpec` | src/gym.rs:22-34 | a new facade copies the orchestrator's observation and action spaces and performs exactly one seedless reset: one wrapper built and reset, one set_state |
| `RlGym.ResetSpec` | src/gym.rs:36-57 | a seed, when given, reaches the setter before the reset state is built around the previous snapshot; without a seed set_seed is not called; the simulator adopts the state once; terminal and reward functions are reset on the adopted snapshot; it succeeds iff the builders suffice, then returns one observation per player with zero result; the snapshot is cached unless episode_reset panicked |
| `RlGym.StepSpec` | src/gym.rs:59-78 | actions are parsed against the snapshot cached before the step; a count mismatch stops before the simulator; otherwise the simulator steps once with the parsed actions; done is is_terminal of the new snapshot (truncation never asked); rewards are final exactly when done; observations and rewards have one entry per new player; info is exactly {"result"}, the episode-relative score; the new snapshot is cached; when observation building panics after the simulator step, the panic is the missing or too few builders and the builders, terminal condition, reward function and cached snapshot are untouched |
| `RlGym.ResultCountsGoalsSinceReset` | src/gym.rs:36-78 | after a successful reset and step, "result" is blue's lead in the new snapshot minus its lead in the reset snapshot |
| `RlGym.MalformedSpec` | src/gym.rs:94-111 | the reported actions are exactly the actions whose length is not 8, so none is reported iff every action has length 8 |
| `RlGym.Gym.constructor` | src/gym.rs:22-34 | the facade owns the given orchestrator and its state is that of GymModel.New |
| `RlGym.Gym.Reset` | src/gym.rs:36-57 | the new state and the result are those of GymModel.Reset |
| `RlGym.Gym.Step` | src/gym.rs:59-78 | the new state and the result are those of GymModel.Step, in the source's order: parse, simulator step, observations, done, cache, rewards, info |
| `RlGym.Gym.SendActions` | src/gym.rs:94-111 | returns true iff every action has length 8, and reports every malformed action in order, so it inspects every action without stopping early |

## Left out

- RocketSim physics is a foreign crate. `SimWrapper.Physics` is a parameter that answers each simulator call from the calls before it. Tick skipping happens inside it.
- The concrete strategies are not part of this model. Each strategy is any behaviour over its call log. `src/reward_functions/reward_fn.rs` only gives the shape of `RewardFn`. The default no-op `pre_step` of that trait is logged like any other call.
- `src/state_generator/state_modifier.rs` is a trait that nothing in the core uses.
- Floating point is not modelled.
  - `gravity` and `boost_consumption` are `real` fields that are only copied.
  - `CarConfig::octane()` is the single value `Octane`.
  - Observation and reward values are opaque.
  - The `i32 as f32` cast into the info map is dropped, so the map holds the integer result.
- `Stats` has no behaviour. `_auto_detech_obs_space` is private and never called, so the observation and action spaces stay as the constructor leaves them: empty.
- `Gym::_receive_state` is private, never called, and only forwards to `GameMatch::get_state`, which is modelled.
- The commented-out async functions and the commented-out pipe and process code are not live.
- The `println!` in `_send_actions` is console output. The model keeps the boolean result and returns the malformed actions it would print.
- Integer widths are not modelled.
  - Scores and the initial score are `int`, not `i32`, so overflow of the score differences is not modelled.
  - `team_size * 2` is not bounded to `usize`.
  - Seeds are `nat`, not `u64`.
- `MakeConfig` lives in `make.rs`, which is not part of this model. Its fields are the ones `GameMatch::new` reads.
- `GameState::new(None)` is not part of this model. It is taken to be a snapshot with no players and both scores 0. It only reaches the state setter as the seed snapshot of the first reset.
- `PlayerData` keeps only `car_id`, the one field the core reads. The rest of a player's record goes to the strategies untouched.
- A panic raised by the core itself (the three `Outcomes.Panic` cases) aborts the Rust call by unwinding. The model returns `Err` and keeps the state changes made before the panic.
- Strategy and simulator calls are total functions, so a panic raised inside one of them (a failing `get_reward`, a RocketSim error) is not represented. In the source such a panic aborts the whole call and keeps the effects made before it, for example the snapshot `step` has already cached.
- RlGym.Gym.constructor: a panic in the initial reset is not surfaced, because a Dafny constructor cannot fail. `GymModel.New` still returns it.
