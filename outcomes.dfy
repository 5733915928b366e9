/** Optional values and the fail-fast outcome of the orchestrator's calls. */
module Outcomes {

  datatype Option<T> = None | Some(value: T)

  /** Why a call of the orchestrator aborts (a Rust panic). */
  datatype Panic =
      /** multi-builder mode: fewer observation builders than players in the snapshot */
    | NotEnoughObsBuilders(builders: nat, players: nat)
      /** single-builder mode: the builder list is empty, so indexing builder 0 is out of range */
    | NoObsBuilder
      /** the action parser returned a different number of actions than there are players */
    | ActionCountMismatch(parsed: nat, players: nat)

  /** The value a call returns, or the panic that aborted it. */
  datatype Result<T> = Ok(value: T) | Err(panic: Panic)
}
