/** Option, the faults the keeper can raise, and the outcome of an operation that may panic. */
module Wrappers {

  datatype Option<+T> = None | Some(value: T)

  /** The reasons a keeper operation aborts the enclosing state transition (a Go panic). */
  datatype Fault =
    | InvalidOrchestrator   // the orchestrator is not a valid Bech32 account address
    | InvalidTokenContract  // the token contract is not a valid Ethereum address
    | CorruptRecord         // a stored value fails to unmarshal (MustUnmarshal)

  /** Either the operation completed with a value, or it panicked with a fault. */
  datatype Outcome<+T> = Ok(value: T) | Panic(fault: Fault)
}
