/** The top-level run states and the transition table (supervisor/domain/state_machine.py). */
module StateMachine {

  datatype TopState =
    | Ready
    | Attached
    | Running
    | Gating
    | Verifying
    | RecoveryNeeded
    | PausedForHuman
    | Completed
    | Failed
    | Aborted

  predicate IsFinal(t: TopState) {
    t in {Completed, Failed, Aborted}
  }

  /** States in which the supervisor is still working on the run. */
  predicate IsActive(t: TopState) {
    t in {Ready, Attached, Running, Gating, Verifying}
  }

  function AllowedTargets(t: TopState): set<TopState> {
    match t
    case Ready => {Attached, Running, Gating, Verifying, PausedForHuman, Completed, Failed, Aborted}
    case Attached => {Running, Verifying, RecoveryNeeded, PausedForHuman, Completed, Failed, Aborted}
    case Running => {Gating, Verifying, RecoveryNeeded, PausedForHuman, Completed, Failed, Aborted}
    case Gating => {Running, Verifying, RecoveryNeeded, PausedForHuman, Completed, Failed, Aborted}
    case Verifying => {Running, RecoveryNeeded, PausedForHuman, Completed, Failed, Aborted}
    case RecoveryNeeded => {Running, PausedForHuman, Completed, Failed, Aborted}
    case PausedForHuman => {Attached, Running, Completed, Failed, Aborted}
    case Completed => {}
    case Failed => {}
    case Aborted => {}
  }

  predicate CanTransition(from: TopState, to: TopState) {
    from == to || to in AllowedTargets(from)
  }
}
