// paperclip/state_machine.py: the table of legal task transitions.

module StateMachine {
  datatype State =
    | Received
    | Validating
    | PendingApproval
    | Approved
    | Queued
    | Running
    | Succeeded
    | Failed
    | Rejected
    | Cancelled

  // ALLOWED_TRANSITIONS, one row per current state; a finished task goes nowhere.
  predicate CanTransition(current: State, target: State) {
    match current
    case Received => target == Validating || target == Cancelled
    case Validating => target == PendingApproval || target == Approved || target == Cancelled
    case PendingApproval => target == Approved || target == Rejected || target == Cancelled
    case Approved => target == Queued || target == Cancelled
    case Queued => target == Running || target == Cancelled
    case Running => target == Succeeded || target == Failed || target == Cancelled
    case _ => false
  }

  predicate Terminal(s: State) {
    s == Succeeded || s == Failed || s == Rejected || s == Cancelled
  }
}
