// How a task's state and its queue row go together at rest, when the client is clean.

module Coupling {
  import opened Basics
  import opened StateMachine
  import opened Records

  predicate CoupledRecord(r: Record) {
    match r.row
    case None =>
      r.task.Some? ==>
        (match r.task.value.state
         case Queued => false
         case Running => false
         case Succeeded => false
         case Failed => false
         case _ => true)
    case Some(q) =>
      r.task.Some? &&
      match r.task.value.state
      case Queued => q.status == RowQueued
      case Running => q.status == RowDispatched
      case Succeeded => q.status == RowDispatched
      case Failed => q.status == RowDispatched || (q.status == RowDeadLetter && q.attempts >= q.maxAttempts)
      case Cancelled => q.status == RowCancelled
      case _ => false
  }
}
