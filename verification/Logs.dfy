// What a task's audit events say about it.  Each reading folds over the log, oldest event first.

module Logs {
  import opened Basics
  import opened StateMachine
  import opened Records

  // The task state that one more event leads to.
  function ReplayNext(s: Option<State>, e: Event): Option<State> {
    match e
    case TaskReceived => Some(Received)
    case StateChanged(from, to) => Some(to)
    case TaskCancelled(previous) => Some(Cancelled)
    case TaskRetryScheduled(_, _) => if s.Some? then Some(Queued) else None
    case TaskRecovered(_) => if s.Some? then Some(Queued) else None
    case ApprovalReset => if s.Some? then Some(PendingApproval) else None
    case _ => s
  }

  // The task state reconstructed from the audit log alone.
  function Replay(log: seq<Event>): Option<State> {
    if log == [] then None else ReplayNext(Replay(log[..|log| - 1]), log[|log| - 1])
  }

  // An event that announces a transition starts from the replayed state and follows the table.
  predicate LegalNext(s: Option<State>, e: Event) {
    match e
    case TaskReceived => s.None?
    case StateChanged(from, to) => s == Some(from) && CanTransition(from, to)
    case TaskCancelled(previous) => s == Some(previous) && CanTransition(previous, Cancelled)
    case TaskRecovered(_) => s.Some?
    case ApprovalReset => s.Some?
    case _ => true
  }

  predicate LegalLog(log: seq<Event>) {
    log == [] || (LegalLog(log[..|log| - 1]) && LegalNext(Replay(log[..|log| - 1]), log[|log| - 1]))
  }

  // An approval was granted after the last time one was asked for or taken back.
  predicate Granted(log: seq<Event>) {
    log != [] &&
    match log[|log| - 1]
    case ApprovalGranted => true
    case ApprovalRequested => false
    case ApprovalReset => false
    case _ => Granted(log[..|log| - 1])
  }

  function ResultCount(log: seq<Event>): nat {
    if log == [] then 0
    else ResultCount(log[..|log| - 1]) + if log[|log| - 1] == ResultRecorded then 1 else 0
  }

  // The last event, if any, is `e`.
  predicate EndsWith(log: seq<Event>, e: Event) {
    log != [] && log[|log| - 1] == e
  }

  lemma Snoc(log: seq<Event>, e: Event)
    ensures Replay(log + [e]) == ReplayNext(Replay(log), e)
    ensures LegalLog(log + [e]) <==> LegalLog(log) && LegalNext(Replay(log), e)
    ensures ResultCount(log + [e]) == ResultCount(log) + if e == ResultRecorded then 1 else 0
    ensures EndsWith(log + [e], e)
  {
    assert (log + [e])[..|log|] == log;
  }

  lemma SnocGranted(log: seq<Event>, e: Event)
    ensures Granted(log + [e]) <==>
            e == ApprovalGranted || (e != ApprovalRequested && e != ApprovalReset && Granted(log))
  {
    assert (log + [e])[..|log|] == log;
  }
}
