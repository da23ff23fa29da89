/** Task statuses and the command table that says which status changes are legal. */
module TaskDomain {
  import opened Wrappers

  datatype TaskStatus = PendingApproval | Approved | Running | Succeeded | Failed | Cancelled

  datatype TaskCommand = Approve | Cancel | Start | Succeed | Fail | Retry | FinishCancellation

  datatype AttemptStatus =
    | InProgress | AttemptSucceeded | RetryScheduled | AttemptFailed | AttemptCancelled | LeaseExpired

  datatype CancellationDecision = CancellationDecision(newStatus: TaskStatus, requestCancellation: bool)

  /** The command table; None is the rejected transition. */
  function ApplyTaskCommand(current: TaskStatus, command: TaskCommand): Option<TaskStatus> {
    match command
    case Approve =>
      if current.PendingApproval? || current.Approved? then Some(Approved) else None
    case Cancel =>
      (match current
       case PendingApproval => Some(Cancelled)
       case Approved => Some(Cancelled)
       case Running => Some(Running)
       case Cancelled => Some(Cancelled)
       case _ => None)
    case Start => if current.Approved? then Some(Running) else None
    case Succeed => if current.Running? then Some(Succeeded) else None
    case Fail => if current.Running? then Some(Failed) else None
    case Retry => if current.Running? then Some(Approved) else None
    case FinishCancellation => if current.Running? then Some(Cancelled) else None
  }

  /** None when the cancel command itself is rejected. */
  function DecideCancellation(current: TaskStatus, alreadyRequested: bool): Option<CancellationDecision> {
    match ApplyTaskCommand(current, Cancel)
    case None => None
    case Some(s) =>
      Some(CancellationDecision(
             s,
             (current.PendingApproval? || current.Approved? || current.Running?) && !alreadyRequested))
  }

  predicate Terminal(s: TaskStatus) {
    s.Succeeded? || s.Failed? || s.Cancelled?
  }

  /** One edge of the lifecycle: some command of the table leads from one status to the other. */
  ghost predicate CommandEdge(before: TaskStatus, after: TaskStatus) {
    exists c: TaskCommand :: ApplyTaskCommand(before, c) == Some(after)
  }
}
