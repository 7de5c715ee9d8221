/** The eight task states, their names, and the transitions between them. */
module TaskStateMachine {
  import opened Options

  datatype TaskStatus =
    | Accepted
    | Running
    | Paused
    | Completed
    | Failed
    | Cancelled
    | Retasked
    | Redirected

  predicate IsTerminal(status: TaskStatus) {
    status in {Completed, Failed, Cancelled, Retasked, Redirected}
  }

  function ValidTransitions(from: TaskStatus): set<TaskStatus> {
    match from
    case Accepted => {Running, Cancelled, Failed}
    case Running => {Completed, Failed, Paused, Cancelled, Redirected}
    case Paused => {Running, Cancelled, Redirected}
    case Completed => {Retasked}
    case Failed => {Retasked}
    case _ => {}
  }

  predicate CanTransition(from: TaskStatus, to: TaskStatus) {
    to in ValidTransitions(from)
  }

  function StatusName(status: TaskStatus): string {
    match status
    case Accepted => "accepted"
    case Running => "running"
    case Paused => "paused"
    case Completed => "completed"
    case Failed => "failed"
    case Cancelled => "cancelled"
    case Retasked => "retasked"
    case Redirected => "redirected"
  }

  /** The enum lookup by value: `None` stands for the ValueError it raises. */
  function ParseStatus(name: string): (status: Option<TaskStatus>)
    ensures status.Some? ==> StatusName(status.value) == name
    ensures status.None? ==> forall s :: StatusName(s) != name
  {
    if name == "accepted" then Some(Accepted)
    else if name == "running" then Some(Running)
    else if name == "paused" then Some(Paused)
    else if name == "completed" then Some(Completed)
    else if name == "failed" then Some(Failed)
    else if name == "cancelled" then Some(Cancelled)
    else if name == "retasked" then Some(Retasked)
    else if name == "redirected" then Some(Redirected)
    else None
  }

  /** Distinct states have distinct names, so reading a name back returns its state. */
  lemma ParseStatusName(status: TaskStatus)
    ensures ParseStatus(StatusName(status)) == Some(status)
  {
  }

  /** Pausing and resuming: the one cycle of the transition graph. */
  predicate IsSwap(from: TaskStatus, to: TaskStatus) {
    from in {Running, Paused} && to in {Running, Paused}
  }

  /** How many transitions other than swaps a task in this state can still make. */
  function Budget(status: TaskStatus): nat {
    match status
    case Accepted => 3
    case Running => 2
    case Paused => 2
    case Completed => 1
    case Failed => 1
    case _ => 0
  }

  lemma TransitionSpendsBudget(from: TaskStatus, to: TaskStatus)
    requires CanTransition(from, to)
    ensures if IsSwap(from, to) then Budget(to) == Budget(from) else Budget(to) < Budget(from)
    ensures IsTerminal(from) ==> to == Retasked
  {
  }
}
