/** Validated status changes (app/orchestration/transitions.py). */
module Transitions {
  import opened Records
  import opened SchedulerState

  predicate TaskEdge(current: TaskStatus, target: TaskStatus) {
    match current
    case Pending => target in {Queued, Blocked, Cancelled}
    case Queued => target in {SchedulerState.Running, Failed, Blocked, Cancelled}
    case Running => target in {Completed, Failed}
    case _ => false
  }

  predicate RunEdge(current: RunStatus, target: RunStatus) {
    match current
    case RunPending => target in {RunRunning, RunFailed, RunCancelled}
    case RunRunning => target in {RunCompleted, RunFailed, RunCancelled}
    case _ => false
  }

  predicate AgentEdge(kind: AgentKind, current: AgentStatus, target: AgentStatus) {
    match current
    case AgentRunning => target != AgentRunning
    case AgentFailed => kind == PullRequest && target == AgentCompleted
    case AgentCompleted => false
  }

  // Repeating the current status is always accepted.
  predicate TaskMove(current: TaskStatus, target: TaskStatus) {
    current == target || TaskEdge(current, target)
  }

  predicate RunMove(current: RunStatus, target: RunStatus) {
    current == target || RunEdge(current, target)
  }

  predicate AgentMove(kind: AgentKind, current: AgentStatus, target: AgentStatus) {
    current == target || AgentEdge(kind, current, target)
  }
}
