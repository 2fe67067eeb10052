/** The vocabulary shared by the control plane and its runtimes: identifiers, statuses,
    runtime events and the scopes of browser invalidations. */
module Vocabulary {

  datatype Option<+T> = None | Some(value: T)

  datatype Result<+T, +E> = Success(value: T) | Failure(error: E) {
    predicate IsFailure() {
      Failure?
    }

    function PropagateFailure<U>(): Result<U, E>
      requires Failure?
    {
      Failure(error)
    }

    function Extract(): T
      requires Success?
    {
      value
    }
  }

  /** Row identifiers are UUID strings; messages may carry any string, the empty one included. */
  type Id = string
  type Timestamp = string

  /** Python truthiness of a `str | None`. */
  predicate Truthy(o: Option<string>) {
    o.Some? && o.value != ""
  }

  datatype DevcontainerStatus = Created | Starting | Running | Stopping | Stopped | Error

  datatype SessionStatus = Starting | Running | WaitingForApproval | Completed | Failed | Stopped

  datatype ApprovalStatus = Pending | Approved | Rejected

  datatype InboxEventType = Question | ApprovalRequest | Completion | FailureReport

  datatype InboxStatus = Unread | Read | Resolved

  datatype EventType =
    | DevcontainerStarting
    | DevcontainerStarted
    | DevcontainerStopping
    | DevcontainerStopped
    | DevcontainerFailed
    | AgentSessionStarted
    | AgentAskedQuestion
    | ApprovalRequested
    | ApprovalResolved
    | UserInputSent
    | SessionCompleted
    | SessionFailed
    | SessionStopped

  datatype Source = HostRuntimeWorker | DevcontainerRuntimeAgent

  /** The payload fields the projection reads. An absent key and a null value are both None. */
  datatype Payload = Payload(
    nameonly requestedAction: Option<string> := None,
    nameonly resolution: Option<string> := None,
    nameonly approvalRequestId: Option<Id> := None,
    nameonly question: Option<string> := None,
    nameonly inboxEventId: Option<Id> := None,
    nameonly result: Option<string> := None,
    nameonly stderrTail: Option<string> := None)

  datatype RuntimeEvent = RuntimeEvent(
    id: Id,
    devcontainerId: Option<Id>,
    agentSessionId: Option<Id>,
    eventType: EventType,
    source: Source,
    payload: Option<Payload>,
    createdAt: Timestamp)

  datatype CommandType =
    | StartDevcontainer
    | StopDevcontainer
    | StartAgentSession
    | ResumeAgentSession
    | StopAgentSession
    | SendUserInput
    | ResolveApproval

  datatype CommandPayload = CommandPayload(
    nameonly localPath: Option<string> := None,
    nameonly prompt: Option<string> := None,
    nameonly inboxEventId: Option<Id> := None,
    nameonly text: Option<string> := None,
    nameonly approvalRequestId: Option<Id> := None,
    nameonly resolution: Option<string> := None)

  datatype Command = Command(
    kind: CommandType,
    devcontainerId: Option<Id>,
    agentSessionId: Option<Id>,
    payload: Option<CommandPayload>)

  datatype Scope = Devcontainers | AgentSessions | Inbox | Approvals | Runtime

  /** One server-sent invalidation: a scope and the ids it names, never data. */
  datatype SseEvent = SseEvent(scope: Scope, ids: seq<Id>)

  predicate Active(status: SessionStatus) {
    status.Starting? || status.Running? || status.WaitingForApproval?
  }

  predicate Resting(status: SessionStatus) {
    status.Completed? || status.Failed? || status.Stopped?
  }
}
