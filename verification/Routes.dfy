/** The mutating HTTP routes, and runs: any sequence of route calls and event intakes. */
module Routes {
  import opened Vocabulary
  import opened Tables
  import opened Reducer
  import opened Intake

  datatype RouteError =
    | DevcontainerNotFound
    | AgentSessionNotFound
    | InboxEventNotFound
    | ApprovalRequestNotFound
    | InvalidDevcontainerState
    | RuntimeUnavailable
    | ActiveSessionExists
    | ActiveSessionDelete
    | NonRestingSession
    | InactiveSession
    | InboxEventNotActionable
    | ApprovalRequestNotPending

  /** A route either answers with an error, or commits a database and possibly sends a command. */
  datatype Outcome = Outcome(db: Db, sent: Option<Command>)

  predicate HasActive(db: Db, devcontainer: Id) {
    exists s | s in db.sessions :: db.sessions[s].devcontainerId == devcontainer && Active(db.sessions[s].status)
  }

  predicate Owns(db: Db, devcontainer: Id, session: Id) {
    session in db.sessions && db.sessions[session].devcontainerId == devcontainer
  }

  function SessionCommand(kind: CommandType, devcontainer: Id, session: Id, payload: Option<CommandPayload>): Command {
    Command(kind, Some(devcontainer), Some(session), payload)
  }

  function NewSession(devcontainer: Id, prompt: Option<string>, at: Timestamp): AgentSession {
    AgentSession(devcontainer, SessionStatus.Starting, prompt, None, None, None, at, at)
  }

  function StartSession(db: Db, devcontainer: Id, connected: bool, id: Id, prompt: string, at: Timestamp)
    : Result<Outcome, RouteError>
  {
    if devcontainer !in db.devcontainers then Failure(DevcontainerNotFound)
    else if !db.devcontainers[devcontainer].status.Running? then Failure(InvalidDevcontainerState)
    else if !connected then Failure(RuntimeUnavailable)
    else if HasActive(db, devcontainer) then Failure(ActiveSessionExists)
    else Success(Outcome(db.(sessions := db.sessions[id := NewSession(devcontainer, Some(prompt), at)]),
                         Some(SessionCommand(StartAgentSession, devcontainer, id,
                                             Some(CommandPayload(prompt := Some(prompt)))))))
  }

  function ResumeSession(db: Db, devcontainer: Id, session: Id, connected: bool, prompt: string, at: Timestamp)
    : Result<Outcome, RouteError>
  {
    if devcontainer !in db.devcontainers then Failure(DevcontainerNotFound)
    else if !db.devcontainers[devcontainer].status.Running? then Failure(InvalidDevcontainerState)
    else if !Owns(db, devcontainer, session) then Failure(AgentSessionNotFound)
    else if !Resting(db.sessions[session].status) then Failure(NonRestingSession)
    else if !connected then Failure(RuntimeUnavailable)
    else if HasActive(db, devcontainer) then Failure(ActiveSessionExists)
    else Success(Outcome(db.(sessions := SetStatus(db.sessions, session, SessionStatus.Starting, at)),
                         Some(SessionCommand(ResumeAgentSession, devcontainer, session,
                                             Some(CommandPayload(prompt := Some(prompt)))))))
  }

  function StopSession(db: Db, devcontainer: Id, session: Id, connected: bool): Result<Outcome, RouteError> {
    if devcontainer !in db.devcontainers then Failure(DevcontainerNotFound)
    else if !Owns(db, devcontainer, session) then Failure(AgentSessionNotFound)
    else if !Active(db.sessions[session].status) then Failure(InactiveSession)
    else if !connected then Failure(RuntimeUnavailable)
    else Success(Outcome(db, Some(SessionCommand(StopAgentSession, devcontainer, session, None))))
  }

  function SendInput(db: Db, devcontainer: Id, session: Id, item: Id, text: string, connected: bool)
    : Result<Outcome, RouteError>
  {
    if devcontainer !in db.devcontainers then Failure(DevcontainerNotFound)
    else if !Owns(db, devcontainer, session) then Failure(AgentSessionNotFound)
    else if !Active(db.sessions[session].status) then Failure(InactiveSession)
    else if item !in db.inbox || db.inbox[item].agentSessionId != Some(session)
            || db.inbox[item].devcontainerId != devcontainer then Failure(InboxEventNotFound)
    else if !db.inbox[item].eventType.Question? || db.inbox[item].status.Resolved? then Failure(InboxEventNotActionable)
    else if !connected then Failure(RuntimeUnavailable)
    else
      var payload := CommandPayload(inboxEventId := Some(item), text := Some(text));
      Success(Outcome(db, Some(SessionCommand(SendUserInput, devcontainer, session, Some(payload)))))
  }

  function DecideApproval(db: Db, devcontainer: Id, session: Id, approval: Id, resolution: string, connected: bool)
    : Result<Outcome, RouteError>
  {
    if devcontainer !in db.devcontainers then Failure(DevcontainerNotFound)
    else if !Owns(db, devcontainer, session) then Failure(AgentSessionNotFound)
    else if !Active(db.sessions[session].status) then Failure(InactiveSession)
    else if approval !in db.approvals || db.approvals[approval].agentSessionId != session
            || db.approvals[approval].devcontainerId != devcontainer then Failure(ApprovalRequestNotFound)
    else if !db.approvals[approval].status.Pending? then Failure(ApprovalRequestNotPending)
    else if !connected then Failure(RuntimeUnavailable)
    else Success(Outcome(db, Some(SessionCommand(CommandType.ResolveApproval, devcontainer, session,
                                                 Some(CommandPayload(approvalRequestId := Some(approval),
                                                                     resolution := Some(resolution)))))))
  }

  function LifecycleCommand(db: Db, kind: CommandType, devcontainer: Id): Command
    requires devcontainer in db.devcontainers
  {
    Command(kind, Some(devcontainer), None,
            Some(CommandPayload(localPath := Some(db.devcontainers[devcontainer].localPath))))
  }

  function StartDevcontainerRoute(db: Db, devcontainer: Id, workerConnected: bool): Result<Outcome, RouteError> {
    if devcontainer !in db.devcontainers then Failure(DevcontainerNotFound)
    else
      var status := db.devcontainers[devcontainer].status;
      if !status.Created? && !status.Stopped? && !status.Error? then Failure(InvalidDevcontainerState)
      else if !workerConnected then Failure(RuntimeUnavailable)
      else Success(Outcome(db, Some(LifecycleCommand(db, StartDevcontainer, devcontainer))))
  }

  function StopDevcontainerRoute(db: Db, devcontainer: Id, workerConnected: bool): Result<Outcome, RouteError> {
    if devcontainer !in db.devcontainers then Failure(DevcontainerNotFound)
    else
      var status := db.devcontainers[devcontainer].status;
      if !status.Running? && !status.Error? then Failure(InvalidDevcontainerState)
      else if !workerConnected then Failure(RuntimeUnavailable)
      else Success(Outcome(db, Some(LifecycleCommand(db, StopDevcontainer, devcontainer))))
  }

  function RemoveSession(db: Db, devcontainer: Id, session: Id): Result<Outcome, RouteError> {
    if devcontainer !in db.devcontainers then Failure(DevcontainerNotFound)
    else if !Owns(db, devcontainer, session) then Failure(AgentSessionNotFound)
    else if Active(db.sessions[session].status) then Failure(ActiveSessionDelete)
    else Success(Outcome(DeleteSession(db, session), None))
  }

  function RemoveDevcontainer(db: Db, devcontainer: Id): Result<Outcome, RouteError> {
    if devcontainer !in db.devcontainers then Failure(DevcontainerNotFound)
    else Success(Outcome(DeleteDevcontainer(db, devcontainer), None))
  }

  function PatchDevcontainer(db: Db, devcontainer: Id, name: Option<string>, status: Option<DevcontainerStatus>,
                             at: Timestamp): Result<Outcome, RouteError>
  {
    if devcontainer !in db.devcontainers then Failure(DevcontainerNotFound)
    else
      var table := UpdateDevcontainer(db.devcontainers, devcontainer, name, status, at);
      Success(Outcome(db.(devcontainers := table), None))
  }

  function ReadInbox(db: Db, item: Id, at: Timestamp): Result<Outcome, RouteError> {
    if item !in db.inbox then Failure(InboxEventNotFound)
    else Success(Outcome(db.(inbox := MarkRead(db.inbox, item, at)), None))
  }

  function CloseInbox(db: Db, item: Id, at: Timestamp): Result<Outcome, RouteError> {
    if item !in db.inbox then Failure(InboxEventNotFound)
    else Success(Outcome(db.(inbox := ResolveInboxRow(db.inbox, item, at)), None))
  }

  // ---------------------------------------------------------------- runs

  datatype Action =
    | CreateDevcontainer(id: Id, name: string, localPath: string, at: Timestamp)
    | Patch(devcontainer: Id, newName: Option<string>, status: Option<DevcontainerStatus>, at: Timestamp)
    | DropDevcontainer(devcontainer: Id)
    | Start(devcontainer: Id, connected: bool, id: Id, prompt: string, at: Timestamp)
    | Resume(devcontainer: Id, session: Id, connected: bool, prompt: string, at: Timestamp)
    | Drop(devcontainer: Id, session: Id)
    | Read(item: Id, at: Timestamp)
    | Close(item: Id, at: Timestamp)
    | Receive(event: RuntimeEvent, stamps: Stamps)

  function Committed(db: Db, r: Result<Outcome, RouteError>): Db {
    if r.Success? then r.value.db else db
  }

  /** One committed step: a route call or one intake. Routes that only send commands are omitted. */
  function Step(db: Db, a: Action): Db {
    match a
    case CreateDevcontainer(id, name, localPath, at) =>
      db.(devcontainers := db.devcontainers[id := Devcontainer(name, localPath, Created, at, at)])
    case Patch(d, name, status, at) => Committed(db, PatchDevcontainer(db, d, name, status, at))
    case DropDevcontainer(d) => Committed(db, RemoveDevcontainer(db, d))
    case Start(d, connected, id, prompt, at) => Committed(db, StartSession(db, d, connected, id, prompt, at))
    case Resume(d, s, connected, prompt, at) => Committed(db, ResumeSession(db, d, s, connected, prompt, at))
    case Drop(d, s) => Committed(db, RemoveSession(db, d, s))
    case Read(i, at) => Committed(db, ReadInbox(db, i, at))
    case Close(i, at) => Committed(db, CloseInbox(db, i, at))
    case Receive(e, stamps) => AfterIntake(db, e, stamps)
  }

  /** Generated ids are fresh, and the row lookup is one SQLite could have answered. */
  ghost predicate Enabled(db: Db, a: Action) {
    match a
    case CreateDevcontainer(id, _, _, _) => id !in db.devcontainers
    case Start(_, _, id, _, _) => id !in db.sessions
    case Receive(e, stamps) => FreshStamps(db, stamps) && ValidAnswer(db, e, stamps)
    case _ => true
  }

  function Execute(db: Db, run: seq<Action>): Db {
    if run == [] then db else Step(Execute(db, run[..|run| - 1]), run[|run| - 1])
  }

  ghost predicate ValidRun(db: Db, run: seq<Action>) {
    run != [] ==> ValidRun(db, run[..|run| - 1]) && Enabled(Execute(db, run[..|run| - 1]), run[|run| - 1])
  }
}
