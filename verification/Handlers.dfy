/** The mutating HTTP handlers over the database connection and the agents' registry: the guards,
    whose order decides which error is answered, then the write, the commit and the command. Each is
    proved to be the route function of the same purpose, and its answers, writes and frames are also
    said outright. */
module Handlers {
  import opened Vocabulary
  import opened Tables
  import opened Routes
  import opened Registry
  import S = Store

  function ErrorOf(r: Result<Outcome, RouteError>): Option<RouteError> {
    if r.Failure? then Some(r.error) else None
  }

  /** The session is in none of the statuses it can end in. */
  predicate Unfinished(row: AgentSession) {
    !(row.status.Completed? || row.status.Failed? || row.status.Stopped?)
  }

  predicate Housed(sessions: map<Id, AgentSession>, devcontainer: Id, session: Id) {
    session in sessions && sessions[session].devcontainerId == devcontainer
  }

  predicate SomeUnfinished(sessions: map<Id, AgentSession>, devcontainer: Id) {
    exists s | s in sessions :: Housed(sessions, devcontainer, s) && Unfinished(sessions[s])
  }

  /** The command an accepted route sends, on the agent's socket. */
  function FramesOf(r: Result<Outcome, RouteError>, connections: map<Id, SocketId>): seq<Frame> {
    if r.Failure? || r.value.sent.None? then []
    else
      var c := r.value.sent.value;
      if c.devcontainerId.Some? && c.devcontainerId.value in connections
      then [CommandFrame(connections[c.devcontainerId.value], c)] else []
  }

  class ControlPlane {
    const db: S.Connection
    const agents: ConnectionRegistry
    const workers: ConnectionRegistry

    constructor (db: S.Connection, agents: ConnectionRegistry, workers: ConnectionRegistry)
      ensures this.db == db && this.agents == agents && this.workers == workers
    {
      this.db, this.agents, this.workers := db, agents, workers;
    }

    /** No transaction is open between requests. */
    predicate Valid()
      reads this, db, agents, workers
    {
      db.View() == db.committed && agents.endpoint.Agent? && workers.endpoint.Worker?
    }

    /** The database and the sent frames are as the route function says. */
    twostate predicate Does(r: Result<Outcome, RouteError>)
      reads db, agents
    {
      && db.View() == db.committed == Committed(old(db.View()), r)
      && agents.sent == old(agents.sent) + FramesOf(r, agents.connections)
    }

    // -------------------------------------------------------------- agent sessions

    /** The row, then the command with the prompt, on the agent's socket. */
    method StartAgentSession(devcontainer: Id, prompt: string, id: Id, at: Timestamp)
      returns (error: Option<RouteError>)
      requires Valid()
      modifies db, agents`sent
      ensures Valid()
      ensures
        var route := StartSession(old(db.View()), devcontainer, agents.IsConnected(devcontainer), id, prompt, at);
        Does(route) && error == ErrorOf(route)
      ensures error == if devcontainer !in old(db.devcontainers) then Some(DevcontainerNotFound)
                       else if !old(db.devcontainers)[devcontainer].status.Running? then Some(InvalidDevcontainerState)
                       else if devcontainer !in agents.connections then Some(RuntimeUnavailable)
                       else if SomeUnfinished(old(db.sessions), devcontainer) then Some(ActiveSessionExists)
                       else None
      ensures error.None? ==>
                var row := AgentSession(devcontainer, SessionStatus.Starting, Some(prompt), None, None, None, at, at);
                var command := Command(CommandType.StartAgentSession, Some(devcontainer), Some(id),
                                       Some(CommandPayload(prompt := Some(prompt))));
                && db.View() == old(db.View()).(sessions := old(db.sessions)[id := row])
                && agents.sent == old(agents.sent) + [CommandFrame(agents.connections[devcontainer], command)]
      ensures error.Some? ==> db.View() == old(db.View()) && agents.sent == old(agents.sent)
      ensures db.View()
              == Step(old(db.View()), Start(devcontainer, agents.IsConnected(devcontainer), id, prompt, at))
    {
      if devcontainer !in db.devcontainers {
        return Some(DevcontainerNotFound);
      }
      if !db.devcontainers[devcontainer].status.Running? {
        return Some(InvalidDevcontainerState);
      }
      if !agents.IsConnected(devcontainer) {
        return Some(RuntimeUnavailable);
      }
      var active := db.GetActive(devcontainer);
      if active.Some? {
        return Some(ActiveSessionExists);
      }
      db.SessionsCreate(id, devcontainer, Some(prompt), at);
      db.Commit();
      var _ := agents.SendCommand(SessionCommand(CommandType.StartAgentSession, devcontainer, id,
                                                 Some(CommandPayload(prompt := Some(prompt)))));
      error := None;
    }

    method ResumeAgentSession(devcontainer: Id, session: Id, prompt: string, at: Timestamp)
      returns (error: Option<RouteError>)
      requires Valid()
      modifies db, agents`sent
      ensures Valid()
      ensures
        var route := ResumeSession(old(db.View()), devcontainer, session, agents.IsConnected(devcontainer), prompt, at);
        Does(route) && error == ErrorOf(route)
      ensures error == if devcontainer !in old(db.devcontainers) then Some(DevcontainerNotFound)
                       else if !old(db.devcontainers)[devcontainer].status.Running? then Some(InvalidDevcontainerState)
                       else if !Housed(old(db.sessions), devcontainer, session) then Some(AgentSessionNotFound)
                       else if Unfinished(old(db.sessions)[session]) then Some(NonRestingSession)
                       else if devcontainer !in agents.connections then Some(RuntimeUnavailable)
                       else if SomeUnfinished(old(db.sessions), devcontainer) then Some(ActiveSessionExists)
                       else None
      ensures error.None? ==>
                var command := Command(CommandType.ResumeAgentSession, Some(devcontainer), Some(session),
                                       Some(CommandPayload(prompt := Some(prompt))));
                && db.View() == old(db.View()).(sessions := db.sessions)
                && OnlyRow(old(db.sessions), db.sessions, session)
                && db.sessions[session] == old(db.sessions)[session].(
                                             status := SessionStatus.Starting, updatedAt := at, lastEventAt := Some(at))
                && agents.sent == old(agents.sent) + [CommandFrame(agents.connections[devcontainer], command)]
      ensures error.Some? ==> db.View() == old(db.View()) && agents.sent == old(agents.sent)
      ensures db.View()
              == Step(old(db.View()), Resume(devcontainer, session, agents.IsConnected(devcontainer), prompt, at))
    {
      if devcontainer !in db.devcontainers {
        return Some(DevcontainerNotFound);
      }
      if !db.devcontainers[devcontainer].status.Running? {
        return Some(InvalidDevcontainerState);
      }
      if session !in db.sessions || db.sessions[session].devcontainerId != devcontainer {
        return Some(AgentSessionNotFound);
      }
      if !Resting(db.sessions[session].status) {
        return Some(NonRestingSession);
      }
      if !agents.IsConnected(devcontainer) {
        return Some(RuntimeUnavailable);
      }
      var active := db.GetActive(devcontainer);
      if active.Some? {
        return Some(ActiveSessionExists);
      }
      db.SessionsSetStatus(session, SessionStatus.Starting, at);
      db.Commit();
      var _ := agents.SendCommand(SessionCommand(CommandType.ResumeAgentSession, devcontainer, session,
                                                 Some(CommandPayload(prompt := Some(prompt)))));
      error := None;
    }

    /** The guards that stop, user input and approval resolution share. */
    method CheckActive(devcontainer: Id, session: Id) returns (error: Option<RouteError>)
      ensures error == if devcontainer !in db.devcontainers then Some(DevcontainerNotFound)
                       else if !Housed(db.sessions, devcontainer, session) then Some(AgentSessionNotFound)
                       else if !Unfinished(db.sessions[session]) then Some(InactiveSession)
                       else None
    {
      if devcontainer !in db.devcontainers {
        return Some(DevcontainerNotFound);
      }
      if session !in db.sessions || db.sessions[session].devcontainerId != devcontainer {
        return Some(AgentSessionNotFound);
      }
      if !Active(db.sessions[session].status) {
        return Some(InactiveSession);
      }
      error := None;
    }

    method StopAgentSession(devcontainer: Id, session: Id) returns (error: Option<RouteError>)
      requires Valid()
      modifies agents`sent
      ensures Valid()
      ensures
        var route := StopSession(old(db.View()), devcontainer, session, agents.IsConnected(devcontainer));
        Does(route) && error == ErrorOf(route)
      ensures error == if devcontainer !in db.devcontainers then Some(DevcontainerNotFound)
                       else if !Housed(db.sessions, devcontainer, session) then Some(AgentSessionNotFound)
                       else if !Unfinished(db.sessions[session]) then Some(InactiveSession)
                       else if devcontainer !in agents.connections then Some(RuntimeUnavailable)
                       else None
      ensures error.None? ==>
                var command := Command(CommandType.StopAgentSession, Some(devcontainer), Some(session), None);
                agents.sent == old(agents.sent) + [CommandFrame(agents.connections[devcontainer], command)]
      ensures error.Some? ==> agents.sent == old(agents.sent)
    {
      error := CheckActive(devcontainer, session);
      if error.Some? {
        return;
      }
      if !agents.IsConnected(devcontainer) {
        return Some(RuntimeUnavailable);
      }
      var _ := agents.SendCommand(SessionCommand(CommandType.StopAgentSession, devcontainer, session, None));
    }

    method SendUserInput(devcontainer: Id, session: Id, item: Id, text: string) returns (error: Option<RouteError>)
      requires Valid()
      modifies agents`sent
      ensures Valid()
      ensures
        var route := SendInput(old(db.View()), devcontainer, session, item, text, agents.IsConnected(devcontainer));
        Does(route) && error == ErrorOf(route)
      ensures error == if devcontainer !in db.devcontainers then Some(DevcontainerNotFound)
                       else if !Housed(db.sessions, devcontainer, session) then Some(AgentSessionNotFound)
                       else if !Unfinished(db.sessions[session]) then Some(InactiveSession)
                       else if item !in db.inbox || db.inbox[item].agentSessionId != Some(session)
                               || db.inbox[item].devcontainerId != devcontainer then Some(InboxEventNotFound)
                       else if !db.inbox[item].eventType.Question? || db.inbox[item].status.Resolved?
                       then Some(InboxEventNotActionable)
                       else if devcontainer !in agents.connections then Some(RuntimeUnavailable)
                       else None
      ensures error.None? ==>
                var command := Command(CommandType.SendUserInput, Some(devcontainer), Some(session),
                                       Some(CommandPayload(inboxEventId := Some(item), text := Some(text))));
                agents.sent == old(agents.sent) + [CommandFrame(agents.connections[devcontainer], command)]
      ensures error.Some? ==> agents.sent == old(agents.sent)
    {
      error := CheckActive(devcontainer, session);
      if error.Some? {
        return;
      }
      if item !in db.inbox || db.inbox[item].agentSessionId != Some(session)
         || db.inbox[item].devcontainerId != devcontainer {
        return Some(InboxEventNotFound);
      }
      if !db.inbox[item].eventType.Question? || db.inbox[item].status.Resolved? {
        return Some(InboxEventNotActionable);
      }
      if !agents.IsConnected(devcontainer) {
        return Some(RuntimeUnavailable);
      }
      var _ := agents.SendCommand(SessionCommand(CommandType.SendUserInput, devcontainer, session,
                                                 Some(CommandPayload(inboxEventId := Some(item), text := Some(text)))));
    }

    method ResolveApproval(devcontainer: Id, session: Id, approval: Id, resolution: string)
      returns (error: Option<RouteError>)
      requires Valid()
      modifies agents`sent
      ensures Valid()
      ensures
        var route := DecideApproval(old(db.View()), devcontainer, session, approval, resolution,
                                    agents.IsConnected(devcontainer));
        Does(route) && error == ErrorOf(route)
      ensures error == if devcontainer !in db.devcontainers then Some(DevcontainerNotFound)
                       else if !Housed(db.sessions, devcontainer, session) then Some(AgentSessionNotFound)
                       else if !Unfinished(db.sessions[session]) then Some(InactiveSession)
                       else if approval !in db.approvals || db.approvals[approval].agentSessionId != session
                               || db.approvals[approval].devcontainerId != devcontainer
                       then Some(ApprovalRequestNotFound)
                       else if db.approvals[approval].status != ApprovalStatus.Pending
                       then Some(ApprovalRequestNotPending)
                       else if devcontainer !in agents.connections then Some(RuntimeUnavailable)
                       else None
      ensures error.None? ==>
                var command := Command(CommandType.ResolveApproval, Some(devcontainer), Some(session),
                                       Some(CommandPayload(approvalRequestId := Some(approval),
                                                           resolution := Some(resolution))));
                agents.sent == old(agents.sent) + [CommandFrame(agents.connections[devcontainer], command)]
      ensures error.Some? ==> agents.sent == old(agents.sent)
    {
      error := CheckActive(devcontainer, session);
      if error.Some? {
        return;
      }
      if approval !in db.approvals || db.approvals[approval].agentSessionId != session
         || db.approvals[approval].devcontainerId != devcontainer {
        return Some(ApprovalRequestNotFound);
      }
      if !db.approvals[approval].status.Pending? {
        return Some(ApprovalRequestNotPending);
      }
      if !agents.IsConnected(devcontainer) {
        return Some(RuntimeUnavailable);
      }
      var _ := agents.SendCommand(SessionCommand(CommandType.ResolveApproval, devcontainer, session,
                                                 Some(CommandPayload(approvalRequestId := Some(approval),
                                                                     resolution := Some(resolution)))));
    }

    method DeleteAgentSession(devcontainer: Id, session: Id) returns (error: Option<RouteError>)
      requires Valid()
      modifies db
      ensures Valid()
      ensures var route := RemoveSession(old(db.View()), devcontainer, session);
              Does(route) && error == ErrorOf(route)
      ensures error == if devcontainer !in old(db.devcontainers) then Some(DevcontainerNotFound)
                       else if !Housed(old(db.sessions), devcontainer, session) then Some(AgentSessionNotFound)
                       else if Unfinished(old(db.sessions)[session]) then Some(ActiveSessionDelete)
                       else None
      ensures error.None? ==>
                && db.devcontainers == old(db.devcontainers)
                && db.sessions == old(db.sessions) - {session} && db.summaries == old(db.summaries) - {session}
                && (forall e :: e in db.log <==> e in old(db.log) && e.agentSessionId != Some(session))
                && (forall a :: a in db.approvals <==>
                                a in old(db.approvals) && old(db.approvals)[a].agentSessionId != session)
                && (forall i :: i in db.inbox <==>
                                i in old(db.inbox) && old(db.inbox)[i].agentSessionId != Some(session))
                && Remnant(db.View(), old(db.View()))
      ensures error.Some? ==> db.View() == old(db.View())
      ensures db.View() == Step(old(db.View()), Drop(devcontainer, session))
    {
      if devcontainer !in db.devcontainers {
        return Some(DevcontainerNotFound);
      }
      if session !in db.sessions || db.sessions[session].devcontainerId != devcontainer {
        return Some(AgentSessionNotFound);
      }
      if Active(db.sessions[session].status) {
        return Some(ActiveSessionDelete);
      }
      db.DeleteCascading({}, {session});
      db.Commit();
      error := None;
    }

    // -------------------------------------------------------------- devcontainers and inbox

    method CreateDevcontainerRow(id: Id, name: string, localPath: string, at: Timestamp)
      requires Valid()
      modifies db
      ensures Valid()
      ensures db.View() == old(db.View()).(devcontainers :=
                             old(db.devcontainers)[id := Devcontainer(name, localPath, Created, at, at)])
      ensures db.View() == Step(old(db.View()), CreateDevcontainer(id, name, localPath, at))
    {
      db.DevcontainersCreate(id, name, localPath, at);
      db.Commit();
    }

    /** The worker's socket gets the command an accepted lifecycle route sends; nothing is written. */
    twostate predicate Dispatches(r: Result<Outcome, RouteError>)
      reads db, workers
    {
      && db.View() == old(db.View()) && (r.Success? ==> r.value.db == db.View() && WORKER_SLOT in workers.connections)
      && workers.sent == old(workers.sent)
                         + if r.Success? && r.value.sent.Some? && WORKER_SLOT in workers.connections
                           then [CommandFrame(workers.connections[WORKER_SLOT], r.value.sent.value)] else []
    }

    method StartDevcontainer(devcontainer: Id) returns (error: Option<RouteError>)
      requires Valid()
      modifies workers`sent
      ensures Valid()
      ensures var route := StartDevcontainerRoute(old(db.View()), devcontainer, workers.IsConnected(WORKER_SLOT));
              Dispatches(route) && error == ErrorOf(route)
      ensures error == if devcontainer !in db.devcontainers then Some(DevcontainerNotFound)
                       else
                         var status := db.devcontainers[devcontainer].status;
                         if status.Starting? || status.Running? || status.Stopping? then Some(InvalidDevcontainerState)
                         else if "worker" !in workers.connections then Some(RuntimeUnavailable)
                         else None
      ensures error.None? ==>
                var path := db.devcontainers[devcontainer].localPath;
                var command := Command(CommandType.StartDevcontainer, Some(devcontainer), None,
                                       Some(CommandPayload(localPath := Some(path))));
                workers.sent == old(workers.sent) + [CommandFrame(workers.connections["worker"], command)]
      ensures error.Some? ==> workers.sent == old(workers.sent)
    {
      error := DispatchLifecycle(devcontainer, CommandType.StartDevcontainer,
                                 {Created, DevcontainerStatus.Stopped, Error});
    }

    method StopDevcontainer(devcontainer: Id) returns (error: Option<RouteError>)
      requires Valid()
      modifies workers`sent
      ensures Valid()
      ensures var route := StopDevcontainerRoute(old(db.View()), devcontainer, workers.IsConnected(WORKER_SLOT));
              Dispatches(route) && error == ErrorOf(route)
      ensures error == if devcontainer !in db.devcontainers then Some(DevcontainerNotFound)
                       else
                         var status := db.devcontainers[devcontainer].status;
                         if !status.Running? && !status.Error? then Some(InvalidDevcontainerState)
                         else if "worker" !in workers.connections then Some(RuntimeUnavailable)
                         else None
      ensures error.None? ==>
                var path := db.devcontainers[devcontainer].localPath;
                var command := Command(CommandType.StopDevcontainer, Some(devcontainer), None,
                                       Some(CommandPayload(localPath := Some(path))));
                workers.sent == old(workers.sent) + [CommandFrame(workers.connections["worker"], command)]
      ensures error.Some? ==> workers.sent == old(workers.sent)
    {
      error := DispatchLifecycle(devcontainer, CommandType.StopDevcontainer, {DevcontainerStatus.Running, Error});
    }

    method DispatchLifecycle(devcontainer: Id, kind: CommandType, allowedFrom: set<DevcontainerStatus>)
      returns (error: Option<RouteError>)
      requires Valid()
      modifies workers`sent
      ensures error == if devcontainer !in db.devcontainers then Some(DevcontainerNotFound)
                       else if db.devcontainers[devcontainer].status !in allowedFrom then Some(InvalidDevcontainerState)
                       else if !workers.IsConnected(WORKER_SLOT) then Some(RuntimeUnavailable)
                       else None
      ensures workers.sent == old(workers.sent)
                              + if error.None?
                                then [CommandFrame(workers.connections[WORKER_SLOT],
                                                   LifecycleCommand(db.View(), kind, devcontainer))]
                                else []
    {
      if devcontainer !in db.devcontainers {
        return Some(DevcontainerNotFound);
      }
      if db.devcontainers[devcontainer].status !in allowedFrom {
        return Some(InvalidDevcontainerState);
      }
      if !workers.IsConnected(WORKER_SLOT) {
        return Some(RuntimeUnavailable);
      }
      var _ := workers.SendCommand(LifecycleCommand(db.View(), kind, devcontainer));
      error := None;
    }

    method DeleteDevcontainerRow(devcontainer: Id) returns (error: Option<RouteError>)
      requires Valid()
      modifies db
      ensures Valid()
      ensures var route := RemoveDevcontainer(old(db.View()), devcontainer);
              Does(route) && error == ErrorOf(route)
      ensures error == if devcontainer in old(db.devcontainers) then None else Some(DevcontainerNotFound)
      ensures error.None? ==>
                && db.devcontainers == old(db.devcontainers) - {devcontainer}
                && (forall s :: s in db.sessions <==>
                                s in old(db.sessions) && old(db.sessions)[s].devcontainerId != devcontainer)
                && (forall e :: e in db.log <==>
                                e in old(db.log) && e.devcontainerId != Some(devcontainer)
                                && !(e.agentSessionId.Some?
                                     && Housed(old(db.sessions), devcontainer, e.agentSessionId.value)))
                && (forall a :: a in db.approvals <==>
                                a in old(db.approvals) && old(db.approvals)[a].devcontainerId != devcontainer
                                && !Housed(old(db.sessions), devcontainer, old(db.approvals)[a].agentSessionId))
                && (forall i :: i in db.inbox <==>
                                i in old(db.inbox) && old(db.inbox)[i].devcontainerId != devcontainer
                                && !(old(db.inbox)[i].agentSessionId.Some?
                                     && Housed(old(db.sessions), devcontainer, old(db.inbox)[i].agentSessionId.value)))
                && (forall s :: s in db.summaries <==>
                                s in old(db.summaries) && !Housed(old(db.sessions), devcontainer, s))
                && Remnant(db.View(), old(db.View()))
      ensures error.Some? ==> db.View() == old(db.View())
      ensures db.View() == Step(old(db.View()), DropDevcontainer(devcontainer))
    {
      var found := devcontainer in db.devcontainers;
      if found {
        db.DeleteCascading({devcontainer}, SessionsOf(db.View(), devcontainer));
      }
      db.Commit();
      error := if found then None else Some(DevcontainerNotFound);
    }

    method UpdateDevcontainerRow(devcontainer: Id, name: Option<string>, status: Option<DevcontainerStatus>,
                                 at: Timestamp) returns (error: Option<RouteError>)
      requires Valid()
      modifies db
      ensures Valid()
      ensures var route := PatchDevcontainer(old(db.View()), devcontainer, name, status, at);
              Does(route) && error == ErrorOf(route)
      ensures error == if devcontainer in old(db.devcontainers) then None else Some(DevcontainerNotFound)
      ensures db.View() == old(db.View()).(devcontainers := db.devcontainers)
      ensures OnlyRow(old(db.devcontainers), db.devcontainers, devcontainer)
      ensures error.None? ==>
                var was, row := old(db.devcontainers)[devcontainer], db.devcontainers[devcontainer];
                && row.name == (if name.Some? then name.value else was.name)
                && row.status == (if status.Some? then status.value else was.status)
                && row.localPath == was.localPath
      ensures db.View() == Step(old(db.View()), Patch(devcontainer, name, status, at))
    {
      var found := db.DevcontainersUpdate(devcontainer, name, status, at);
      db.Commit();
      error := if found then None else Some(DevcontainerNotFound);
    }

    method MarkInboxEventRead(item: Id, at: Timestamp) returns (error: Option<RouteError>)
      requires Valid()
      modifies db
      ensures Valid()
      ensures var route := ReadInbox(old(db.View()), item, at);
              Does(route) && error == ErrorOf(route)
      ensures error == if item in old(db.inbox) then None else Some(InboxEventNotFound)
      ensures db.View() == old(db.View()).(inbox := db.inbox) && OnlyRow(old(db.inbox), db.inbox, item)
      ensures error.None? && old(db.inbox)[item].status.Unread? ==>
                db.inbox[item] == old(db.inbox)[item].(status := InboxStatus.Read, updatedAt := at)
      ensures error.None? && !old(db.inbox)[item].status.Unread? ==> db.inbox == old(db.inbox)
      ensures db.View() == Step(old(db.View()), Action.Read(item, at))
    {
      var found := db.InboxMarkRead(item, at);
      if !found {
        return Some(InboxEventNotFound);
      }
      db.Commit();
      error := None;
    }

    method ResolveInboxEvent(item: Id, at: Timestamp) returns (error: Option<RouteError>)
      requires Valid()
      modifies db
      ensures Valid()
      ensures var route := CloseInbox(old(db.View()), item, at);
              Does(route) && error == ErrorOf(route)
      ensures error == if item in old(db.inbox) then None else Some(InboxEventNotFound)
      ensures db.View() == old(db.View()).(inbox := db.inbox) && OnlyRow(old(db.inbox), db.inbox, item)
      ensures error.None? ==>
                db.inbox[item] == old(db.inbox)[item].(status := InboxStatus.Resolved, updatedAt := at)
      ensures db.View() == Step(old(db.View()), Close(item, at))
    {
      var found := db.InboxResolve(item, at);
      if !found {
        return Some(InboxEventNotFound);
      }
      db.Commit();
      error := None;
    }
  }
}
