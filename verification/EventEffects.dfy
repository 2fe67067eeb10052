/** What taking in one event of each type makes of the database, and what it broadcasts: the reducer's
    table, said outright. */
module EventEffects {
  import opened Vocabulary
  import opened Tables
  import opened Reducer
  import opened Intake

  function Named(id: Option<Id>): seq<Id> {
    if id.Some? && id.value != "" then [id.value] else []
  }

  /** The ids of an inbox invalidation: the session's, or the devcontainer's if there is no session. */
  function NamedOwner(e: RuntimeEvent): seq<Id> {
    if Named(e.agentSessionId) != [] then Named(e.agentSessionId) else Named(e.devcontainerId)
  }

  /** The log with the event as it is recorded: under a new id and at the time of its intake. */
  function Logged(db: Db, e: RuntimeEvent, s: Stamps): seq<RuntimeEvent> {
    db.log + [e.(id := s.eventId, createdAt := s.eventAt)]
  }

  function WithStatus(db: Db, e: RuntimeEvent, status: SessionStatus, s: Stamps): map<Id, AgentSession> {
    if e.agentSessionId.Some? then SetStatus(db.sessions, e.agentSessionId.value, status, s.sessionAt) else db.sessions
  }

  function WithItem(inbox: map<Id, InboxRow>, e: RuntimeEvent, approval: Option<Id>, kind: InboxEventType,
                    content: Option<string>, s: Stamps): map<Id, InboxRow>
  {
    if e.devcontainerId.Some? then
      inbox[s.inboxId := InboxRow(e.devcontainerId.value, e.agentSessionId, approval, kind, Unread, content, s.inboxAt,
                                  s.inboxAt)]
    else inbox
  }

  function WithSummary(db: Db, e: RuntimeEvent, status: SessionStatus, text: Option<string>, s: Stamps)
    : map<Id, Summary>
    requires RefersTo(e.agentSessionId, db.sessions)
  {
    if e.agentSessionId.None? then db.summaries
    else
      var session := e.agentSessionId.value;
      UpsertSummary(db.summaries, session,
                    Summary(s.summaryId, status, db.sessions[session].startedAt, Some(s.eventAt), Some(e.eventType),
                            text, s.summaryAt))
  }

  /** Refused events leave no trace. */
  lemma RefusedEvent(db: Db, e: RuntimeEvent, s: Stamps)
    requires Persist(db, e, s).Failure?
    ensures AfterIntake(db, e, s) == db && Published(db, e, s) == []
  {
  }

  lemma DevcontainerReported(db: Db, e: RuntimeEvent, s: Stamps, status: DevcontainerStatus)
    requires Persist(db, e, s).Success?
    requires || (e.eventType.DevcontainerStarting? && status.Starting?)
             || (e.eventType.DevcontainerStarted? && status.Running?)
             || (e.eventType.DevcontainerStopping? && status.Stopping?)
             || (e.eventType.DevcontainerStopped? && status.Stopped?)
             || (e.eventType.DevcontainerFailed? && status.Error?)
    ensures AfterIntake(db, e, s)
            == db.(log := Logged(db, e, s),
                   devcontainers :=
                     if e.devcontainerId.Some?
                     then UpdateDevcontainer(db.devcontainers, e.devcontainerId.value, None, Some(status),
                                             s.devcontainerAt)
                     else db.devcontainers)
    ensures Published(db, e, s) == [SseEvent(Devcontainers, Named(e.devcontainerId))]
  {
  }

  lemma SessionReported(db: Db, e: RuntimeEvent, s: Stamps)
    requires Persist(db, e, s).Success? && e.eventType.AgentSessionStarted?
    ensures AfterIntake(db, e, s)
            == db.(log := Logged(db, e, s), sessions := WithStatus(db, e, SessionStatus.Running, s))
    ensures Published(db, e, s) == [SseEvent(AgentSessions, Named(e.agentSessionId))]
  {
  }

  /** A pending approval of the session's own devcontainer, and an unread item linked to it. */
  lemma ApprovalAsked(db: Db, e: RuntimeEvent, s: Stamps)
    requires Persist(db, e, s).Success? && e.eventType.ApprovalRequested?
    ensures RefersTo(e.agentSessionId, db.sessions)
    ensures
      var asked := if e.payload.Some? then e.payload.value.requestedAction else None;
      var action := if asked.Some? then asked.value else "";
      var approval := if e.agentSessionId.Some? then Some(s.approvalId) else None;
      AfterIntake(db, e, s)
      == db.(log := Logged(db, e, s),
             sessions := WithStatus(db, e, WaitingForApproval, s),
             approvals :=
               if e.agentSessionId.Some?
               then db.approvals[s.approvalId :=
                 Approval(db.sessions[e.agentSessionId.value].devcontainerId, e.agentSessionId.value,
                          ApprovalStatus.Pending, action, s.approvalAt, None)]
               else db.approvals,
             inbox := WithItem(db.inbox, e, approval, ApprovalRequest, None, s))
    ensures Published(db, e, s) == [SseEvent(AgentSessions, Named(e.agentSessionId)), SseEvent(Approvals, []),
                                    SseEvent(Inbox, NamedOwner(e))]
  {
  }

  /** The approval gets the decision, its linked item is resolved with it, the session goes on. */
  lemma ApprovalDecided(db: Db, e: RuntimeEvent, s: Stamps)
    requires Persist(db, e, s).Success? && e.eventType.ApprovalResolved?
    ensures e.payload.Some?
    ensures e.payload.value.resolution == Some("approved") || e.payload.value.resolution == Some("rejected")
    ensures
      var target := e.payload.value.approvalRequestId;
      var status := if e.payload.value.resolution == Some("approved") then Approved else Rejected;
      && AfterIntake(db, e, s)
         == db.(log := Logged(db, e, s),
                sessions := WithStatus(db, e, SessionStatus.Running, s),
                approvals := if target.Some? then ResolveApprovalRow(db.approvals, target.value, status, s.decidedAt)
                             else db.approvals,
                inbox := if target.Some? && target.value in db.approvals && s.linked.Some?
                         then ResolveInboxRow(db.inbox, s.linked.value, s.linkedAt) else db.inbox)
      && Published(db, e, s) == [SseEvent(AgentSessions, Named(e.agentSessionId)), SseEvent(Approvals, Named(target)),
                                 SseEvent(Inbox, NamedOwner(e))]
  {
  }

  lemma QuestionAsked(db: Db, e: RuntimeEvent, s: Stamps)
    requires Persist(db, e, s).Success? && e.eventType.AgentAskedQuestion?
    ensures
      var question := if e.payload.Some? then e.payload.value.question else None;
      AfterIntake(db, e, s)
      == db.(log := Logged(db, e, s), inbox := WithItem(db.inbox, e, None, Question, question, s))
    ensures Published(db, e, s) == [SseEvent(Inbox, NamedOwner(e))]
  {
  }

  lemma InputConfirmed(db: Db, e: RuntimeEvent, s: Stamps)
    requires Persist(db, e, s).Success? && e.eventType.UserInputSent?
    ensures
      var item := if e.payload.Some? then e.payload.value.inboxEventId else None;
      && AfterIntake(db, e, s)
         == db.(log := Logged(db, e, s),
                inbox := if item.Some? then ResolveInboxRow(db.inbox, item.value, s.resolvedAt) else db.inbox)
      && Published(db, e, s) == [SseEvent(Inbox, if Named(item) != [] then Named(item) else NamedOwner(e))]
  {
  }

  /** A completed session shows its result, a failed one the end of its error output: both in the inbox
      and in the summary. */
  lemma SessionEnded(db: Db, e: RuntimeEvent, s: Stamps, status: SessionStatus, kind: InboxEventType,
                     text: Option<string>)
    requires Persist(db, e, s).Success?
    requires || (e.eventType.SessionCompleted? && status.Completed? && kind.Completion?
                 && text == if e.payload.Some? then e.payload.value.result else None)
             || (e.eventType.SessionFailed? && status.Failed? && kind.FailureReport?
                 && text == if e.payload.Some? then e.payload.value.stderrTail else None)
    ensures RefersTo(e.agentSessionId, db.sessions)
    ensures AfterIntake(db, e, s)
            == db.(log := Logged(db, e, s),
                   sessions := WithStatus(db, e, status, s),
                   inbox := WithItem(db.inbox, e, None, kind, text, s),
                   summaries := WithSummary(db, e, status, text, s))
    ensures Published(db, e, s)
            == [SseEvent(AgentSessions, Named(e.agentSessionId)), SseEvent(Inbox, NamedOwner(e))]
  {
  }

  /** A stop was asked for, so it is not news for the inbox. */
  lemma SessionHalted(db: Db, e: RuntimeEvent, s: Stamps)
    requires Persist(db, e, s).Success? && e.eventType.SessionStopped?
    ensures RefersTo(e.agentSessionId, db.sessions)
    ensures AfterIntake(db, e, s)
            == db.(log := Logged(db, e, s),
                   sessions := WithStatus(db, e, SessionStatus.Stopped, s),
                   summaries := WithSummary(db, e, SessionStatus.Stopped, None, s))
    ensures Published(db, e, s) == [SseEvent(AgentSessions, Named(e.agentSessionId))]
  {
  }
}
