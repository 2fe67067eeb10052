/** The database as the control plane uses it: one connection whose tables the repositories
    rewrite in place, committed or rolled back as a whole. Each method is proved to do what the
    value-level function of the same purpose says. */
module Store {
  import opened Vocabulary
  import opened Tables
  import opened Reducer
  import opened Intake
  import opened Routes
  import B = Broadcaster

  /** What the lookups of a projection find is not moved by its earlier statements. */
  lemma SameResolutions(before: Db, middle: Db, u: ProjectionUpdates, s: Stamps)
    requires middle.inbox == before.inbox && (u.resolveApproval.Some? ==> middle.approvals == before.approvals)
    ensures ResolvedInbox(middle, u, s) == ResolvedInbox(before, u, s)
  {
  }

  lemma SameSummaries(before: Db, late: Db, e: RuntimeEvent, u: ProjectionUpdates, s: Stamps)
    requires late.summaries == before.summaries && late.sessions == SessionsAfter(before.sessions, e, u, s)
    ensures SummariesAfter(late, e, u, s) == SummariesAfter(before, e, u, s)
  {
  }

  /** From a key-intact database the outcome of an intake does not depend on what its lookup finds. */
  lemma IntakeIsRefusedFor(db: Db, e: RuntimeEvent, s: Stamps)
    ensures ForeignKeys(db) ==>
              forall linked :: Persist(db, e, s.(linked := linked)).Success? <==> Acceptable(db, e)
  {
    if ForeignKeys(db) {
      forall linked ensures Persist(db, e, s.(linked := linked)).Success? <==> Acceptable(db, e) {
        IntakeSucceedsExactly(db, e, s.(linked := linked));
      }
    }
  }

  class Connection {
    var devcontainers: map<Id, Devcontainer>
    var sessions: map<Id, AgentSession>
    var log: seq<RuntimeEvent>
    var approvals: map<Id, Approval>
    var inbox: map<Id, InboxRow>
    var summaries: map<Id, Summary>
    var committed: Db

    /** The tables as this connection sees them, its own uncommitted writes included. */
    function View(): Db
      reads this
    {
      Db(devcontainers, sessions, log, approvals, inbox, summaries)
    }

    constructor ()
      ensures View() == committed == EMPTY_DB
    {
      devcontainers, sessions, log, approvals, inbox, summaries := map[], map[], [], map[], map[], map[];
      committed := EMPTY_DB;
    }

    method Commit()
      modifies this`committed
      ensures committed == View()
    {
      committed := View();
    }

    /** Closing a connection without a commit. */
    method Rollback()
      modifies this
      ensures View() == committed == old(committed)
    {
      devcontainers, sessions, log := committed.devcontainers, committed.sessions, committed.log;
      approvals, inbox, summaries := committed.approvals, committed.inbox, committed.summaries;
    }

    // -------------------------------------------------------------- repositories

    method DevcontainersUpdate(id: Id, name: Option<string>, status: Option<DevcontainerStatus>, at: Timestamp)
      returns (found: bool)
      modifies this`devcontainers
      ensures devcontainers == UpdateDevcontainer(old(devcontainers), id, name, status, at)
      ensures found <==> id in old(devcontainers)
      ensures OnlyRow(old(devcontainers), devcontainers, id)
      ensures found ==>
                var was, row := old(devcontainers)[id], devcontainers[id];
                && row.name == (if name.Some? then name.value else was.name)
                && row.status == (if status.Some? then status.value else was.status)
                && row.updatedAt == (if name.Some? || status.Some? then at else was.updatedAt)
                && row.localPath == was.localPath && row.createdAt == was.createdAt
    {
      found := id in devcontainers;
      if !found || (name.None? && status.None?) {
        return;
      }
      var row := devcontainers[id];
      if name.Some? {
        row := row.(name := name.value);
      }
      if status.Some? {
        row := row.(status := status.value);
      }
      devcontainers := devcontainers[id := row.(updatedAt := at)];
    }

    method DevcontainersCreate(id: Id, name: string, localPath: string, at: Timestamp)
      modifies this`devcontainers
      ensures devcontainers == old(devcontainers)[id := Devcontainer(name, localPath, Created, at, at)]
    {
      devcontainers := devcontainers[id := Devcontainer(name, localPath, Created, at, at)];
    }

    /** The session's other columns, its prompt and start time among them, are kept. */
    method SessionsSetStatus(id: Id, status: SessionStatus, at: Timestamp)
      modifies this`sessions
      ensures sessions == SetStatus(old(sessions), id, status, at)
      ensures OnlyRow(old(sessions), sessions, id)
      ensures id in old(sessions) ==>
                sessions[id].status == status
                && sessions[id].updatedAt == at && sessions[id].lastEventAt == Some(at)
                && old(sessions)[id] == sessions[id].(status := old(sessions)[id].status,
                                                      updatedAt := old(sessions)[id].updatedAt,
                                                      lastEventAt := old(sessions)[id].lastEventAt)
    {
      if id in sessions {
        sessions := sessions[id := sessions[id].(status := status, updatedAt := at, lastEventAt := Some(at))];
      }
    }

    method SessionsCreate(id: Id, devcontainer: Id, prompt: Option<string>, at: Timestamp)
      modifies this`sessions
      ensures sessions == old(sessions)[id := NewSession(devcontainer, prompt, at)]
      ensures sessions[id].devcontainerId == devcontainer && sessions[id].prompt == prompt
      ensures sessions[id].status.Starting? && sessions[id].createdAt == sessions[id].updatedAt == at
      ensures sessions[id].startedAt.None? && sessions[id].endedAt.None? && sessions[id].lastEventAt.None?
    {
      sessions := sessions[id := AgentSession(devcontainer, SessionStatus.Starting, prompt, None, None, None, at, at)];
    }

    method GetActive(devcontainer: Id) returns (active: Option<Id>)
      ensures active.Some? ==> Owns(View(), devcontainer, active.value) && Active(sessions[active.value].status)
      ensures active.Some? <==> HasActive(View(), devcontainer)
      ensures active.None? ==> forall s | s in sessions && sessions[s].devcontainerId == devcontainer ::
                sessions[s].status.Completed? || sessions[s].status.Failed? || sessions[s].status.Stopped?
    {
      if s :| s in sessions && sessions[s].devcontainerId == devcontainer && Active(sessions[s].status) {
        active := Some(s);
      } else {
        active := None;
      }
    }

    /** A DELETE on sessions or devcontainers with the cascades that SQLite runs for it. */
    method DeleteCascading(deadDevcontainers: set<Id>, deadSessions: set<Id>)
      modifies this
      ensures committed == old(committed)
      ensures View() == DeleteRows(old(View()), deadDevcontainers, deadSessions)
    {
      devcontainers := devcontainers - deadDevcontainers;
      sessions := sessions - deadSessions;
      summaries := summaries - deadSessions;
      approvals := map a | a in approvals && ApprovalSurvives(approvals[a], deadDevcontainers, deadSessions)
        :: approvals[a];
      inbox := map i | i in inbox && InboxSurvives(inbox[i], deadDevcontainers, deadSessions)
        :: SetNull(inbox[i], approvals);
      DeleteEvents(deadDevcontainers, deadSessions);
    }

    method DeleteEvents(deadDevcontainers: set<Id>, deadSessions: set<Id>)
      modifies this`log
      ensures log == SurvivingLog(old(log), deadDevcontainers, deadSessions)
    {
      var kept, i := [], 0;
      while i < |log|
        invariant 0 <= i <= |log|
        invariant kept == SurvivingLog(log[..i], deadDevcontainers, deadSessions)
      {
        assert log[..i + 1][..i] == log[..i];
        if EventSurvives(log[i], deadDevcontainers, deadSessions) {
          kept := kept + [log[i]];
        }
        i := i + 1;
      }
      assert log[..i] == log;
      log := kept;
    }

    method EventsRecord(e: RuntimeEvent) returns (r: Result<(), DbError>)
      modifies this`log
      ensures r.Success? <==> EventKeys(old(View()), e)
      ensures r.Success? <==> (e.devcontainerId.Some? ==> e.devcontainerId.value in devcontainers)
                              && (e.agentSessionId.Some? ==> e.agentSessionId.value in sessions)
      ensures log == if r.Success? then old(log) + [e] else old(log)
    {
      if !EventKeys(View(), e) {
        return Failure(ForeignKeyViolation);
      }
      log := log + [e];
      r := Success(());
    }

    method ApprovalsCreate(id: Id, row: Approval) returns (r: Result<(), DbError>)
      modifies this`approvals
      ensures r.Success? <==> ApprovalKeys(old(View()), row)
      ensures r.Success? <==> row.devcontainerId in devcontainers && row.agentSessionId in sessions
      ensures approvals == if r.Success? then old(approvals)[id := row] else old(approvals)
    {
      if !ApprovalKeys(View(), row) {
        return Failure(ForeignKeyViolation);
      }
      approvals := approvals[id := row];
      r := Success(());
    }

    method ApprovalsResolve(id: Id, status: ApprovalStatus, at: Timestamp)
      modifies this`approvals
      ensures approvals == ResolveApprovalRow(old(approvals), id, status, at)
      ensures OnlyRow(old(approvals), approvals, id)
      ensures id in old(approvals) ==>
                approvals[id].status == status && approvals[id].decidedAt == Some(at)
                && old(approvals)[id] == approvals[id].(status := old(approvals)[id].status,
                                                        decidedAt := old(approvals)[id].decidedAt)
    {
      if id in approvals {
        approvals := approvals[id := approvals[id].(status := status, decidedAt := Some(at))];
      }
    }

    method InboxCreate(id: Id, row: InboxRow) returns (r: Result<(), DbError>)
      modifies this`inbox
      ensures r.Success? <==> InboxKeys(old(View()), row)
      ensures r.Success? <==> row.devcontainerId in devcontainers
                              && (row.agentSessionId.Some? ==> row.agentSessionId.value in sessions)
                              && (row.approvalRequestId.Some? ==> row.approvalRequestId.value in approvals)
      ensures inbox == if r.Success? then old(inbox)[id := row] else old(inbox)
    {
      if !InboxKeys(View(), row) {
        return Failure(ForeignKeyViolation);
      }
      inbox := inbox[id := row];
      r := Success(());
    }

    /** A SELECT without ORDER BY: any linked row may come first. */
    method InboxGetByApproval(approval: Id) returns (linked: Option<Id>)
      ensures AnswersGetByApproval(inbox, approval, linked)
      ensures linked.Some? ==> linked.value in inbox && inbox[linked.value].approvalRequestId == Some(approval)
      ensures linked.None? ==> forall i | i in inbox :: inbox[i].approvalRequestId != Some(approval)
    {
      if i :| i in inbox && IsLinked(inbox, i, approval) {
        linked := Some(i);
      } else {
        linked := None;
      }
    }

    method InboxResolve(id: Id, at: Timestamp) returns (found: bool)
      modifies this`inbox
      ensures inbox == ResolveInboxRow(old(inbox), id, at)
      ensures found <==> id in old(inbox)
      ensures OnlyRow(old(inbox), inbox, id)
      ensures found ==> inbox[id].status.Resolved? && inbox[id].updatedAt == at && SameItem(inbox[id], old(inbox)[id])
    {
      found := id in inbox;
      if found {
        inbox := inbox[id := inbox[id].(status := InboxStatus.Resolved, updatedAt := at)];
      }
    }

    method InboxMarkRead(id: Id, at: Timestamp) returns (found: bool)
      modifies this`inbox
      ensures inbox == MarkRead(old(inbox), id, at)
      ensures found <==> id in old(inbox)
      ensures OnlyRow(old(inbox), inbox, id)
      ensures found && old(inbox)[id].status.Unread? ==>
                inbox[id].status.Read? && inbox[id].updatedAt == at && SameItem(inbox[id], old(inbox)[id])
      ensures found && !old(inbox)[id].status.Unread? ==> inbox[id] == old(inbox)[id]
    {
      found := id in inbox;
      if found && inbox[id].status.Unread? {
        inbox := inbox[id := inbox[id].(status := InboxStatus.Read, updatedAt := at)];
      }
    }

    method SummariesUpsert(session: Id, row: Summary) returns (r: Result<(), DbError>)
      modifies this`summaries
      ensures r.Success? <==> session in old(summaries) || session in sessions
      ensures summaries == if r.Success? then UpsertSummary(old(summaries), session, row) else old(summaries)
      ensures r.Success? && session in old(summaries) ==>
                OnlyRow(old(summaries), summaries, session)
                && summaries[session].id == old(summaries)[session].id
                && summaries[session].createdAt == old(summaries)[session].createdAt
                && summaries[session] == row.(id := old(summaries)[session].id,
                                              createdAt := old(summaries)[session].createdAt)
      ensures r.Success? && session !in old(summaries) ==> summaries == old(summaries)[session := row]
    {
      if session in summaries {
        var existing := summaries[session];
        summaries := summaries[session := existing.(
                                 finalStatus := row.finalStatus, startedAt := row.startedAt, endedAt := row.endedAt,
                                 lastKnownEvent := row.lastKnownEvent, summaryText := row.summaryText)];
      } else if session in sessions {
        summaries := summaries[session := row];
      } else {
        return Failure(ForeignKeyViolation);
      }
      r := Success(());
    }

    // -------------------------------------------------------------- projection and intake

    method ProjectStatuses(e: RuntimeEvent, u: ProjectionUpdates, s: Stamps)
      modifies this`devcontainers, this`sessions
      ensures devcontainers == DevcontainersAfter(old(devcontainers), e, u, s)
      ensures sessions == SessionsAfter(old(sessions), e, u, s)
    {
      if u.devcontainerStatus.Some? && e.devcontainerId.Some? {
        var _ := DevcontainersUpdate(e.devcontainerId.value, None, u.devcontainerStatus, s.devcontainerAt);
      }
      if u.sessionStatus.Some? && e.agentSessionId.Some? {
        SessionsSetStatus(e.agentSessionId.value, u.sessionStatus.value, s.sessionAt);
      }
    }

    method ProjectNewApproval(e: RuntimeEvent, u: ProjectionUpdates, s: Stamps)
      returns (r: Result<(), DbError>, created: Option<Id>)
      modifies this`approvals
      ensures r.Success? <==> CreatesApproval(old(View()), e, u) ==>
                                sessions[e.agentSessionId.value].devcontainerId in devcontainers
      ensures r.Success? ==>
                if CreatesApproval(old(View()), e, u) then
                  created == Some(s.approvalId)
                  && approvals == old(approvals)[s.approvalId := NewApproval(old(View()), e, u, s)]
                else created == None && approvals == old(approvals)
    {
      created := None;
      if u.createApproval && e.agentSessionId.Some? {
        if e.agentSessionId.value in sessions {
          var session := e.agentSessionId.value;
          r := ApprovalsCreate(s.approvalId, Approval(sessions[session].devcontainerId, session, Pending,
                                                      u.requestedAction, s.approvalAt, None));
          created := Some(s.approvalId);
          return;
        }
      }
      r := Success(());
    }

    method ProjectResolutions(e: RuntimeEvent, u: ProjectionUpdates, s: Stamps) returns (linked: Option<Id>)
      modifies this`approvals, this`inbox
      ensures u.resolveApproval.Some? && u.resolveApprovalId.Some? && u.resolveApprovalId.value in old(approvals)
              && u.resolveLinkedInbox ==>
                AnswersGetByApproval(old(inbox), u.resolveApprovalId.value, linked)
      ensures approvals == if u.resolveApproval.Some? && u.resolveApprovalId.Some?
                           then ResolveApprovalRow(old(approvals), u.resolveApprovalId.value, u.resolveApproval.value,
                                                   s.decidedAt)
                           else old(approvals)
      ensures inbox == ResolvedInbox(old(View()), u, s.(linked := linked))
    {
      linked := None;
      if u.resolveApproval.Some? && u.resolveApprovalId.Some? {
        if u.resolveApprovalId.value in approvals {
          ApprovalsResolve(u.resolveApprovalId.value, u.resolveApproval.value, s.decidedAt);
          if u.resolveLinkedInbox {
            linked := InboxGetByApproval(u.resolveApprovalId.value);
            if linked.Some? {
              var _ := InboxResolve(linked.value, s.linkedAt);
            }
          }
        }
      }
      if u.resolveInboxEventId.Some? {
        var _ := InboxResolve(u.resolveInboxEventId.value, s.resolvedAt);
      }
    }

    method ProjectNewRows(e: RuntimeEvent, u: ProjectionUpdates, created: Option<Id>, s: Stamps)
      returns (r: Result<(), DbError>)
      requires RefersTo(created, approvals)
      modifies this`inbox, this`summaries
      ensures r.Success? <==>
              && (CreatesInbox(e, u) ==>
                    e.devcontainerId.value in devcontainers && RefersTo(e.agentSessionId, sessions))
              && (u.finalStatus.Some? && e.agentSessionId.Some? ==>
                    e.agentSessionId.value in old(summaries) || e.agentSessionId.value in sessions)
      ensures r.Success? ==>
                inbox == if CreatesInbox(e, u)
                         then old(inbox)[s.inboxId := InboxRow(e.devcontainerId.value, e.agentSessionId, created,
                                                               u.inboxEventType.value, Unread, u.inboxContent,
                                                               s.inboxAt, s.inboxAt)]
                         else old(inbox)
      ensures r.Success? ==> summaries == SummariesAfter(old(View()), e, u, s)
    {
      if u.inboxEventType.Some? && e.devcontainerId.Some? {
        var _ :- InboxCreate(s.inboxId, InboxRow(e.devcontainerId.value, e.agentSessionId, created,
                                                 u.inboxEventType.value, Unread, u.inboxContent, s.inboxAt, s.inboxAt));
      }
      if u.finalStatus.Some? && e.agentSessionId.Some? {
        var session := e.agentSessionId.value;
        var startedAt := if session in sessions then sessions[session].startedAt else None;
        r := SummariesUpsert(session, Summary(s.summaryId, u.finalStatus.value, startedAt, Some(e.createdAt),
                                              Some(e.eventType), u.summaryText, s.summaryAt));
      } else {
        r := Success(());
      }
    }

    /** The writes of `project`, statement by statement. `linked` reports the row its lookup returned. */
    method ApplyUpdates(e: RuntimeEvent, u: ProjectionUpdates, s: Stamps)
      returns (r: Result<(), DbError>, linked: Option<Id>)
      requires s.approvalId !in approvals && !(u.createApproval && u.resolveApproval.Some?)
      requires u.resolveLinkedInbox <==> u.resolveApproval.Some?
      modifies this`devcontainers, this`sessions, this`approvals, this`inbox, this`summaries
      ensures r.Success? && u.resolveApproval.Some? && u.resolveApprovalId.Some?
              && u.resolveApprovalId.value in old(approvals) ==>
                AnswersGetByApproval(old(inbox), u.resolveApprovalId.value, linked)
      ensures r.Success? <==> Apply(old(View()), e, u, s.(linked := linked)).Success?
      ensures r.Success? ==> View() == Apply(old(View()), e, u, s.(linked := linked)).value
    {
      linked := None;
      ghost var before := View();
      ProjectStatuses(e, u, s);
      var created;
      r, created := ProjectNewApproval(e, u, s);
      if r.Failure? {
        return;
      }
      ghost var middle := View();
      linked := ProjectResolutions(e, u, s);
      SameResolutions(before, middle, u, s.(linked := linked));
      ghost var late := View();
      r := ProjectNewRows(e, u, created, s);
      SameSummaries(before, late, e, u, s);
    }

    method RunProjection(e: RuntimeEvent, s: Stamps) returns (r: Result<(), DbError>, linked: Option<Id>)
      requires s.approvalId !in approvals
      modifies this`devcontainers, this`sessions, this`approvals, this`inbox, this`summaries
      ensures r.Success? ==> ValidAnswer(old(View()), e, s.(linked := linked))
      ensures r.Success? <==> Project(old(View()), e, s.(linked := linked)).Success?
      ensures r.Success? ==> View() == Project(old(View()), e, s.(linked := linked)).value
    {
      linked := None;
      var u :- Reduce(e);
      UpdateShape(e);
      r, linked := ApplyUpdates(e, u, s);
    }

    /** Record, project, commit, then publish; a failure closes the connection with nothing
        committed and nothing published. */
    method PersistRuntimeEvent(e: RuntimeEvent, s: Stamps, broadcaster: B.Broadcaster?)
      returns (r: Result<(), DbError>, linked: Option<Id>)
      requires View() == committed && s.approvalId !in approvals
      requires broadcaster != null ==> broadcaster.Valid()
      modifies this, if broadcaster == null then {} else set q | q in broadcaster.queues
      ensures View() == committed == AfterIntake(old(committed), e, s.(linked := linked))
      ensures r.Success? <==> Persist(old(committed), e, s.(linked := linked)).Success?
      ensures r.Success? ==> ValidAnswer(old(committed), e, s.(linked := linked))
      ensures r.Success? ==> log == old(committed.log) + [e.(id := s.eventId, createdAt := s.eventAt)]
      ensures r.Failure? ==> View() == old(committed)
      ensures ForeignKeys(old(committed)) ==>
                (r.Success? <==>
                 && (e.devcontainerId.Some? ==> e.devcontainerId.value in old(committed.devcontainers))
                 && (e.agentSessionId.Some? ==> e.agentSessionId.value in old(committed.sessions))
                 && (e.eventType.ApprovalResolved? ==>
                       e.payload.Some?
                       && (e.payload.value.resolution == Some("approved")
                           || e.payload.value.resolution == Some("rejected"))))
      ensures r.Failure? && broadcaster != null ==> forall q | q in broadcaster.queues :: q.items == old(q.items)
      ensures broadcaster != null ==> forall q | q in broadcaster.queues ::
                q.items == old(q.items) + Published(old(committed), e, s.(linked := linked))
    {
      linked := None;
      IntakeIsRefusedFor(committed, e, s);
      var recorded := e.(id := s.eventId, createdAt := s.eventAt);
      r := EventsRecord(recorded);
      if r.Failure? {
        Rollback();
        return;
      }
      r, linked := RunProjection(recorded, s);
      if r.Failure? {
        Rollback();
        return;
      }
      Commit();
      if broadcaster != null {
        broadcaster.PublishAll(InvalidationsFor(recorded).value);
      }
    }
  }
}
