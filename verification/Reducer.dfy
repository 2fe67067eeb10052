/** The projection reducer: from a runtime event to its read-model writes and its browser
    invalidations. */
module Reducer {
  import opened Vocabulary
  import opened Tables

  datatype ProjectionUpdates = ProjectionUpdates(
    nameonly devcontainerStatus: Option<DevcontainerStatus> := None,
    nameonly sessionStatus: Option<SessionStatus> := None,
    nameonly createApproval: bool := false,
    nameonly requestedAction: string := "",
    nameonly resolveApproval: Option<ApprovalStatus> := None,
    nameonly resolveApprovalId: Option<Id> := None,
    nameonly inboxEventType: Option<InboxEventType> := None,
    nameonly inboxContent: Option<string> := None,
    nameonly resolveLinkedInbox: bool := false,
    nameonly resolveInboxEventId: Option<Id> := None,
    nameonly finalStatus: Option<SessionStatus> := None,
    nameonly summaryText: Option<string> := None)

  function InboxEventTypeFor(t: EventType): Option<InboxEventType> {
    match t
    case AgentAskedQuestion => Some(Question)
    case ApprovalRequested => Some(ApprovalRequest)
    case SessionCompleted => Some(Completion)
    case SessionFailed => Some(FailureReport)
    case _ => None
  }

  /** What an event of this type says its devcontainer has become. */
  function DevcontainerNews(t: EventType): Option<DevcontainerStatus> {
    match t
    case DevcontainerStarting => Some(DevcontainerStatus.Starting)
    case DevcontainerStarted => Some(DevcontainerStatus.Running)
    case DevcontainerStopping => Some(Stopping)
    case DevcontainerStopped => Some(DevcontainerStatus.Stopped)
    case DevcontainerFailed => Some(Error)
    case _ => None
  }

  /** What an event of this type says its session has become. */
  function SessionNews(t: EventType): Option<SessionStatus> {
    match t
    case AgentSessionStarted => Some(SessionStatus.Running)
    case ApprovalRequested => Some(WaitingForApproval)
    case ApprovalResolved => Some(SessionStatus.Running)
    case SessionCompleted => Some(Completed)
    case SessionFailed => Some(Failed)
    case SessionStopped => Some(SessionStatus.Stopped)
    case _ => None
  }

  function PayloadOf(e: RuntimeEvent): Payload {
    if e.payload.Some? then e.payload.value else Payload()
  }

  function ParseResolution(resolution: Option<string>): Option<ApprovalStatus> {
    if resolution == Some("approved") then Some(Approved)
    else if resolution == Some("rejected") then Some(Rejected)
    else None
  }

  /** The one event the reducer refuses. */
  predicate HasBadResolution(e: RuntimeEvent) {
    e.eventType.ApprovalResolved? && ParseResolution(PayloadOf(e).resolution).None?
  }

  function Reduce(e: RuntimeEvent): Result<ProjectionUpdates, DbError> {
    var payload := PayloadOf(e);
    var inboxType := InboxEventTypeFor(e.eventType);
    match e.eventType
    case DevcontainerStarting =>
      Success(ProjectionUpdates(devcontainerStatus := Some(DevcontainerStatus.Starting)))
    case DevcontainerStarted =>
      Success(ProjectionUpdates(devcontainerStatus := Some(DevcontainerStatus.Running)))
    case DevcontainerStopping =>
      Success(ProjectionUpdates(devcontainerStatus := Some(Stopping)))
    case DevcontainerStopped =>
      Success(ProjectionUpdates(devcontainerStatus := Some(DevcontainerStatus.Stopped)))
    case DevcontainerFailed =>
      Success(ProjectionUpdates(devcontainerStatus := Some(Error)))
    case AgentSessionStarted =>
      Success(ProjectionUpdates(sessionStatus := Some(SessionStatus.Running)))
    case ApprovalRequested =>
      Success(ProjectionUpdates(
                sessionStatus := Some(WaitingForApproval),
                createApproval := true,
                requestedAction := if payload.requestedAction.Some? then payload.requestedAction.value else "",
                inboxEventType := inboxType))
    case ApprovalResolved =>
      var resolution := ParseResolution(payload.resolution);
      if resolution.None? then Failure(BadResolution)
      else Success(ProjectionUpdates(
                     sessionStatus := Some(SessionStatus.Running),
                     resolveApproval := resolution,
                     resolveApprovalId := payload.approvalRequestId,
                     resolveLinkedInbox := true))
    case AgentAskedQuestion =>
      Success(ProjectionUpdates(inboxEventType := inboxType, inboxContent := payload.question))
    case UserInputSent =>
      Success(ProjectionUpdates(resolveInboxEventId := payload.inboxEventId))
    case SessionCompleted =>
      Success(ProjectionUpdates(
                sessionStatus := Some(Completed),
                finalStatus := Some(Completed),
                inboxEventType := inboxType,
                inboxContent := payload.result,
                summaryText := payload.result))
    case SessionFailed =>
      Success(ProjectionUpdates(
                sessionStatus := Some(Failed),
                finalStatus := Some(Failed),
                inboxEventType := inboxType,
                inboxContent := payload.stderrTail,
                summaryText := payload.stderrTail))
    case SessionStopped =>
      Success(ProjectionUpdates(
                sessionStatus := Some(SessionStatus.Stopped),
                finalStatus := Some(SessionStatus.Stopped)))
  }

  // ---------------------------------------------------------------- project, table by table

  function DevcontainersAfter(table: map<Id, Devcontainer>, e: RuntimeEvent, u: ProjectionUpdates, s: Stamps)
    : map<Id, Devcontainer>
  {
    if u.devcontainerStatus.Some? && e.devcontainerId.Some? then
      UpdateDevcontainer(table, e.devcontainerId.value, None, u.devcontainerStatus, s.devcontainerAt)
    else table
  }

  function SessionsAfter(table: map<Id, AgentSession>, e: RuntimeEvent, u: ProjectionUpdates, s: Stamps)
    : map<Id, AgentSession>
  {
    if u.sessionStatus.Some? && e.agentSessionId.Some? then
      SetStatus(table, e.agentSessionId.value, u.sessionStatus.value, s.sessionAt)
    else table
  }

  /** Out-of-order events are tolerated: no approval if the session is not there yet. */
  predicate CreatesApproval(db: Db, e: RuntimeEvent, u: ProjectionUpdates) {
    u.createApproval && e.agentSessionId.Some? && e.agentSessionId.value in db.sessions
  }

  function NewApproval(db: Db, e: RuntimeEvent, u: ProjectionUpdates, s: Stamps): Approval
    requires CreatesApproval(db, e, u)
  {
    var session := e.agentSessionId.value;
    Approval(db.sessions[session].devcontainerId, session, Pending, u.requestedAction, s.approvalAt, None)
  }

  function ApprovalsAfter(db: Db, e: RuntimeEvent, u: ProjectionUpdates, s: Stamps): map<Id, Approval> {
    var table := if CreatesApproval(db, e, u) then db.approvals[s.approvalId := NewApproval(db, e, u, s)]
                 else db.approvals;
    if u.resolveApproval.Some? && u.resolveApprovalId.Some? then
      ResolveApprovalRow(table, u.resolveApprovalId.value, u.resolveApproval.value, s.decidedAt)
    else table
  }

  /** The linked inbox row is resolved along with an approval that is found. */
  predicate ResolvesLinked(db: Db, u: ProjectionUpdates, s: Stamps) {
    && u.resolveApproval.Some? && u.resolveApprovalId.Some? && u.resolveApprovalId.value in db.approvals
    && u.resolveLinkedInbox && s.linked.Some?
  }

  predicate CreatesInbox(e: RuntimeEvent, u: ProjectionUpdates) {
    u.inboxEventType.Some? && e.devcontainerId.Some?
  }

  function NewInboxRow(db: Db, e: RuntimeEvent, u: ProjectionUpdates, s: Stamps): InboxRow
    requires CreatesInbox(e, u)
  {
    InboxRow(e.devcontainerId.value, e.agentSessionId, if CreatesApproval(db, e, u) then Some(s.approvalId) else None,
             u.inboxEventType.value, Unread, u.inboxContent, s.inboxAt, s.inboxAt)
  }

  function ResolvedInbox(db: Db, u: ProjectionUpdates, s: Stamps): map<Id, InboxRow> {
    var linked := if ResolvesLinked(db, u, s) then ResolveInboxRow(db.inbox, s.linked.value, s.linkedAt) else db.inbox;
    if u.resolveInboxEventId.Some? then ResolveInboxRow(linked, u.resolveInboxEventId.value, s.resolvedAt) else linked
  }

  function InboxAfter(db: Db, e: RuntimeEvent, u: ProjectionUpdates, s: Stamps): map<Id, InboxRow> {
    if CreatesInbox(e, u) then ResolvedInbox(db, u, s)[s.inboxId := NewInboxRow(db, e, u, s)]
    else ResolvedInbox(db, u, s)
  }

  function SummariesAfter(db: Db, e: RuntimeEvent, u: ProjectionUpdates, s: Stamps): map<Id, Summary> {
    if u.finalStatus.Some? && e.agentSessionId.Some? then
      var session := e.agentSessionId.value;
      UpsertSummary(db.summaries, session,
                    Summary(s.summaryId, u.finalStatus.value,
                            if session in db.sessions then db.sessions[session].startedAt else None,
                            Some(e.createdAt), Some(e.eventType), u.summaryText, s.summaryAt))
    else db.summaries
  }

  /** The foreign keys that SQLite checks when the projection inserts a row. */
  predicate InsertsKeepKeys(db: Db, e: RuntimeEvent, u: ProjectionUpdates) {
    && (CreatesApproval(db, e, u) ==> db.sessions[e.agentSessionId.value].devcontainerId in db.devcontainers)
    && (CreatesInbox(e, u) ==> e.devcontainerId.value in db.devcontainers && RefersTo(e.agentSessionId, db.sessions))
    && (u.finalStatus.Some? && e.agentSessionId.Some? ==>
          e.agentSessionId.value in db.summaries || e.agentSessionId.value in db.sessions)
  }

  function Apply(db: Db, e: RuntimeEvent, u: ProjectionUpdates, s: Stamps): Result<Db, DbError> {
    if InsertsKeepKeys(db, e, u) then
      Success(Db(DevcontainersAfter(db.devcontainers, e, u, s),
                 SessionsAfter(db.sessions, e, u, s),
                 db.log,
                 ApprovalsAfter(db, e, u, s),
                 InboxAfter(db, e, u, s),
                 SummariesAfter(db, e, u, s)))
    else Failure(ForeignKeyViolation)
  }

  function Project(db: Db, e: RuntimeEvent, s: Stamps): Result<Db, DbError> {
    var u :- Reduce(e);
    Apply(db, e, u, s)
  }

  /** The approval whose linked inbox row the projection will look up. */
  function ResolutionTarget(e: RuntimeEvent): Option<Id> {
    if e.eventType.ApprovalResolved? then PayloadOf(e).approvalRequestId else None
  }

  /** `s.linked` is an answer SQLite may give in `db`, if it is asked at all. */
  ghost predicate ValidAnswer(db: Db, e: RuntimeEvent, s: Stamps) {
    var target := ResolutionTarget(e);
    target.Some? && target.value in db.approvals ==> AnswersGetByApproval(db.inbox, target.value, s.linked)
  }

  // ---------------------------------------------------------------- invalidations

  function OneId(id: Option<Id>): seq<Id> {
    if Truthy(id) then [id.value] else []
  }

  function OwnerIds(session: Option<Id>, devcontainer: Option<Id>): seq<Id> {
    if Truthy(session) then OneId(session) else OneId(devcontainer)
  }

  /** One invalidation per affected scope, in this order. */
  function Announcements(e: RuntimeEvent, u: ProjectionUpdates): seq<SseEvent> {
    var devcontainers :=
      if u.devcontainerStatus.Some? then [SseEvent(Devcontainers, OneId(e.devcontainerId))] else [];
    var sessions :=
      if u.sessionStatus.Some? then [SseEvent(AgentSessions, OneId(e.agentSessionId))] else [];
    var approvals :=
      if u.createApproval || u.resolveApproval.Some? then [SseEvent(Approvals, OneId(u.resolveApprovalId))] else [];
    var inboxIds :=
      if Truthy(u.resolveInboxEventId) then OneId(u.resolveInboxEventId)
      else OwnerIds(e.agentSessionId, e.devcontainerId);
    devcontainers + sessions + approvals + (if TouchesInbox(e, u) then [SseEvent(Inbox, inboxIds)] else [])
  }

  function InvalidationsFor(e: RuntimeEvent): Result<seq<SseEvent>, DbError> {
    var u :- Reduce(e);
    Success(Announcements(e, u))
  }

  ghost predicate Announces(announced: seq<SseEvent>, scope: Scope) {
    exists k :: 0 <= k < |announced| && announced[k].scope == scope
  }

  /** Some announcement of the scope names the row, or names nothing (refetch the whole scope). */
  ghost predicate AnnouncesRow(announced: seq<SseEvent>, scope: Scope, id: Id) {
    exists k :: 0 <= k < |announced| && announced[k].scope == scope
                && (announced[k].ids == [] || id in announced[k].ids)
  }

  ghost predicate Differs<V(!new)>(a: map<Id, V>, b: map<Id, V>, id: Id) {
    !((id in a <==> id in b) && (id in a && id in b ==> a[id] == b[id]))
  }

  /** How the parts of an update go together, for every event the reducer accepts. */
  lemma UpdateShape(e: RuntimeEvent)
    requires Reduce(e).Success?
    ensures
      var u := Reduce(e).value;
      && (u.finalStatus.Some? ==> u.sessionStatus == u.finalStatus && Resting(u.finalStatus.value))
      && (u.sessionStatus.Some? && Resting(u.sessionStatus.value) ==> u.finalStatus == u.sessionStatus)
      && (u.resolveInboxEventId.Some? ==> e.eventType.UserInputSent?)
      && (u.resolveLinkedInbox <==> u.resolveApproval.Some?)
      && (u.resolveApproval.Some? ==> u.resolveApproval.value != Pending)
      && (u.createApproval <==> u.inboxEventType == Some(ApprovalRequest))
      && u.inboxEventType == InboxEventTypeFor(e.eventType)
      && !(u.createApproval && u.resolveApproval.Some?)
      && (u.createApproval ==> u.resolveApprovalId.None?)
      && (u.resolveApproval.Some? ==> u.resolveApprovalId == ResolutionTarget(e))
  {
  }

  /** A table not named by the update is left alone. */
  lemma ApplyFrame(db: Db, e: RuntimeEvent, u: ProjectionUpdates, s: Stamps)
    requires Apply(db, e, u, s).Success?
    ensures
      var db' := Apply(db, e, u, s).value;
      && db'.log == db.log
      && (u.devcontainerStatus.None? ==> db'.devcontainers == db.devcontainers)
      && (u.sessionStatus.None? ==> db'.sessions == db.sessions)
      && (!u.createApproval && u.resolveApproval.None? ==> db'.approvals == db.approvals)
      && (u.inboxEventType.None? && !u.resolveLinkedInbox && u.resolveInboxEventId.None? ==> db'.inbox == db.inbox)
      && (u.finalStatus.None? ==> db'.summaries == db.summaries)
  {
  }

  predicate TouchesInbox(e: RuntimeEvent, u: ProjectionUpdates) {
    u.inboxEventType.Some? || u.resolveLinkedInbox || e.eventType.UserInputSent?
  }

  function AnnouncedIf(condition: bool, scope: Scope): seq<Scope> {
    if condition then [scope] else []
  }

  function InOrder(d: bool, a: bool, p: bool, i: bool): seq<Scope> {
    AnnouncedIf(d, Devcontainers) + AnnouncedIf(a, AgentSessions) + AnnouncedIf(p, Approvals) + AnnouncedIf(i, Inbox)
  }

  lemma EachOnce(d: bool, a: bool, p: bool, i: bool)
    ensures
      var scopes := InOrder(d, a, p, i);
      && (Devcontainers in scopes <==> d) && (AgentSessions in scopes <==> a)
      && (Approvals in scopes <==> p) && (Inbox in scopes <==> i)
      && (forall j, k :: 0 <= j < k < |scopes| ==> scopes[j] != scopes[k])
  {
  }

  predicate AnnouncesScopes(announced: seq<SseEvent>, scopes: seq<Scope>) {
    |announced| == |scopes| && forall k | 0 <= k < |announced| :: announced[k].scope == scopes[k]
  }

  lemma ScopesInOrder(e: RuntimeEvent, u: ProjectionUpdates)
    ensures AnnouncesScopes(Announcements(e, u),
                            InOrder(u.devcontainerStatus.Some?, u.sessionStatus.Some?,
                                    u.createApproval || u.resolveApproval.Some?, TouchesInbox(e, u)))
  {
  }

  lemma AnnouncedExactly(announced: seq<SseEvent>, d: bool, a: bool, p: bool, i: bool)
    requires AnnouncesScopes(announced, InOrder(d, a, p, i))
    ensures (d <==> Announces(announced, Devcontainers)) && (a <==> Announces(announced, AgentSessions))
    ensures (p <==> Announces(announced, Approvals)) && (i <==> Announces(announced, Inbox))
    ensures forall j, k :: 0 <= j < k < |announced| ==> announced[j].scope != announced[k].scope
  {
    EachOnce(d, a, p, i);
    var scopes := InOrder(d, a, p, i);
    forall scope ensures Announces(announced, scope) <==> scope in scopes {
      if scope in scopes {
        var k :| 0 <= k < |scopes| && scopes[k] == scope;
        assert announced[k].scope == scope;
      }
    }
  }

  lemma AnnouncedScopes(e: RuntimeEvent, u: ProjectionUpdates)
    ensures
      var announced := Announcements(e, u);
      && (u.devcontainerStatus.Some? <==> Announces(announced, Devcontainers))
      && (u.sessionStatus.Some? <==> Announces(announced, AgentSessions))
      && (u.createApproval || u.resolveApproval.Some? <==> Announces(announced, Approvals))
      && (TouchesInbox(e, u) <==> Announces(announced, Inbox))
      && (forall j, k :: 0 <= j < k < |announced| ==> announced[j].scope != announced[k].scope)
  {
    ScopesInOrder(e, u);
    AnnouncedExactly(Announcements(e, u), u.devcontainerStatus.Some?, u.sessionStatus.Some?,
                     u.createApproval || u.resolveApproval.Some?, TouchesInbox(e, u));
  }

  /** Every table that differs has its scope announced, summaries under agent_sessions. */
  ghost predicate Covers(announced: seq<SseEvent>, db: Db, db': Db) {
    && (db'.devcontainers != db.devcontainers ==> Announces(announced, Devcontainers))
    && (db'.sessions != db.sessions ==> Announces(announced, AgentSessions))
    && (db'.summaries != db.summaries ==> Announces(announced, AgentSessions))
    && (db'.approvals != db.approvals ==> Announces(announced, Approvals))
    && (db'.inbox != db.inbox ==> Announces(announced, Inbox))
  }

  /** Whatever the database, the invalidations cover what the projection changes, with no scope
      twice, and the runtime log is left alone. */
  lemma InvalidationsCoverProjection(db: Db, e: RuntimeEvent, s: Stamps)
    requires Project(db, e, s).Success?
    ensures InvalidationsFor(e).Success?
    ensures
      var db', announced := Project(db, e, s).value, InvalidationsFor(e).value;
      && db'.log == db.log
      && Covers(announced, db, db')
      && (forall j, k :: 0 <= j < k < |announced| ==> announced[j].scope != announced[k].scope)
  {
    UpdateShape(e);
    ApplyFrame(db, e, Reduce(e).value, s);
    AnnouncedScopes(e, Reduce(e).value);
  }

  /** The same inbox item: everything but its status and the time it was last touched. */
  predicate SameItem(row: InboxRow, other: InboxRow) {
    row.(status := other.status, updatedAt := other.updatedAt) == other
  }

  /** Existing inbox items are only ever resolved; at most one item is added. */
  lemma InboxAfterShape(db: Db, e: RuntimeEvent, u: ProjectionUpdates, s: Stamps)
    ensures
      var table := InboxAfter(db, e, u, s);
      && table.Keys == db.inbox.Keys + (if CreatesInbox(e, u) then {s.inboxId} else {})
      && (CreatesInbox(e, u) ==> table[s.inboxId] == NewInboxRow(db, e, u, s))
      && (forall i | i in db.inbox && !(CreatesInbox(e, u) && i == s.inboxId) ::
            SameItem(table[i], db.inbox[i]) && (table[i].status == db.inbox[i].status || table[i].status.Resolved?))
  {
  }

  /** Existing approvals are only ever decided; at most one pending approval is added. */
  lemma ApprovalsAfterShape(db: Db, e: RuntimeEvent, u: ProjectionUpdates, s: Stamps)
    requires s.approvalId !in db.approvals && !(u.createApproval && u.resolveApproval.Some?)
    ensures
      var table := ApprovalsAfter(db, e, u, s);
      && table.Keys == db.approvals.Keys + (if CreatesApproval(db, e, u) then {s.approvalId} else {})
      && (CreatesApproval(db, e, u) ==> table[s.approvalId] == NewApproval(db, e, u, s))
      && (forall a | a in db.approvals ::
            || table[a] == db.approvals[a]
            || (u.resolveApproval.Some? && u.resolveApprovalId == Some(a)
                && table[a] == db.approvals[a].(status := u.resolveApproval.value, decidedAt := Some(s.decidedAt))))
  {
  }

  /** The rows a projection may change, table by table. */
  lemma ApplyTouches(db: Db, e: RuntimeEvent, u: ProjectionUpdates, s: Stamps, id: Id)
    requires Apply(db, e, u, s).Success?
    ensures
      var db' := Apply(db, e, u, s).value;
      && (Differs(db'.devcontainers, db.devcontainers, id) ==> e.devcontainerId == Some(id))
      && (Differs(db'.sessions, db.sessions, id) ==> e.agentSessionId == Some(id))
      && (Differs(db'.summaries, db.summaries, id) ==> e.agentSessionId == Some(id))
      && (Differs(db'.approvals, db.approvals, id) ==>
            (u.createApproval && id == s.approvalId) || u.resolveApprovalId == Some(id))
  {
  }

  /** Row by row: the announcement of a changed devcontainer, session, summary or approval names
      that row or names nothing, never only others. */
  lemma InvalidationsNameChangedRows(db: Db, e: RuntimeEvent, s: Stamps, id: Id)
    requires Project(db, e, s).Success? && InvalidationsFor(e).Success?
    ensures
      var db', announced := Project(db, e, s).value, InvalidationsFor(e).value;
      && (Differs(db'.devcontainers, db.devcontainers, id) ==> AnnouncesRow(announced, Devcontainers, id))
      && (Differs(db'.sessions, db.sessions, id) ==> AnnouncesRow(announced, AgentSessions, id))
      && (Differs(db'.summaries, db.summaries, id) ==> AnnouncesRow(announced, AgentSessions, id))
      && (Differs(db'.approvals, db.approvals, id) ==> AnnouncesRow(announced, Approvals, id))
  {
    UpdateShape(e);
    ApplyFrame(db, e, Reduce(e).value, s);
    ApplyTouches(db, e, Reduce(e).value, s, id);
    AnnouncedIds(e, Reduce(e).value);
  }

  lemma AnnouncedIds(e: RuntimeEvent, u: ProjectionUpdates)
    ensures
      var announced := Announcements(e, u);
      && (u.devcontainerStatus.Some? ==> SseEvent(Devcontainers, OneId(e.devcontainerId)) in announced)
      && (u.sessionStatus.Some? ==> SseEvent(AgentSessions, OneId(e.agentSessionId)) in announced)
      && (u.createApproval || u.resolveApproval.Some? ==> SseEvent(Approvals, OneId(u.resolveApprovalId)) in announced)
  {
  }

  /** The inbox is announced by owner: an input by the item it resolves, anything else by the event's
      session or, without one, its devcontainer. */
  function InboxIds(e: RuntimeEvent): seq<Id> {
    if e.eventType.UserInputSent? && Truthy(PayloadOf(e).inboxEventId) then OneId(PayloadOf(e).inboxEventId)
    else OwnerIds(e.agentSessionId, e.devcontainerId)
  }

  lemma InboxAnnouncement(e: RuntimeEvent, u: ProjectionUpdates)
    requires u.resolveInboxEventId == if e.eventType.UserInputSent? then PayloadOf(e).inboxEventId else None
    requires TouchesInbox(e, u)
    ensures SseEvent(Inbox, InboxIds(e)) in Announcements(e, u)
  {
  }

  lemma ResolvedItem(e: RuntimeEvent)
    requires Reduce(e).Success?
    ensures Reduce(e).value.resolveInboxEventId
            == if e.eventType.UserInputSent? then PayloadOf(e).inboxEventId else None
    ensures Reduce(e).value.inboxEventType.Some? || Reduce(e).value.resolveLinkedInbox ==> !e.eventType.UserInputSent?
  {
  }

  /** A changed inbox item is announced: an answered question by its own id, the item linked to an
      approval and a new item by the event's session or devcontainer, which a new item belongs to. */
  lemma InvalidationsNameInboxOwners(db: Db, e: RuntimeEvent, s: Stamps, id: Id)
    requires Project(db, e, s).Success? && InvalidationsFor(e).Success?
    requires Differs(Project(db, e, s).value.inbox, db.inbox, id)
    ensures SseEvent(Inbox, InboxIds(e)) in InvalidationsFor(e).value
    ensures e.eventType.UserInputSent? ==> PayloadOf(e).inboxEventId == Some(id)
    ensures !e.eventType.UserInputSent? && id != s.inboxId ==> s.linked == Some(id)
    ensures id !in db.inbox ==>
              var row := Project(db, e, s).value.inbox[id];
              InboxIds(e) == OwnerIds(row.agentSessionId, Some(row.devcontainerId))
  {
    var u := Reduce(e).value;
    UpdateShape(e);
    ResolvedItem(e);
    ApplyFrame(db, e, u, s);
    InboxAnnouncement(e, u);
    InboxAfterShape(db, e, u, s);
  }
}
