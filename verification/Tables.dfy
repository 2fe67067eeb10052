/** The six tables of the control plane's database: rows, declared constraints, the reads and
    writes of the repositories, and what a DELETE does through the foreign keys. */
module Tables {
  import opened Vocabulary

  datatype Devcontainer = Devcontainer(
    name: string,
    localPath: string,
    status: DevcontainerStatus,
    createdAt: Timestamp,
    updatedAt: Timestamp)

  datatype AgentSession = AgentSession(
    devcontainerId: Id,
    status: SessionStatus,
    prompt: Option<string>,
    startedAt: Option<Timestamp>,
    endedAt: Option<Timestamp>,
    lastEventAt: Option<Timestamp>,
    createdAt: Timestamp,
    updatedAt: Timestamp)

  datatype Approval = Approval(
    devcontainerId: Id,
    agentSessionId: Id,
    status: ApprovalStatus,
    requestedAction: string,
    createdAt: Timestamp,
    decidedAt: Option<Timestamp>)

  datatype InboxRow = InboxRow(
    devcontainerId: Id,
    agentSessionId: Option<Id>,
    approvalRequestId: Option<Id>,
    eventType: InboxEventType,
    status: InboxStatus,
    content: Option<string>,
    createdAt: Timestamp,
    updatedAt: Timestamp)

  datatype Summary = Summary(
    id: Id,
    finalStatus: SessionStatus,
    startedAt: Option<Timestamp>,
    endedAt: Option<Timestamp>,
    lastKnownEvent: Option<EventType>,
    summaryText: Option<string>,
    createdAt: Timestamp)

  /** Tables are keyed by primary key, except that `summaries` is keyed by its UNIQUE session
      column and `log` (runtime_events) is kept in insertion order. */
  datatype Db = Db(
    devcontainers: map<Id, Devcontainer>,
    sessions: map<Id, AgentSession>,
    log: seq<RuntimeEvent>,
    approvals: map<Id, Approval>,
    inbox: map<Id, InboxRow>,
    summaries: map<Id, Summary>)

  const EMPTY_DB := Db(map[], map[], [], map[], map[], map[])

  datatype DbError = ForeignKeyViolation | BadResolution

  /** Everything a step takes from outside the database: generated ids, clock readings, and the
      row that an unordered `SELECT ... fetchone()` on inbox_events happens to return. */
  datatype Stamps = Stamps(
    eventId: Id,
    eventAt: Timestamp,
    devcontainerAt: Timestamp,
    sessionAt: Timestamp,
    approvalId: Id,
    approvalAt: Timestamp,
    decidedAt: Timestamp,
    linked: Option<Id>,
    linkedAt: Timestamp,
    resolvedAt: Timestamp,
    inboxId: Id,
    inboxAt: Timestamp,
    summaryId: Id,
    summaryAt: Timestamp)

  // ---------------------------------------------------------------- declared constraints

  predicate RefersTo<V>(key: Option<Id>, table: map<Id, V>) {
    key.Some? ==> key.value in table
  }

  predicate EventKeys(db: Db, e: RuntimeEvent) {
    RefersTo(e.devcontainerId, db.devcontainers) && RefersTo(e.agentSessionId, db.sessions)
  }

  predicate ApprovalKeys(db: Db, a: Approval) {
    a.devcontainerId in db.devcontainers && a.agentSessionId in db.sessions
  }

  predicate InboxKeys(db: Db, row: InboxRow) {
    && row.devcontainerId in db.devcontainers
    && RefersTo(row.agentSessionId, db.sessions)
    && RefersTo(row.approvalRequestId, db.approvals)
  }

  ghost predicate ForeignKeys(db: Db) {
    && (forall s | s in db.sessions :: db.sessions[s].devcontainerId in db.devcontainers)
    && (forall e | e in db.log :: EventKeys(db, e))
    && (forall a | a in db.approvals :: ApprovalKeys(db, db.approvals[a]))
    && (forall i | i in db.inbox :: InboxKeys(db, db.inbox[i]))
    && (forall s | s in db.summaries :: s in db.sessions)
  }

  // ---------------------------------------------------------------- repositories

  /** A write to one row: the same rows are there, and all others are as they were. */
  ghost predicate OnlyRow<V(!new)>(before: map<Id, V>, after: map<Id, V>, id: Id) {
    after.Keys == before.Keys && forall k | k in before && k != id :: after[k] == before[k]
  }

  function UpdateDevcontainer(table: map<Id, Devcontainer>, id: Id, name: Option<string>,
                              status: Option<DevcontainerStatus>, at: Timestamp): map<Id, Devcontainer>
  {
    if id !in table || (name.None? && status.None?) then table
    else
      var row := table[id];
      table[id := row.(name := if name.Some? then name.value else row.name,
                       status := if status.Some? then status.value else row.status,
                       updatedAt := at)]
  }

  function SetStatus(table: map<Id, AgentSession>, id: Id, status: SessionStatus, at: Timestamp)
    : map<Id, AgentSession>
  {
    if id !in table then table
    else table[id := table[id].(status := status, updatedAt := at, lastEventAt := Some(at))]
  }

  function ResolveApprovalRow(table: map<Id, Approval>, id: Id, status: ApprovalStatus, at: Timestamp)
    : map<Id, Approval>
  {
    if id !in table then table
    else table[id := table[id].(status := status, decidedAt := Some(at))]
  }

  function ResolveInboxRow(table: map<Id, InboxRow>, id: Id, at: Timestamp): map<Id, InboxRow> {
    if id !in table then table
    else table[id := table[id].(status := InboxStatus.Resolved, updatedAt := at)]
  }

  function MarkRead(table: map<Id, InboxRow>, id: Id, at: Timestamp): map<Id, InboxRow> {
    if id !in table || !table[id].status.Unread? then table
    else table[id := table[id].(status := InboxStatus.Read, updatedAt := at)]
  }

  /** `row` carries the id and creation time used if the session has no summary yet. */
  function UpsertSummary(table: map<Id, Summary>, session: Id, row: Summary): map<Id, Summary> {
    if session in table then
      table[session := row.(id := table[session].id, createdAt := table[session].createdAt)]
    else
      table[session := row]
  }

  /** The possible answers of `get_by_approval`: no order is asked for, so any linked row will do. */
  predicate IsLinked(inbox: map<Id, InboxRow>, i: Id, approval: Id) {
    i in inbox && inbox[i].approvalRequestId == Some(approval)
  }

  ghost predicate AnswersGetByApproval(inbox: map<Id, InboxRow>, approval: Id, answer: Option<Id>) {
    match answer
    case Some(i) => IsLinked(inbox, i, approval)
    case None => forall i :: !IsLinked(inbox, i, approval)
  }

  // ---------------------------------------------------------------- DELETE

  predicate EventSurvives(e: RuntimeEvent, deadDevcontainers: set<Id>, deadSessions: set<Id>) {
    && !(e.devcontainerId.Some? && e.devcontainerId.value in deadDevcontainers)
    && !(e.agentSessionId.Some? && e.agentSessionId.value in deadSessions)
  }

  predicate ApprovalSurvives(a: Approval, deadDevcontainers: set<Id>, deadSessions: set<Id>) {
    a.devcontainerId !in deadDevcontainers && a.agentSessionId !in deadSessions
  }

  predicate InboxSurvives(row: InboxRow, deadDevcontainers: set<Id>, deadSessions: set<Id>) {
    && row.devcontainerId !in deadDevcontainers
    && !(row.agentSessionId.Some? && row.agentSessionId.value in deadSessions)
  }

  function SurvivingLog(log: seq<RuntimeEvent>, deadDevcontainers: set<Id>, deadSessions: set<Id>)
    : (r: seq<RuntimeEvent>)
    ensures forall e :: e in r <==> e in log && EventSurvives(e, deadDevcontainers, deadSessions)
  {
    if log == [] then []
    else
      var rest := SurvivingLog(log[..|log| - 1], deadDevcontainers, deadSessions);
      var last := log[|log| - 1];
      assert log == log[..|log| - 1] + [last];
      if EventSurvives(last, deadDevcontainers, deadSessions) then rest + [last] else rest
  }

  /** ON DELETE SET NULL of inbox_events.approval_request_id. */
  function SetNull(row: InboxRow, approvals: map<Id, Approval>): InboxRow {
    if RefersTo(row.approvalRequestId, approvals) then row else row.(approvalRequestId := None)
  }

  /** Remove the given devcontainers and sessions and follow ON DELETE CASCADE and SET NULL out of
      both. The callers below pass every session of a removed devcontainer. */
  function DeleteRows(db: Db, deadDevcontainers: set<Id>, deadSessions: set<Id>): Db {
    var approvals := map a | a in db.approvals
                             && ApprovalSurvives(db.approvals[a], deadDevcontainers, deadSessions) :: db.approvals[a];
    Db(db.devcontainers - deadDevcontainers,
       db.sessions - deadSessions,
       SurvivingLog(db.log, deadDevcontainers, deadSessions),
       approvals,
       map i | i in db.inbox && InboxSurvives(db.inbox[i], deadDevcontainers, deadSessions)
         :: SetNull(db.inbox[i], approvals),
       db.summaries - deadSessions)
  }

  function SessionsOf(db: Db, devcontainer: Id): set<Id> {
    set s | s in db.sessions && db.sessions[s].devcontainerId == devcontainer
  }

  function DeleteSession(db: Db, session: Id): Db {
    DeleteRows(db, {}, {session})
  }

  function DeleteDevcontainer(db: Db, devcontainer: Id): Db {
    DeleteRows(db, {devcontainer}, SessionsOf(db, devcontainer))
  }

  // ---------------------------------------------------------------- what a DELETE means

  /** A set of sessions that can be removed together with a set of devcontainers. */
  ghost predicate Closed(db: Db, deadDevcontainers: set<Id>, deadSessions: set<Id>) {
    forall s | s in db.sessions :: db.sessions[s].devcontainerId in deadDevcontainers ==> s in deadSessions
  }

  ghost predicate Subtable<V(!new)>(small: map<Id, V>, large: map<Id, V>) {
    forall k | k in small :: k in large && small[k] == large[k]
  }

  /** `small` is `db` with rows removed and approval links of surviving inbox rows possibly nulled. */
  ghost predicate Remnant(small: Db, db: Db) {
    && Subtable(small.devcontainers, db.devcontainers)
    && Subtable(small.sessions, db.sessions)
    && (forall e | e in small.log :: e in db.log)
    && Subtable(small.approvals, db.approvals)
    && (forall i | i in small.inbox :: i in db.inbox &&
          (small.inbox[i] == db.inbox[i] || small.inbox[i] == db.inbox[i].(approvalRequestId := None)))
    && Subtable(small.summaries, db.summaries)
  }

  /** Row by row, `small` keeps no more than `large`. */
  ghost predicate KeepsNoMore(small: Db, large: Db) {
    && small.devcontainers.Keys <= large.devcontainers.Keys
    && small.sessions.Keys <= large.sessions.Keys
    && (forall e | e in small.log :: e in large.log)
    && small.approvals.Keys <= large.approvals.Keys
    && small.inbox.Keys <= large.inbox.Keys
    && (forall i | i in small.inbox && i in large.inbox ::
          small.inbox[i].approvalRequestId.Some? ==>
            large.inbox[i].approvalRequestId == small.inbox[i].approvalRequestId)
    && small.summaries.Keys <= large.summaries.Keys
  }

  /** A DELETE takes the given rows and leaves every foreign key intact... */
  lemma DeleteKeepsForeignKeys(db: Db, deadDevcontainers: set<Id>, deadSessions: set<Id>)
    requires ForeignKeys(db) && Closed(db, deadDevcontainers, deadSessions)
    ensures ForeignKeys(DeleteRows(db, deadDevcontainers, deadSessions))
    ensures Remnant(DeleteRows(db, deadDevcontainers, deadSessions), db)
    ensures DeleteRows(db, deadDevcontainers, deadSessions).devcontainers.Keys !! deadDevcontainers
    ensures DeleteRows(db, deadDevcontainers, deadSessions).sessions.Keys !! deadSessions
  {
    var left := DeleteRows(db, deadDevcontainers, deadSessions);
    forall e | e in left.log ensures EventKeys(left, e) {
      assert EventKeys(db, e);
    }
    forall i | i in left.inbox ensures InboxKeys(left, left.inbox[i]) {
      assert InboxKeys(db, db.inbox[i]);
    }
    forall a | a in left.approvals ensures ApprovalKeys(left, left.approvals[a]) {
      assert ApprovalKeys(db, db.approvals[a]);
    }
  }

  /** ...and it is the least deletion that does: any key-intact remnant without the deleted rows
      keeps no row and no link that the DELETE loses. */
  lemma DeleteIsLeast(db: Db, deadDevcontainers: set<Id>, deadSessions: set<Id>, other: Db)
    requires ForeignKeys(db)
    requires ForeignKeys(other) && Remnant(other, db)
    requires other.devcontainers.Keys !! deadDevcontainers && other.sessions.Keys !! deadSessions
    ensures KeepsNoMore(other, DeleteRows(db, deadDevcontainers, deadSessions))
  {
    var left := DeleteRows(db, deadDevcontainers, deadSessions);
    forall e | e in other.log ensures e in left.log {
      assert EventKeys(other, e);
    }
    forall a | a in other.approvals ensures a in left.approvals {
      assert ApprovalKeys(other, other.approvals[a]);
    }
    forall i | i in other.inbox
      ensures i in left.inbox
      ensures other.inbox[i].approvalRequestId.Some? ==>
                left.inbox[i].approvalRequestId == other.inbox[i].approvalRequestId
    {
      assert InboxKeys(other, other.inbox[i]);
    }
  }

  lemma DeletesAreClosed(db: Db, session: Id, devcontainer: Id)
    ensures Closed(db, {}, {session})
    ensures Closed(db, {devcontainer}, SessionsOf(db, devcontainer))
  {
  }
}
