/** Approval/inbox coherence and intact foreign keys in every reachable database. */
module Coherence {
  import opened Vocabulary
  import opened Tables
  import opened Reducer
  import opened Intake
  import opened Routes

  predicate ApprovalOk(db: Db, a: Approval) {
    && a.agentSessionId in db.sessions
    && a.devcontainerId == db.sessions[a.agentSessionId].devcontainerId
    && (a.decidedAt.Some? <==> !a.status.Pending?)
  }

  /** A linked inbox row is the approval request of that approval's session, and is resolved once
      the approval is decided. */
  predicate LinkHolds(approvals: map<Id, Approval>, row: InboxRow) {
    row.approvalRequestId.Some? ==>
      && row.approvalRequestId.value in approvals
      && row.eventType.ApprovalRequest?
      && row.agentSessionId == Some(approvals[row.approvalRequestId.value].agentSessionId)
      && (!approvals[row.approvalRequestId.value].status.Pending? ==> row.status.Resolved?)
  }

  predicate LinkOk(db: Db, row: InboxRow) {
    LinkHolds(db.approvals, row)
  }

  ghost predicate OneLinkEach(inbox: map<Id, InboxRow>) {
    forall i, j | i in inbox && j in inbox ::
      inbox[i].approvalRequestId.Some? && inbox[i].approvalRequestId == inbox[j].approvalRequestId ==> i == j
  }

  ghost predicate Coherent(db: Db) {
    && ForeignKeys(db)
    && (forall a | a in db.approvals :: ApprovalOk(db, db.approvals[a]))
    && (forall i | i in db.inbox :: LinkOk(db, db.inbox[i]))
    && OneLinkEach(db.inbox)
  }

  /** `get_by_approval` asks for no order; in a coherent database it has only one possible answer. */
  lemma GetByApprovalIsWellDefined(db: Db, approval: Id, answer: Option<Id>, other: Option<Id>)
    requires Coherent(db)
    requires AnswersGetByApproval(db.inbox, approval, answer) && AnswersGetByApproval(db.inbox, approval, other)
    ensures answer == other
  {
    if answer.Some? {
      assert IsLinked(db.inbox, answer.value, approval);
    }
    if other.Some? {
      assert IsLinked(db.inbox, other.value, approval);
    }
  }

  /** No approval goes back to pending, and none changes hands. */
  ghost predicate ApprovalsOnlyAdvance(db: Db, db': Db) {
    forall a | a in db.approvals && a in db'.approvals ::
      && (db'.approvals[a].status.Pending? ==> db.approvals[a].status.Pending?)
      && db'.approvals[a].agentSessionId == db.approvals[a].agentSessionId
      && db'.approvals[a].requestedAction == db.approvals[a].requestedAction
  }

  /** No surviving inbox row loses its approval link. */
  ghost predicate LinksSurvive(db: Db, db': Db) {
    forall i | i in db.inbox && i in db'.inbox :: db'.inbox[i].approvalRequestId == db.inbox[i].approvalRequestId
  }

  lemma ApplyKeepsCoherence(db: Db, e: RuntimeEvent, s: Stamps)
    requires Coherent(db) && EventKeys(db, e) && Project(db, e, s).Success?
    requires s.approvalId !in db.approvals && s.inboxId !in db.inbox && ValidAnswer(db, e, s)
    ensures Coherent(Project(db, e, s).value)
    ensures ApprovalsOnlyAdvance(db, Project(db, e, s).value)
  {
    var u := Reduce(e).value;
    UpdateShape(e);
    ApplyStepKeepsCoherence(db, e, u, s);
  }

  ghost predicate WellShaped(db: Db, u: ProjectionUpdates, s: Stamps) {
    && (u.resolveLinkedInbox <==> u.resolveApproval.Some?)
    && (u.resolveApproval.Some? ==> u.resolveApproval.value != Pending)
    && (u.createApproval <==> u.inboxEventType == Some(ApprovalRequest))
    && !(u.createApproval && u.resolveApproval.Some?)
    && (u.resolveApproval.Some? && u.resolveApprovalId.Some? && u.resolveApprovalId.value in db.approvals ==>
          AnswersGetByApproval(db.inbox, u.resolveApprovalId.value, s.linked))
  }

  lemma ApplyStepKeepsCoherence(db: Db, e: RuntimeEvent, u: ProjectionUpdates, s: Stamps)
    requires Coherent(db) && EventKeys(db, e) && Apply(db, e, u, s).Success? && WellShaped(db, u, s)
    requires s.approvalId !in db.approvals && s.inboxId !in db.inbox
    ensures Coherent(Apply(db, e, u, s).value)
    ensures ApprovalsOnlyAdvance(db, Apply(db, e, u, s).value)
  {
    var db' := Apply(db, e, u, s).value;
    ApplyKeepsForeignKeys(db, e, u, s);
    ApprovalsStayOk(db, e, u, s);
    forall i | i in db'.inbox ensures LinkOk(db', db'.inbox[i]) {
      if i in db.inbox {
        LinkStaysOk(db, e, u, s, i);
      } else {
        NewRowIsOk(db, e, u, s, i);
      }
    }
    LinksStayUnique(db, e, u, s);
  }

  lemma ApprovalsStayOk(db: Db, e: RuntimeEvent, u: ProjectionUpdates, s: Stamps)
    requires Coherent(db) && EventKeys(db, e) && Apply(db, e, u, s).Success? && WellShaped(db, u, s)
    requires s.approvalId !in db.approvals
    ensures
      var db' := Apply(db, e, u, s).value;
      (forall a | a in db'.approvals :: ApprovalOk(db', db'.approvals[a])) && ApprovalsOnlyAdvance(db, db')
  {
    ApprovalsAfterShape(db, e, u, s);
    var db' := Apply(db, e, u, s).value;
    forall a | a in db'.approvals ensures ApprovalOk(db', db'.approvals[a]) {
      if a in db.approvals {
        assert ApprovalOk(db, db.approvals[a]);
      }
    }
  }

  lemma LinkStaysOk(db: Db, e: RuntimeEvent, u: ProjectionUpdates, s: Stamps, i: Id)
    requires Coherent(db) && WellShaped(db, u, s)
    requires s.approvalId !in db.approvals && s.inboxId !in db.inbox && i in db.inbox
    ensures i in InboxAfter(db, e, u, s)
    ensures LinkHolds(ApprovalsAfter(db, e, u, s), InboxAfter(db, e, u, s)[i])
  {
    InboxAfterShape(db, e, u, s);
    ApprovalsAfterShape(db, e, u, s);
    assert LinkOk(db, db.inbox[i]);
    LinkedIsResolved(db, e, u, s, i);
  }

  /** A resolved approval takes its linked row along. */
  lemma LinkedIsResolved(db: Db, e: RuntimeEvent, u: ProjectionUpdates, s: Stamps, i: Id)
    requires Coherent(db) && WellShaped(db, u, s) && s.inboxId !in db.inbox && i in db.inbox
    ensures i in InboxAfter(db, e, u, s)
    ensures u.resolveApproval.Some? && u.resolveApprovalId.Some? && IsLinked(db.inbox, i, u.resolveApprovalId.value) ==>
              InboxAfter(db, e, u, s)[i].status.Resolved?
  {
    InboxAfterShape(db, e, u, s);
    if u.resolveApproval.Some? && u.resolveApprovalId.Some? && IsLinked(db.inbox, i, u.resolveApprovalId.value) {
      assert LinkOk(db, db.inbox[i]);
      assert s.linked == Some(i);
    }
  }

  lemma NewRowIsOk(db: Db, e: RuntimeEvent, u: ProjectionUpdates, s: Stamps, i: Id)
    requires Coherent(db) && EventKeys(db, e) && Apply(db, e, u, s).Success? && WellShaped(db, u, s)
    requires s.approvalId !in db.approvals && i !in db.inbox && i in InboxAfter(db, e, u, s)
    ensures LinkOk(Apply(db, e, u, s).value, InboxAfter(db, e, u, s)[i])
  {
    InboxAfterShape(db, e, u, s);
    ApprovalsAfterShape(db, e, u, s);
  }

  lemma LinksStayUnique(db: Db, e: RuntimeEvent, u: ProjectionUpdates, s: Stamps)
    requires Coherent(db)
    requires s.approvalId !in db.approvals && s.inboxId !in db.inbox
    ensures OneLinkEach(InboxAfter(db, e, u, s))
  {
    InboxAfterShape(db, e, u, s);
    var table := InboxAfter(db, e, u, s);
    forall i, j | i in table && j in table && table[i].approvalRequestId.Some?
                  && table[i].approvalRequestId == table[j].approvalRequestId
      ensures i == j
    {
      assert i in db.inbox ==> LinkOk(db, db.inbox[i]);
      assert j in db.inbox ==> LinkOk(db, db.inbox[j]);
    }
  }

  // ---------------------------------------------------------------- every step

  lemma IntakeKeepsCoherence(db: Db, e: RuntimeEvent, s: Stamps)
    requires Coherent(db) && FreshStamps(db, s) && ValidAnswer(db, e, s)
    ensures Coherent(AfterIntake(db, e, s))
    ensures ApprovalsOnlyAdvance(db, AfterIntake(db, e, s)) && LinksSurvive(db, AfterIntake(db, e, s))
  {
    if Persist(db, e, s).Success? {
      var r := Recorded(e, s);
      var logged := db.(log := db.log + [r]);
      LoggedIsCoherent(db, r);
      ApplyKeepsCoherence(logged, r, s);
      InboxAfterShape(logged, r, Reduce(r).value, s);
    }
  }

  lemma LoggedIsCoherent(db: Db, e: RuntimeEvent)
    requires Coherent(db) && EventKeys(db, e)
    ensures Coherent(db.(log := db.log + [e]))
  {
    var logged := db.(log := db.log + [e]);
    forall x | x in logged.log ensures EventKeys(logged, x) {
      assert x in db.log || x == e;
      assert x in db.log ==> EventKeys(db, x);
    }
    forall i | i in logged.inbox ensures InboxKeys(logged, logged.inbox[i]) && LinkOk(logged, logged.inbox[i]) {
      assert InboxKeys(db, db.inbox[i]) && LinkOk(db, db.inbox[i]);
    }
    forall a | a in logged.approvals
      ensures ApprovalKeys(logged, logged.approvals[a]) && ApprovalOk(logged, logged.approvals[a])
    {
      assert ApprovalKeys(db, db.approvals[a]) && ApprovalOk(db, db.approvals[a]);
    }
  }

  /** SET NULL never bites: when sessions or a devcontainer go, a linked inbox row either goes
      with its approval or keeps it. */
  lemma DeleteKeepsCoherence(db: Db, deadDevcontainers: set<Id>, deadSessions: set<Id>)
    requires Coherent(db) && Closed(db, deadDevcontainers, deadSessions)
    ensures Coherent(DeleteRows(db, deadDevcontainers, deadSessions))
    ensures LinksSurvive(db, DeleteRows(db, deadDevcontainers, deadSessions))
    ensures ApprovalsOnlyAdvance(db, DeleteRows(db, deadDevcontainers, deadSessions))
  {
    DeleteKeepsForeignKeys(db, deadDevcontainers, deadSessions);
    var left := DeleteRows(db, deadDevcontainers, deadSessions);
    forall a | a in left.approvals ensures ApprovalOk(left, left.approvals[a]) {
      assert ApprovalOk(db, db.approvals[a]);
    }
    forall i | i in left.inbox ensures left.inbox[i] == db.inbox[i] && LinkOk(left, left.inbox[i]) {
      assert LinkOk(db, db.inbox[i]);
      if db.inbox[i].approvalRequestId.Some? {
        assert ApprovalOk(db, db.approvals[db.inbox[i].approvalRequestId.value]);
      }
    }
  }

  /** A write that changes no key and no coherence-relevant column. */
  ghost predicate Harmless(db: Db, db': Db) {
    && db.devcontainers.Keys <= db'.devcontainers.Keys
    && (forall s | s in db.sessions :: s in db'.sessions
                                       && db'.sessions[s].devcontainerId == db.sessions[s].devcontainerId)
    && (forall s | s in db'.sessions :: db'.sessions[s].devcontainerId in db'.devcontainers)
    && db'.log == db.log && db'.approvals == db.approvals && db'.summaries == db.summaries
    && db'.inbox.Keys == db.inbox.Keys
    && (forall i | i in db.inbox :: SameItem(db'.inbox[i], db.inbox[i])
                                    && (db.inbox[i].status.Resolved? ==> db'.inbox[i].status.Resolved?))
  }

  lemma HarmlessKeepsCoherence(db: Db, db': Db)
    requires Coherent(db) && Harmless(db, db')
    ensures Coherent(db') && ApprovalsOnlyAdvance(db, db') && LinksSurvive(db, db')
  {
    forall x | x in db'.log ensures EventKeys(db', x) {
      assert EventKeys(db, x);
    }
    forall i | i in db'.inbox ensures InboxKeys(db', db'.inbox[i]) && LinkOk(db', db'.inbox[i]) {
      assert InboxKeys(db, db.inbox[i]) && LinkOk(db, db.inbox[i]);
    }
    forall a | a in db'.approvals ensures ApprovalKeys(db', db'.approvals[a]) && ApprovalOk(db', db'.approvals[a]) {
      assert ApprovalKeys(db, db.approvals[a]) && ApprovalOk(db, db.approvals[a]);
    }
  }

  lemma SessionWriteIsHarmless(db: Db, table: map<Id, AgentSession>)
    requires ForeignKeys(db)
    requires forall s | s in db.sessions :: s in table && table[s].devcontainerId == db.sessions[s].devcontainerId
    requires forall s | s in table :: table[s].devcontainerId in db.devcontainers
    ensures Harmless(db, db.(sessions := table))
  {
  }

  lemma DevcontainerWriteIsHarmless(db: Db, table: map<Id, Devcontainer>)
    requires ForeignKeys(db) && db.devcontainers.Keys <= table.Keys
    ensures Harmless(db, db.(devcontainers := table))
  {
  }

  lemma InboxWriteIsHarmless(db: Db, table: map<Id, InboxRow>)
    requires ForeignKeys(db) && table.Keys == db.inbox.Keys
    requires forall i | i in table :: SameItem(table[i], db.inbox[i])
                                      && (db.inbox[i].status.Resolved? ==> table[i].status.Resolved?)
    ensures Harmless(db, db.(inbox := table))
  {
  }

  lemma OtherStepsAreHarmless(db: Db, a: Action)
    requires ForeignKeys(db) && (a.Start? ==> a.id !in db.sessions)
    requires !a.Receive? && !a.Drop? && !a.DropDevcontainer?
    ensures Harmless(db, Step(db, a))
  {
    SessionWriteIsHarmless(db, db.sessions);
    if Step(db, a) != db {
      match a
      case CreateDevcontainer(_, _, _, _) => DevcontainerWriteIsHarmless(db, Step(db, a).devcontainers);
      case Patch(_, _, _, _) => DevcontainerWriteIsHarmless(db, Step(db, a).devcontainers);
      case Start(_, _, _, _, _) => SessionWriteIsHarmless(db, Step(db, a).sessions);
      case Resume(_, _, _, _, _) => SessionWriteIsHarmless(db, Step(db, a).sessions);
      case Read(_, _) => InboxWriteIsHarmless(db, Step(db, a).inbox);
      case Close(_, _) => InboxWriteIsHarmless(db, Step(db, a).inbox);
    }
  }

  lemma HarmlessKeepsForeignKeys(db: Db, db': Db)
    requires ForeignKeys(db) && Harmless(db, db')
    ensures ForeignKeys(db')
  {
    forall x | x in db'.log ensures EventKeys(db', x) {
      assert EventKeys(db, x);
    }
    forall i | i in db'.inbox ensures InboxKeys(db', db'.inbox[i]) {
      assert InboxKeys(db, db.inbox[i]);
    }
    forall a | a in db'.approvals ensures ApprovalKeys(db', db'.approvals[a]) {
      assert ApprovalKeys(db, db.approvals[a]);
    }
  }

  /** Foreign keys are kept by every step, whatever the ids and lookups of an intake. */
  lemma StepKeepsForeignKeys(db: Db, a: Action)
    requires ForeignKeys(db) && (a.Start? ==> a.id !in db.sessions)
    ensures ForeignKeys(Step(db, a))
  {
    match a
    case Receive(e, stamps) =>
      if Persist(db, e, stamps).Success? {
        IntakeKeepsForeignKeys(db, e, stamps);
      }
    case Drop(d, s) =>
      DeletesAreClosed(db, s, d);
      DeleteKeepsForeignKeys(db, {}, {s});
    case DropDevcontainer(d) =>
      DeletesAreClosed(db, "", d);
      DeleteKeepsForeignKeys(db, {d}, SessionsOf(db, d));
    case _ =>
      OtherStepsAreHarmless(db, a);
      HarmlessKeepsForeignKeys(db, Step(db, a));
  }

  lemma DeletingStepKeepsCoherence(db: Db, a: Action)
    requires Coherent(db) && (a.Drop? || a.DropDevcontainer?)
    ensures Coherent(Step(db, a))
    ensures ApprovalsOnlyAdvance(db, Step(db, a)) && LinksSurvive(db, Step(db, a))
  {
    if a.Drop? {
      DeletesAreClosed(db, a.session, "");
      DeleteKeepsCoherence(db, {}, {a.session});
    } else {
      DeletesAreClosed(db, "", a.devcontainer);
      DeleteKeepsCoherence(db, {a.devcontainer}, SessionsOf(db, a.devcontainer));
    }
  }

  lemma LocalStepKeepsCoherence(db: Db, a: Action)
    requires Coherent(db) && Enabled(db, a) && !a.Receive? && !a.Drop? && !a.DropDevcontainer?
    ensures Coherent(Step(db, a))
    ensures ApprovalsOnlyAdvance(db, Step(db, a)) && LinksSurvive(db, Step(db, a))
  {
    OtherStepsAreHarmless(db, a);
    HarmlessKeepsCoherence(db, Step(db, a));
  }

  lemma StepKeepsCoherence(db: Db, a: Action)
    requires Coherent(db) && Enabled(db, a)
    ensures Coherent(Step(db, a))
    ensures ApprovalsOnlyAdvance(db, Step(db, a)) && LinksSurvive(db, Step(db, a))
  {
    match a
    case Receive(e, stamps) => IntakeKeepsCoherence(db, e, stamps);
    case Drop(_, _) => DeletingStepKeepsCoherence(db, a);
    case DropDevcontainer(_) => DeletingStepKeepsCoherence(db, a);
    case _ => LocalStepKeepsCoherence(db, a);
  }

  lemma {:induction false} ReachableIsCoherent(run: seq<Action>)
    requires ValidRun(EMPTY_DB, run)
    ensures Coherent(Execute(EMPTY_DB, run))
  {
    if run != [] {
      var before := run[..|run| - 1];
      ReachableIsCoherent(before);
      StepKeepsCoherence(Execute(EMPTY_DB, before), run[|run| - 1]);
    }
  }
}
