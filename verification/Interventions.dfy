/** User interventions end to end: from an accepted input or decision, through the agent's answer,
    to the row it is about; and that row is never open to the same intervention again. */
module Interventions {
  import opened Vocabulary
  import opened Tables
  import opened Reducer
  import opened Intake
  import opened Routes
  import opened Coherence
  import A = AgentHandler

  /** The event that answers the command an accepted route call has sent. */
  function AnswerOf(r: Result<Outcome, RouteError>): Option<RuntimeEvent> {
    if r.Success? && r.value.sent.Some? then A.AnswerTo(r.value.sent.value) else None
  }

  /** The rows an event needs to be recorded. */
  predicate StillThere(db: Db, devcontainer: Id, session: Id) {
    devcontainer in db.devcontainers && session in db.sessions
  }

  // ---------------------------------------------------------------- start, resume, stop

  /** Whatever the database has become, taking such an event in succeeds exactly if the session and its
      devcontainer are still there, and leaves the session with that status. */
  ghost predicate SettlesSession(e: RuntimeEvent, d: Id, session: Id, status: SessionStatus, later: Db, s: Stamps) {
    var later' := AfterIntake(later, e, s);
    && e.devcontainerId == Some(d) && e.agentSessionId == Some(session)
    && (Persist(later, e, s).Success? <==> StillThere(later, d, session))
    && (StillThere(later, d, session) ==>
          OnlyRow(later.sessions, later'.sessions, session) && later'.sessions[session].status == status)
  }

  /** The answer to an accepted start says that the session is up; taken in, it leaves it running. */
  lemma StartLands(db: Db, d: Id, id: Id, prompt: string, at: Timestamp, later: Db, s: Stamps)
    requires StartSession(db, d, true, id, prompt, at).Success?
    ensures
      var sent := StartSession(db, d, true, id, prompt, at).value.sent;
      var answer := AnswerOf(StartSession(db, d, true, id, prompt, at));
      && sent.Some? && sent.value.payload == Some(CommandPayload(prompt := Some(prompt)))
      && answer.Some? && answer.value.eventType.AgentSessionStarted?
      && SettlesSession(answer.value, d, id, SessionStatus.Running, later, s)
  {
  }

  lemma ResumeLands(db: Db, d: Id, session: Id, prompt: string, at: Timestamp, later: Db, s: Stamps)
    requires ResumeSession(db, d, session, true, prompt, at).Success?
    ensures
      var sent := ResumeSession(db, d, session, true, prompt, at).value.sent;
      var answer := AnswerOf(ResumeSession(db, d, session, true, prompt, at));
      && sent.Some? && sent.value.payload == Some(CommandPayload(prompt := Some(prompt)))
      && answer.Some? && answer.value.eventType.AgentSessionStarted?
      && SettlesSession(answer.value, d, session, SessionStatus.Running, later, s)
  {
  }

  /** The answer to an accepted stop says that the session is stopped; taken in, it leaves it so, with a
      summary that says so too. */
  lemma StopLands(db: Db, d: Id, session: Id, later: Db, s: Stamps)
    requires StopSession(db, d, session, true).Success?
    ensures
      var answer := AnswerOf(StopSession(db, d, session, true));
      && answer.Some? && answer.value.eventType.SessionStopped?
      && SettlesSession(answer.value, d, session, SessionStatus.Stopped, later, s)
      && (StillThere(later, d, session) ==>
            var later' := AfterIntake(later, answer.value, s);
            session in later'.summaries && later'.summaries[session].finalStatus.Stopped?)
  {
  }

  /** A run's end, taken in: the session has the outcome's status, an unread item and the summary show its
      result, or the end of its error output if it failed. */
  lemma EndLands(d: Id, session: Id, outcome: A.ClaudeOutcome, later: Db, s: Stamps)
    ensures
      var e := A.EndEvent(Some(d), Some(session), outcome);
      var status := if outcome.ClaudeResult? then Completed else Failed;
      var text := if outcome.ClaudeResult? then outcome.text else outcome.stderrTail;
      && SettlesSession(e, d, session, status, later, s)
      && (StillThere(later, d, session) ==>
            var later' := AfterIntake(later, e, s);
            && session in later'.summaries && s.inboxId in later'.inbox
            && later'.summaries[session].finalStatus == status && later'.summaries[session].summaryText == Some(text)
            && later'.inbox[s.inboxId].status.Unread? && later'.inbox[s.inboxId].content == Some(text)
            && later'.inbox[s.inboxId].agentSessionId == Some(session))
  {
    var e := A.EndEvent(Some(d), Some(session), outcome);
    assert Reduce(Recorded(e, s)).Success?;
  }

  // ---------------------------------------------------------------- requests and questions

  /** A request taken in from an addressed agent puts its action up for decision: the route accepts
      either decision on it, and one unread inbox row is linked to it. */
  lemma RequestIsUpForDecision(db: Db, e: RuntimeEvent, s: Stamps, d: Id, session: Id, resolution: string)
    requires Coherent(db) && FreshStamps(db, s) && Owns(db, d, session)
    requires e.eventType.ApprovalRequested? && e.devcontainerId == Some(d) && e.agentSessionId == Some(session)
    ensures
      var db' := AfterIntake(db, e, s);
      && DecideApproval(db', d, session, s.approvalId, resolution, true).Success?
      && Some(db'.approvals[s.approvalId].requestedAction)
         == (if PayloadOf(e).requestedAction.Some? then PayloadOf(e).requestedAction else Some(""))
      && AnswersGetByApproval(db'.inbox, s.approvalId, Some(s.inboxId)) && db'.inbox[s.inboxId].status.Unread?
  {
    IntakeSucceedsExactly(db, e, s);
  }

  /** A question taken in for an active session can be answered, and its row shows it. */
  lemma QuestionIsUpForAnswer(db: Db, e: RuntimeEvent, s: Stamps, d: Id, session: Id, text: string)
    requires Coherent(db) && FreshStamps(db, s) && Owns(db, d, session) && Active(db.sessions[session].status)
    requires e.eventType.AgentAskedQuestion? && e.devcontainerId == Some(d) && e.agentSessionId == Some(session)
    ensures
      var db' := AfterIntake(db, e, s);
      && SendInput(db', d, session, s.inboxId, text, true).Success?
      && db'.inbox[s.inboxId].content == PayloadOf(e).question
  {
    IntakeSucceedsExactly(db, e, s);
  }

  /** An accepted input, answered and taken in by whatever the database has become meanwhile,
      resolves its inbox item and writes nothing else but the log; it is refused if the session is
      gone by then. */
  lemma InputLands(db: Db, d: Id, session: Id, item: Id, text: string, later: Db, s: Stamps)
    requires SendInput(db, d, session, item, text, true).Success?
    ensures
      var answer := AnswerOf(SendInput(db, d, session, item, text, true));
      && answer.Some?
      && Persist(later, answer.value, s)
         == if StillThere(later, d, session) then
              Success(later.(log := later.log + [Recorded(answer.value, s)],
                             inbox := ResolveInboxRow(later.inbox, item, s.resolvedAt)))
            else Failure(ForeignKeyViolation)
  {
    var answer := AnswerOf(SendInput(db, d, session, item, text, true)).value;
    assert PayloadOf(Recorded(answer, s)).inboxEventId == Some(item);
  }

  /** An accepted decision likewise decides its approval as asked, resumes the session and resolves
      the row linked to the approval. */
  lemma DecisionLands(db: Db, d: Id, session: Id, approval: Id, resolution: string, later: Db, s: Stamps)
    requires DecideApproval(db, d, session, approval, resolution, true).Success?
    requires ParseResolution(Some(resolution)).Some?
    ensures
      var answer := AnswerOf(DecideApproval(db, d, session, approval, resolution, true));
      && answer.Some?
      && Persist(later, answer.value, s)
         == if StillThere(later, d, session) then
              Success(later.(
                      log := later.log + [Recorded(answer.value, s)],
                      sessions := SetStatus(later.sessions, session, SessionStatus.Running, s.sessionAt),
                      approvals := ResolveApprovalRow(later.approvals, approval,
                                                      ParseResolution(Some(resolution)).value, s.decidedAt),
                      inbox := if approval in later.approvals && s.linked.Some?
                               then ResolveInboxRow(later.inbox, s.linked.value, s.linkedAt) else later.inbox))
            else Failure(ForeignKeyViolation)
  {
    var answer := AnswerOf(DecideApproval(db, d, session, approval, resolution, true)).value;
    assert PayloadOf(Recorded(answer, s)).approvalRequestId == Some(approval);
    assert PayloadOf(Recorded(answer, s)).resolution == Some(resolution);
  }

  // ---------------------------------------------------------------- for good

  /** Rows get UUIDs: no later insert reuses the id of a row that there has been. */
  predicate NeverReissued(run: seq<Action>, id: Id) {
    forall a | a in run && a.Receive? :: a.stamps.inboxId != id && a.stamps.approvalId != id
  }

  predicate ItemClosed(db: Db, item: Id) {
    item in db.inbox ==> db.inbox[item].status.Resolved?
  }

  predicate Decided(db: Db, approval: Id) {
    approval in db.approvals ==> !db.approvals[approval].status.Pending?
  }

  lemma StepKeepsClosed(db: Db, a: Action, item: Id)
    requires ItemClosed(db, item) && (a.Receive? ==> a.stamps.inboxId != item)
    ensures ItemClosed(Step(db, a), item)
  {
    if a.Receive? && Persist(db, a.event, a.stamps).Success? {
      var r := Recorded(a.event, a.stamps);
      InboxAfterShape(db.(log := db.log + [r]), r, Reduce(r).value, a.stamps);
    }
  }

  lemma StepKeepsDecided(db: Db, a: Action, approval: Id)
    requires Decided(db, approval) && Enabled(db, a) && (a.Receive? ==> a.stamps.approvalId != approval)
    ensures Decided(Step(db, a), approval)
  {
    if a.Receive? && Persist(db, a.event, a.stamps).Success? {
      var r := Recorded(a.event, a.stamps);
      UpdateShape(r);
      ApprovalsAfterShape(db.(log := db.log + [r]), r, Reduce(r).value, a.stamps);
    }
  }

  /** Once resolved, an inbox item stays so over every run, and no input for it is accepted again. */
  lemma {:induction false} ResolvedForGood(db: Db, run: seq<Action>, item: Id, d: Id, session: Id, text: string,
                                          connected: bool)
    requires ItemClosed(db, item) && ValidRun(db, run) && NeverReissued(run, item)
    ensures ItemClosed(Execute(db, run), item)
    ensures SendInput(Execute(db, run), d, session, item, text, connected).Failure?
  {
    if run != [] {
      var front := run[..|run| - 1];
      assert forall a | a in front :: a in run;
      ResolvedForGood(db, front, item, d, session, text, connected);
      StepKeepsClosed(Execute(db, front), run[|run| - 1], item);
    }
  }

  /** Once decided, an approval stays decided over every run, and no decision on it is accepted again. */
  lemma {:induction false} DecidedForGood(db: Db, run: seq<Action>, approval: Id, d: Id, session: Id,
                                          resolution: string, connected: bool)
    requires Decided(db, approval) && ValidRun(db, run) && NeverReissued(run, approval)
    ensures Decided(Execute(db, run), approval)
    ensures DecideApproval(Execute(db, run), d, session, approval, resolution, connected).Failure?
  {
    if run != [] {
      var front := run[..|run| - 1];
      assert forall a | a in front :: a in run;
      DecidedForGood(db, front, approval, d, session, resolution, connected);
      StepKeepsDecided(Execute(db, front), run[|run| - 1], approval);
    }
  }

  /** After an input's answer has been taken in, over any further run, a second input for the same item
      is refused. */
  lemma AnsweredInputClosesItem(db: Db, d: Id, session: Id, item: Id, text: string, later: Db, s: Stamps,
                                run: seq<Action>, again: string)
    requires SendInput(db, d, session, item, text, true).Success? && StillThere(later, d, session)
    requires
      var db' := AfterIntake(later, AnswerOf(SendInput(db, d, session, item, text, true)).value, s);
      ValidRun(db', run) && NeverReissued(run, item)
    ensures
      var db' := AfterIntake(later, AnswerOf(SendInput(db, d, session, item, text, true)).value, s);
      SendInput(Execute(db', run), d, session, item, again, true).Failure?
  {
    InputLands(db, d, session, item, text, later, s);
    var db' := AfterIntake(later, AnswerOf(SendInput(db, d, session, item, text, true)).value, s);
    ResolvedForGood(db', run, item, d, session, again, true);
  }

  /** After a decision's answer has been taken in by a coherent database, the approval has the status
      decided, its linked inbox row is resolved, and over any further run no second decision on it is
      accepted. A second decision accepted before that is another matter: see below. */
  lemma AnsweredDecisionClosesApproval(db: Db, d: Id, session: Id, approval: Id, resolution: string, later: Db,
                                       s: Stamps, run: seq<Action>, again: string)
    requires DecideApproval(db, d, session, approval, resolution, true).Success? && StillThere(later, d, session)
    requires ParseResolution(Some(resolution)).Some? && Coherent(later) && FreshStamps(later, s)
    requires ValidAnswer(later, AnswerOf(DecideApproval(db, d, session, approval, resolution, true)).value, s)
    requires
      var db' := AfterIntake(later, AnswerOf(DecideApproval(db, d, session, approval, resolution, true)).value, s);
      ValidRun(db', run) && NeverReissued(run, approval)
    ensures
      var db' := AfterIntake(later, AnswerOf(DecideApproval(db, d, session, approval, resolution, true)).value, s);
      && (approval in db'.approvals ==> db'.approvals[approval].status == ParseResolution(Some(resolution)).value
                                        && db'.approvals[approval].decidedAt.Some?)
      && (forall i | i in db'.inbox && db'.inbox[i].approvalRequestId == Some(approval) ::
            db'.inbox[i].status.Resolved?)
      && DecideApproval(Execute(db', run), d, session, approval, again, true).Failure?
  {
    var answer := AnswerOf(DecideApproval(db, d, session, approval, resolution, true)).value;
    DecisionLands(db, d, session, approval, resolution, later, s);
    var db' := AfterIntake(later, answer, s);
    IntakeKeepsCoherence(later, answer, s);
    forall i | i in db'.inbox && db'.inbox[i].approvalRequestId == Some(approval)
      ensures db'.inbox[i].status.Resolved?
    {
      assert LinkOk(db', db'.inbox[i]);
    }
    DecidedForGood(db', run, approval, d, session, again, true);
  }

  /** An item closed by its route is closed for good: over any further run every input for it is refused. */
  lemma ClosedItemRefusesInput(db: Db, item: Id, at: Timestamp, run: seq<Action>, d: Id, session: Id, text: string,
                               connected: bool)
    requires CloseInbox(db, item, at).Success?
    requires ValidRun(CloseInbox(db, item, at).value.db, run) && NeverReissued(run, item)
    ensures
      var db' := CloseInbox(db, item, at).value.db;
      && item in db'.inbox && db'.inbox[item].status.Resolved?
      && SendInput(Execute(db', run), d, session, item, text, connected).Failure?
  {
    ResolvedForGood(CloseInbox(db, item, at).value.db, run, item, d, session, text, connected);
  }

  /** A read item is no longer unread, but a question that is only read can still be answered. */
  lemma ReadItemStaysOpen(db: Db, item: Id, at: Timestamp, d: Id, session: Id, text: string, connected: bool)
    requires ReadInbox(db, item, at).Success?
    ensures
      var db' := ReadInbox(db, item, at).value.db;
      && item in db'.inbox && !db'.inbox[item].status.Unread?
      && (db.inbox[item].status.Unread? ==> db'.inbox[item].status.Read?)
      && (SendInput(db', d, session, item, text, connected).Success?
          <==> SendInput(db, d, session, item, text, connected).Success?)
  {
  }

  // ---------------------------------------------------------------- overturned decisions

  /** The event, if taken in, gives the approval another status than it has. */
  predicate Overturns(db: Db, a: Action, approval: Id)
    requires approval in db.approvals
  {
    && a.Receive? && EventKeys(db, a.event)
    && ResolutionTarget(a.event) == Some(approval)
    && ParseResolution(PayloadOf(a.event).resolution).Some?
    && ParseResolution(PayloadOf(a.event).resolution).value != db.approvals[approval].status
  }

  lemma IntakeSetsApproval(db: Db, e: RuntimeEvent, s: Stamps, approval: Id)
    requires approval in db.approvals && s.approvalId !in db.approvals && Persist(db, e, s).Success?
    ensures approval in AfterIntake(db, e, s).approvals
    ensures AfterIntake(db, e, s).approvals[approval].status
            == if ResolutionTarget(e) == Some(approval) then ParseResolution(PayloadOf(e).resolution).value
               else db.approvals[approval].status
  {
    var r := Recorded(e, s);
    UpdateShape(r);
    ApprovalsAfterShape(db.(log := db.log + [r]), r, Reduce(r).value, s);
  }

  lemma OtherStepsKeepApprovals(db: Db, a: Action, approval: Id)
    requires approval in db.approvals && approval in Step(db, a).approvals && !a.Receive?
    ensures Step(db, a).approvals[approval] == db.approvals[approval]
  {
  }

  /** The one way an approval that stays changes its status. */
  lemma StepOverturnsExactly(db: Db, a: Action, approval: Id)
    requires ForeignKeys(db) && Enabled(db, a)
    requires approval in db.approvals && approval in Step(db, a).approvals
    ensures Step(db, a).approvals[approval].status != db.approvals[approval].status <==> Overturns(db, a, approval)
  {
    if a.Receive? {
      IntakeSucceedsExactly(db, a.event, a.stamps);
      if Persist(db, a.event, a.stamps).Success? {
        IntakeSetsApproval(db, a.event, a.stamps, approval);
      }
    } else {
      OtherStepsKeepApprovals(db, a, approval);
    }
  }

  ghost predicate StandsThroughout(db: Db, run: seq<Action>, approval: Id, status: ApprovalStatus) {
    && (approval in Execute(db, run).approvals ==> Execute(db, run).approvals[approval].status == status)
    && (run != [] ==> StandsThroughout(db, run[..|run| - 1], approval, status))
  }

  /** No step of the run takes in a resolution of the approval that differs from its status. */
  ghost predicate NeverOverturned(db: Db, run: seq<Action>, approval: Id) {
    run != [] ==>
      var before := Execute(db, run[..|run| - 1]);
      && NeverOverturned(db, run[..|run| - 1], approval)
      && (approval in before.approvals ==> !Overturns(before, run[|run| - 1], approval))
  }

  lemma StepDoesNotReissue(db: Db, a: Action, approval: Id)
    requires approval !in db.approvals && (a.Receive? ==> a.stamps.approvalId != approval)
    ensures approval !in Step(db, a).approvals
  {
  }

  lemma {:induction false} RunsStayCoherent(db: Db, run: seq<Action>)
    requires Coherent(db) && ValidRun(db, run)
    ensures Coherent(Execute(db, run))
  {
    if run != [] {
      RunsStayCoherent(db, run[..|run| - 1]);
      StepKeepsCoherence(Execute(db, run[..|run| - 1]), run[|run| - 1]);
    }
  }

  /** Over every run: an approval keeps its status for as long as it exists exactly if no differing
      resolution of it is taken in. */
  lemma {:induction false} DecisionStandsExactly(db: Db, run: seq<Action>, approval: Id)
    requires Coherent(db) && ValidRun(db, run) && NeverReissued(run, approval) && approval in db.approvals
    ensures StandsThroughout(db, run, approval, db.approvals[approval].status) <==> NeverOverturned(db, run, approval)
  {
    if run != [] {
      var front, a := run[..|run| - 1], run[|run| - 1];
      assert forall x | x in front :: x in run;
      DecisionStandsExactly(db, front, approval);
      RunsStayCoherent(db, front);
      var before := Execute(db, front);
      if approval !in before.approvals {
        StepDoesNotReissue(before, a, approval);
      } else if StandsThroughout(db, front, approval, db.approvals[approval].status) {
        if approval in Step(before, a).approvals {
          StepOverturnsExactly(before, a, approval);
        } else if a.Receive? {
          IntakesKeepApprovals(before, a, approval);
        }
      }
    }
  }

  lemma IntakesKeepApprovals(db: Db, a: Action, approval: Id)
    requires approval in db.approvals && a.Receive? && Enabled(db, a)
    ensures approval in Step(db, a).approvals
  {
    if Persist(db, a.event, a.stamps).Success? {
      IntakeSetsApproval(db, a.event, a.stamps, approval);
    }
  }

  /** An input that shows it: while an approval is pending the route accepts both decisions, and when
      both answers are taken in the later one overturns the earlier. */
  lemma CrossedDecisions(db: Db, d: Id, session: Id, approval: Id, s1: Stamps, s2: Stamps)
    requires ForeignKeys(db) && DecideApproval(db, d, session, approval, "approved", true).Success?
    requires s1.approvalId !in db.approvals && s2.approvalId !in db.approvals
    ensures DecideApproval(db, d, session, approval, "rejected", true).Success?
    ensures
      var first := Receive(AnswerOf(DecideApproval(db, d, session, approval, "approved", true)).value, s1);
      var second := Receive(AnswerOf(DecideApproval(db, d, session, approval, "rejected", true)).value, s2);
      var db1 := Step(db, first);
      var db2 := Step(db1, second);
      && approval in db1.approvals && db1.approvals[approval].status.Approved?
      && approval in db2.approvals && db2.approvals[approval].status.Rejected?
      && Overturns(db1, second, approval)
  {
    AnswerSetsStatus(db, d, session, approval, "approved", db, s1);
    var first := Receive(AnswerOf(DecideApproval(db, d, session, approval, "approved", true)).value, s1);
    AnswerSetsStatus(db, d, session, approval, "rejected", Step(db, first), s2);
  }

  lemma AnswerSetsStatus(db: Db, d: Id, session: Id, approval: Id, resolution: string, later: Db, s: Stamps)
    requires DecideApproval(db, d, session, approval, resolution, true).Success?
    requires ParseResolution(Some(resolution)).Some?
    requires StillThere(later, d, session) && approval in later.approvals && s.approvalId !in later.approvals
    ensures
      var answer := AnswerOf(DecideApproval(db, d, session, approval, resolution, true));
      && answer.Some?
      && ResolutionTarget(answer.value) == Some(approval) && PayloadOf(answer.value).resolution == Some(resolution)
      && EventKeys(later, answer.value)
      && var later' := AfterIntake(later, answer.value, s);
         && StillThere(later', d, session) && later'.approvals.Keys == later.approvals.Keys
         && later'.approvals[approval].status == ParseResolution(Some(resolution)).value
  {
    DecisionLands(db, d, session, approval, resolution, later, s);
  }
}
