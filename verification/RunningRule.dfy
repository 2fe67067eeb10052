/** The glossary's rule that a session is only starting or running while its devcontainer is running:
    what keeps it and exactly what breaks it. The rule is read literally or, with `waiting`, so that a
    session waiting for approval counts as running. */
module RunningRule {
  import opened Vocabulary
  import opened Tables
  import opened Reducer
  import opened Intake
  import opened Routes
  import opened Coherence
  import opened ActiveSession

  /** The statuses that the rule binds to a running devcontainer. */
  predicate Bound(status: SessionStatus, waiting: bool) {
    status.Starting? || status.Running? || (waiting && status.WaitingForApproval?)
  }

  predicate IsRunning(db: Db, d: Id) {
    d in db.devcontainers && db.devcontainers[d].status.Running?
  }

  predicate InRunning(db: Db, session: Id, waiting: bool)
    requires session in db.sessions
  {
    Bound(db.sessions[session].status, waiting) ==> IsRunning(db, db.sessions[session].devcontainerId)
  }

  ghost predicate BoundOnlyInRunning(db: Db, waiting: bool) {
    forall s | s in db.sessions :: InRunning(db, s, waiting)
  }

  predicate HasBound(db: Db, devcontainer: Id, waiting: bool) {
    exists s | s in db.sessions ::
      db.sessions[s].devcontainerId == devcontainer && Bound(db.sessions[s].status, waiting)
  }

  /** The event takes a devcontainer that has a bound session out of running. */
  predicate StopsUnderSession(db: Db, e: RuntimeEvent, waiting: bool) {
    && DevcontainerNews(e.eventType).Some? && !DevcontainerNews(e.eventType).value.Running?
    && e.devcontainerId.Some? && HasBound(db, e.devcontainerId.value, waiting)
  }

  /** The event binds a session whose devcontainer is not running. */
  predicate BindsInStopped(db: Db, e: RuntimeEvent, waiting: bool) {
    && NewStatus(e).Some? && Bound(NewStatus(e).value, waiting)
    && e.agentSessionId.Some? && e.agentSessionId.value in db.sessions
    && !IsRunning(db, db.sessions[e.agentSessionId.value].devcontainerId)
  }

  lemma OneOrTheOther(e: RuntimeEvent)
    requires Reduce(e).Success?
    ensures Reduce(e).value.devcontainerStatus == DevcontainerNews(e.eventType)
    ensures Reduce(e).value.sessionStatus == NewStatus(e)
    ensures DevcontainerNews(e.eventType).None? || NewStatus(e).None?
  {
  }

  /** An accepted intake breaks the rule exactly in those two ways. */
  lemma IntakeBreaksExactly(db: Db, e: RuntimeEvent, s: Stamps, waiting: bool)
    requires ForeignKeys(db) && BoundOnlyInRunning(db, waiting) && Persist(db, e, s).Success?
    ensures BoundOnlyInRunning(AfterIntake(db, e, s), waiting)
            <==> !StopsUnderSession(db, e, waiting) && !BindsInStopped(db, e, waiting)
  {
    var r, db' := Recorded(e, s), AfterIntake(db, e, s);
    OneOrTheOther(r);
    assert NewStatus(r) == NewStatus(e);
    assert db'.devcontainers == DevcontainersAfter(db.devcontainers, r, Reduce(r).value, s);
    IntakeSessions(db, e, s);
    if NewStatus(e).Some? {
      SessionNewsBreaksExactly(db, db', e, s, waiting);
    } else {
      DevcontainerNewsBreaksExactly(db, db', e, s, waiting);
    }
  }

  lemma SessionNewsBreaksExactly(db: Db, db': Db, e: RuntimeEvent, s: Stamps, waiting: bool)
    requires ForeignKeys(db) && BoundOnlyInRunning(db, waiting) && NewStatus(e).Some?
    requires db'.devcontainers == db.devcontainers
    requires db'.sessions == if e.agentSessionId.Some?
                             then SetStatus(db.sessions, e.agentSessionId.value, NewStatus(e).value, s.sessionAt)
                             else db.sessions
    ensures BoundOnlyInRunning(db', waiting) <==> !BindsInStopped(db, e, waiting)
  {
    forall x | x in db'.sessions && e.agentSessionId != Some(x) ensures InRunning(db', x, waiting) {
      assert InRunning(db, x, waiting);
    }
    if e.agentSessionId.Some? && e.agentSessionId.value in db.sessions {
      assert InRunning(db', e.agentSessionId.value, waiting) <==> !BindsInStopped(db, e, waiting);
    }
  }

  lemma DevcontainerNewsBreaksExactly(db: Db, db': Db, e: RuntimeEvent, s: Stamps, waiting: bool)
    requires ForeignKeys(db) && BoundOnlyInRunning(db, waiting) && db'.sessions == db.sessions
    requires var news := DevcontainerNews(e.eventType);
             db'.devcontainers == if news.Some? && e.devcontainerId.Some?
                                  then UpdateDevcontainer(db.devcontainers, e.devcontainerId.value, None, news,
                                                          s.devcontainerAt)
                                  else db.devcontainers
    ensures BoundOnlyInRunning(db', waiting) <==> !StopsUnderSession(db, e, waiting)
  {
    forall x | x in db.sessions ensures InRunning(db, x, waiting) {
    }
    if StopsUnderSession(db, e, waiting) {
      var x :| x in db.sessions && db.sessions[x].devcontainerId == e.devcontainerId.value
               && Bound(db.sessions[x].status, waiting);
      assert InRunning(db, x, waiting) && !InRunning(db', x, waiting);
    } else {
      forall x | x in db'.sessions ensures InRunning(db', x, waiting) {
        assert InRunning(db, x, waiting);
      }
    }
  }

  /** The PATCH takes a devcontainer that has a bound session out of running. */
  predicate PatchesUnderSession(db: Db, a: Action, waiting: bool) {
    a.Patch? && a.status.Some? && !a.status.value.Running? && HasBound(db, a.devcontainer, waiting)
  }

  /** The steps that break the rule: such an intake, or such a PATCH. */
  predicate Breaks(db: Db, a: Action, waiting: bool) {
    || PatchesUnderSession(db, a, waiting)
    || (a.Receive? && Acceptable(db, a.event)
        && (StopsUnderSession(db, a.event, waiting) || BindsInStopped(db, a.event, waiting)))
  }

  lemma PatchBreaksExactly(db: Db, a: Action, waiting: bool)
    requires ForeignKeys(db) && BoundOnlyInRunning(db, waiting) && a.Patch?
    ensures BoundOnlyInRunning(Step(db, a), waiting) <==> !PatchesUnderSession(db, a, waiting)
  {
    var db' := Step(db, a);
    if PatchesUnderSession(db, a, waiting) {
      var x :| x in db.sessions && db.sessions[x].devcontainerId == a.devcontainer
               && Bound(db.sessions[x].status, waiting);
      assert InRunning(db, x, waiting) && !InRunning(db', x, waiting);
    } else {
      forall x | x in db'.sessions ensures InRunning(db', x, waiting) {
        assert InRunning(db, x, waiting);
      }
    }
  }

  lemma DeleteKeepsRunning(db: Db, deadDevcontainers: set<Id>, deadSessions: set<Id>, waiting: bool)
    requires BoundOnlyInRunning(db, waiting) && Closed(db, deadDevcontainers, deadSessions)
    ensures BoundOnlyInRunning(DeleteRows(db, deadDevcontainers, deadSessions), waiting)
  {
    var left := DeleteRows(db, deadDevcontainers, deadSessions);
    forall x | x in left.sessions ensures InRunning(left, x, waiting) {
      assert InRunning(db, x, waiting);
    }
  }

  /** Starts and resumes keep the rule by their guards, creates, deletes and inbox calls without. */
  lemma StepBreaksExactly(db: Db, a: Action, waiting: bool)
    requires ForeignKeys(db) && BoundOnlyInRunning(db, waiting) && Enabled(db, a)
    ensures BoundOnlyInRunning(Step(db, a), waiting) <==> !Breaks(db, a, waiting)
  {
    match a
    case Receive(e, stamps) =>
      IntakeSucceedsExactly(db, e, stamps);
      if Persist(db, e, stamps).Success? {
        IntakeBreaksExactly(db, e, stamps, waiting);
      }
    case Patch(_, _, _, _) => PatchBreaksExactly(db, a, waiting);
    case Drop(d, s) =>
      DeletesAreClosed(db, s, d);
      DeleteKeepsRunning(db, {}, {s}, waiting);
    case DropDevcontainer(d) =>
      DeletesAreClosed(db, "", d);
      DeleteKeepsRunning(db, {d}, SessionsOf(db, d), waiting);
    case _ =>
      forall x | x in Step(db, a).sessions ensures InRunning(Step(db, a), x, waiting) {
        assert x in db.sessions ==> InRunning(db, x, waiting);
      }
  }

  ghost predicate RunningThroughout(run: seq<Action>, waiting: bool) {
    BoundOnlyInRunning(Execute(EMPTY_DB, run), waiting) && (run != [] ==> RunningThroughout(run[..|run| - 1], waiting))
  }

  ghost predicate NeverBreaks(run: seq<Action>, waiting: bool) {
    run != [] ==>
      NeverBreaks(run[..|run| - 1], waiting) && !Breaks(Execute(EMPTY_DB, run[..|run| - 1]), run[|run| - 1], waiting)
  }

  /** Over every run, and on either reading, sessions are bound only in running devcontainers exactly if
      no step breaks it. */
  lemma {:induction false} RunningThroughoutExactly(run: seq<Action>, waiting: bool)
    requires ValidRun(EMPTY_DB, run)
    ensures RunningThroughout(run, waiting) <==> NeverBreaks(run, waiting)
  {
    if run != [] {
      var before := run[..|run| - 1];
      RunningThroughoutExactly(before, waiting);
      ReachableIsCoherent(before);
      if RunningThroughout(before, waiting) {
        assert BoundOnlyInRunning(Execute(EMPTY_DB, before), waiting);
        StepBreaksExactly(Execute(EMPTY_DB, before), run[|run| - 1], waiting);
      }
    }
  }

  /** An input that breaks either reading: the worker's report that a devcontainer has stopped, beside a
      session that is starting or running in it. */
  lemma StoppedUnderSession(db: Db, e: RuntimeEvent, s: Stamps, session: Id, waiting: bool)
    requires ForeignKeys(db) && BoundOnlyInRunning(db, waiting)
    requires session in db.sessions && Bound(db.sessions[session].status, false)
    requires e.eventType.DevcontainerStopped? && e.agentSessionId.None?
    requires e.devcontainerId == Some(db.sessions[session].devcontainerId)
    ensures Persist(db, e, s).Success? && !BoundOnlyInRunning(AfterIntake(db, e, s), waiting)
  {
    IntakeSucceedsExactly(db, e, s);
    IntakeBreaksExactly(db, e, s, waiting);
    assert InRunning(db, session, waiting);
  }

  /** The readings differ: an approval request in a stopped devcontainer breaks only the wider one. */
  lemma ReadingsDiffer(db: Db, e: RuntimeEvent, s: Stamps, session: Id)
    requires ForeignKeys(db) && BoundOnlyInRunning(db, true) && session in db.sessions
    requires !IsRunning(db, db.sessions[session].devcontainerId)
    requires e.eventType.ApprovalRequested? && e.agentSessionId == Some(session) && EventKeys(db, e)
    ensures BoundOnlyInRunning(AfterIntake(db, e, s), false) && !BoundOnlyInRunning(AfterIntake(db, e, s), true)
  {
    assert forall x | x in db.sessions :: InRunning(db, x, true) ==> InRunning(db, x, false);
    IntakeSucceedsExactly(db, e, s);
    IntakeBreaksExactly(db, e, s, false);
    IntakeBreaksExactly(db, e, s, true);
  }
}
