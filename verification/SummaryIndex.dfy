/** The summary table as an index of the log, and resting sessions against their summaries. */
module SummaryIndex {
  import opened Vocabulary
  import opened Tables
  import opened Reducer
  import opened Intake
  import opened Routes
  import opened Coherence

  function FinalStatus(t: EventType): Option<SessionStatus> {
    match t
    case SessionCompleted => Some(Completed)
    case SessionFailed => Some(Failed)
    case SessionStopped => Some(SessionStatus.Stopped)
    case _ => None
  }

  function FinalText(e: RuntimeEvent): Option<string> {
    match e.eventType
    case SessionCompleted => PayloadOf(e).result
    case SessionFailed => PayloadOf(e).stderrTail
    case _ => None
  }

  predicate EndsSession(e: RuntimeEvent, session: Id) {
    e.agentSessionId == Some(session) && FinalStatus(e.eventType).Some?
  }

  /** The last terminal event of the session in the log. */
  function LastEnd(log: seq<RuntimeEvent>, session: Id): Option<RuntimeEvent> {
    if log == [] then None
    else if EndsSession(log[|log| - 1], session) then Some(log[|log| - 1])
    else LastEnd(log[..|log| - 1], session)
  }

  predicate SummaryTells(row: Summary, e: RuntimeEvent) {
    && Some(row.finalStatus) == FinalStatus(e.eventType)
    && row.lastKnownEvent == Some(e.eventType)
    && row.endedAt == Some(e.createdAt)
    && row.summaryText == FinalText(e)
  }

  /** The session's summary is there exactly if the log ends the session, and tells of its last end. */
  predicate Indexed(db: Db, session: Id) {
    match LastEnd(db.log, session)
    case None => session !in db.summaries
    case Some(e) => session in db.summaries && SummaryTells(db.summaries[session], e)
  }

  ghost predicate IndexesLog(db: Db) {
    forall s | s in db.sessions :: Indexed(db, s)
  }

  lemma {:induction false} LastEndIsInLog(log: seq<RuntimeEvent>, session: Id)
    ensures var end := LastEnd(log, session); end.Some? ==> end.value in log && EndsSession(end.value, session)
    ensures LastEnd(log, session).None? ==> forall e | e in log :: !EndsSession(e, session)
  {
    if log != [] {
      LastEndIsInLog(log[..|log| - 1], session);
      assert log == log[..|log| - 1] + [log[|log| - 1]];
    }
  }

  /** If a delete spares the session's last end, it stays the last. */
  lemma {:induction false} LastEndSurvives(log: seq<RuntimeEvent>, session: Id,
                                          deadDevcontainers: set<Id>, deadSessions: set<Id>)
    requires var end := LastEnd(log, session);
             end.Some? ==> EventSurvives(end.value, deadDevcontainers, deadSessions)
    ensures LastEnd(SurvivingLog(log, deadDevcontainers, deadSessions), session) == LastEnd(log, session)
  {
    if log != [] {
      var front, last := log[..|log| - 1], log[|log| - 1];
      var kept := SurvivingLog(front, deadDevcontainers, deadSessions);
      assert (kept + [last])[..|kept|] == kept;
      if !EndsSession(last, session) {
        LastEndSurvives(front, session, deadDevcontainers, deadSessions);
      }
    }
  }

  // ---------------------------------------------------------------- clock readings

  /** No two ends of a session are recorded at the same clock reading. */
  predicate Apart(e: RuntimeEvent, other: RuntimeEvent) {
    && e.agentSessionId == other.agentSessionId
    && FinalStatus(e.eventType).Some? && FinalStatus(other.eventType).Some?
    ==> e.createdAt != other.createdAt
  }

  ghost predicate EndsApart(log: seq<RuntimeEvent>) {
    log != [] ==>
      var front, last := log[..|log| - 1], log[|log| - 1];
      EndsApart(front) && forall e | e in front :: Apart(e, last)
  }

  lemma {:induction false} ApartInLog(log: seq<RuntimeEvent>, e: RuntimeEvent, other: RuntimeEvent)
    requires EndsApart(log) && e in log && other in log && e != other
    ensures Apart(e, other)
  {
    var front, last := log[..|log| - 1], log[|log| - 1];
    assert log == front + [last];
    if e != last && other != last {
      ApartInLog(front, e, other);
    } else if e == last {
      assert Apart(other, last);
    }
  }

  lemma {:induction false} SurvivorsStayApart(log: seq<RuntimeEvent>, deadDevcontainers: set<Id>, deadSessions: set<Id>)
    requires EndsApart(log)
    ensures EndsApart(SurvivingLog(log, deadDevcontainers, deadSessions))
  {
    if log != [] {
      var front, last := log[..|log| - 1], log[|log| - 1];
      SurvivorsStayApart(front, deadDevcontainers, deadSessions);
      var kept := SurvivingLog(front, deadDevcontainers, deadSessions);
      assert (kept + [last])[..|kept|] == kept;
    }
  }

  predicate TicksApart(db: Db, a: Action) {
    a.Receive? ==> forall e | e in db.log :: Apart(e, Recorded(a.event, a.stamps))
  }

  lemma StepStaysApart(db: Db, a: Action)
    requires EndsApart(db.log) && TicksApart(db, a)
    ensures EndsApart(Step(db, a).log)
  {
    match a
    case Receive(e, stamps) =>
      if Persist(db, e, stamps).Success? {
        assert Step(db, a).log == db.log + [Recorded(e, stamps)];
        assert Step(db, a).log[..|db.log|] == db.log;
      }
    case Drop(d, s) => SurvivorsStayApart(db.log, {}, {s});
    case DropDevcontainer(d) => SurvivorsStayApart(db.log, {d}, SessionsOf(db, d));
    case _ =>
  }

  // ---------------------------------------------------------------- deletes

  lemma SparedEndKeepsIndexed(db: Db, deadDevcontainers: set<Id>, deadSessions: set<Id>, s: Id)
    requires Indexed(db, s) && s !in deadSessions
    requires var end := LastEnd(db.log, s);
             end.Some? ==> EventSurvives(end.value, deadDevcontainers, deadSessions)
    ensures Indexed(DeleteRows(db, deadDevcontainers, deadSessions), s)
  {
    LastEndSurvives(db.log, s, deadDevcontainers, deadSessions);
  }

  /** A summary whose end is gone tells of no end that is left. */
  lemma LostEndBreaksIndexed(db: Db, deadDevcontainers: set<Id>, deadSessions: set<Id>, s: Id)
    requires Indexed(db, s) && s !in deadSessions
    requires var end := LastEnd(db.log, s);
             && end.Some? && !EventSurvives(end.value, deadDevcontainers, deadSessions)
             && forall e | e in db.log && e != end.value && EndsSession(e, s) :: e.createdAt != end.value.createdAt
    ensures !Indexed(DeleteRows(db, deadDevcontainers, deadSessions), s)
  {
    LastEndIsInLog(SurvivingLog(db.log, deadDevcontainers, deadSessions), s);
  }

  /** Some other devcontainer's session was last ended by an event that names this one. */
  ghost predicate HoldsForeignEnd(db: Db, d: Id) {
    exists s | s in db.sessions :: ForeignEnd(db, d, s)
  }

  predicate ForeignEnd(db: Db, d: Id, s: Id)
    requires s in db.sessions
  {
    && db.sessions[s].devcontainerId != d
    && LastEnd(db.log, s).Some? && LastEnd(db.log, s).value.devcontainerId == Some(d)
  }

  lemma DropSessionKeepsIndex(db: Db, session: Id)
    requires IndexesLog(db)
    ensures IndexesLog(DeleteSession(db, session))
  {
    forall s | s in db.sessions && s != session ensures Indexed(DeleteSession(db, session), s) {
      LastEndIsInLog(db.log, s);
      SparedEndKeepsIndexed(db, {}, {session}, s);
    }
  }

  lemma DropDevcontainerKeepsIndex(db: Db, d: Id)
    requires IndexesLog(db) && !HoldsForeignEnd(db, d)
    ensures IndexesLog(DeleteDevcontainer(db, d))
  {
    forall s | s in db.sessions && s !in SessionsOf(db, d) ensures Indexed(DeleteDevcontainer(db, d), s) {
      LastEndIsInLog(db.log, s);
      assert !ForeignEnd(db, d, s);
      SparedEndKeepsIndexed(db, {d}, SessionsOf(db, d), s);
    }
  }

  lemma DropDevcontainerBreaksIndex(db: Db, d: Id)
    requires IndexesLog(db) && EndsApart(db.log) && HoldsForeignEnd(db, d)
    ensures !IndexesLog(DeleteDevcontainer(db, d))
  {
    var s :| s in db.sessions && ForeignEnd(db, d, s);
    LastEndIsInLog(db.log, s);
    var end := LastEnd(db.log, s).value;
    forall e | e in db.log && e != end && EndsSession(e, s) ensures e.createdAt != end.createdAt {
      ApartInLog(db.log, e, end);
    }
    LostEndBreaksIndexed(db, {d}, SessionsOf(db, d), s);
    assert s in DeleteDevcontainer(db, d).sessions;
  }

  // ---------------------------------------------------------------- intake and every other step

  lemma FinalUpdate(e: RuntimeEvent)
    requires Reduce(e).Success?
    ensures Reduce(e).value.finalStatus == FinalStatus(e.eventType)
    ensures Reduce(e).value.finalStatus.Some? ==> Reduce(e).value.summaryText == FinalText(e)
  {
  }

  lemma IntakeKeepsIndexed(db: Db, e: RuntimeEvent, s: Stamps, session: Id)
    requires Persist(db, e, s).Success? && Indexed(db, session)
    ensures Indexed(AfterIntake(db, e, s), session)
  {
    var r := Recorded(e, s);
    IntakeLogs(db, e, s);
    FinalUpdate(r);
    var db' := AfterIntake(db, e, s);
    assert db'.log[..|db.log|] == db.log;
  }

  lemma IntakeLogs(db: Db, e: RuntimeEvent, s: Stamps)
    requires Persist(db, e, s).Success?
    ensures Reduce(Recorded(e, s)).Success?
    ensures
      var r, db' := Recorded(e, s), AfterIntake(db, e, s);
      db'.log == db.log + [r] && db'.summaries == SummariesAfter(db.(log := db.log + [r]), r, Reduce(r).value, s)
  {
  }

  lemma HarmlessKeepsIndex(db: Db, db': Db)
    requires ForeignKeys(db) && IndexesLog(db) && Harmless(db, db')
    ensures IndexesLog(db')
  {
    forall s | s in db'.sessions && s !in db.sessions ensures Indexed(db', s) {
      LastEndIsInLog(db.log, s);
      assert forall e | e in db.log :: EventKeys(db, e);
    }
    assert forall s | s in db.sessions :: Indexed(db, s);
  }

  /** Any step but the delete of a devcontainer that holds a foreign end keeps the index, however
      events are addressed. */
  lemma StepKeepsIndex(db: Db, a: Action)
    requires ForeignKeys(db) && IndexesLog(db) && Enabled(db, a)
    requires a.DropDevcontainer? ==> !HoldsForeignEnd(db, a.devcontainer)
    ensures IndexesLog(Step(db, a))
  {
    match a
    case Receive(e, stamps) =>
      if Persist(db, e, stamps).Success? {
        assert Step(db, a).sessions.Keys == db.sessions.Keys;
        forall s | s in db.sessions ensures Indexed(Step(db, a), s) {
          IntakeKeepsIndexed(db, e, stamps, s);
        }
      }
    case Drop(_, s) => DropSessionKeepsIndex(db, s);
    case DropDevcontainer(d) => DropDevcontainerKeepsIndex(db, d);
    case _ =>
      OtherStepsAreHarmless(db, a);
      HarmlessKeepsIndex(db, Step(db, a));
  }

  /** And that delete breaks it. */
  lemma StepKeepsIndexExactly(db: Db, a: Action)
    requires ForeignKeys(db) && IndexesLog(db) && EndsApart(db.log) && Enabled(db, a)
    ensures IndexesLog(Step(db, a)) <==> !(a.DropDevcontainer? && HoldsForeignEnd(db, a.devcontainer))
  {
    if a.DropDevcontainer? && HoldsForeignEnd(db, a.devcontainer) {
      var s :| s in db.sessions && ForeignEnd(db, a.devcontainer, s);
      LastEndIsInLog(db.log, s);
      assert EventKeys(db, LastEnd(db.log, s).value);
      DropDevcontainerBreaksIndex(db, a.devcontainer);
    } else {
      StepKeepsIndex(db, a);
    }
  }

  // ---------------------------------------------------------------- runs

  /** No devcontainer is deleted while it holds a foreign end. */
  ghost predicate SparesForeignEnds(run: seq<Action>) {
    run != [] ==>
      var db, a := Execute(EMPTY_DB, run[..|run| - 1]), run[|run| - 1];
      SparesForeignEnds(run[..|run| - 1]) && (a.DropDevcontainer? ==> !HoldsForeignEnd(db, a.devcontainer))
  }

  ghost predicate TimedRun(run: seq<Action>) {
    run != [] ==>
      TimedRun(run[..|run| - 1]) && TicksApart(Execute(EMPTY_DB, run[..|run| - 1]), run[|run| - 1])
  }

  ghost predicate IndexedThroughout(run: seq<Action>) {
    IndexesLog(Execute(EMPTY_DB, run)) && (run != [] ==> IndexedThroughout(run[..|run| - 1]))
  }

  lemma {:induction false} ReachableStaysApart(run: seq<Action>)
    requires TimedRun(run)
    ensures EndsApart(Execute(EMPTY_DB, run).log)
  {
    if run != [] {
      ReachableStaysApart(run[..|run| - 1]);
      StepStaysApart(Execute(EMPTY_DB, run[..|run| - 1]), run[|run| - 1]);
    }
  }

  /** Over every run: the summary table is an index of the log at every moment exactly if no
      devcontainer is deleted while another's session was last ended by an event that names it. */
  lemma {:induction false} IndexedThroughoutExactly(run: seq<Action>)
    requires ValidRun(EMPTY_DB, run) && TimedRun(run)
    ensures IndexedThroughout(run) <==> SparesForeignEnds(run)
  {
    if run != [] {
      var before := run[..|run| - 1];
      IndexedThroughoutExactly(before);
      ReachableIsCoherent(before);
      ReachableStaysApart(before);
      if IndexedThroughout(before) {
        assert IndexesLog(Execute(EMPTY_DB, before));
        StepKeepsIndexExactly(Execute(EMPTY_DB, before), run[|run| - 1]);
      }
    }
  }

  /** Whatever the clock readings. */
  lemma {:induction false} SparedRunsIndexLog(run: seq<Action>)
    requires ValidRun(EMPTY_DB, run) && SparesForeignEnds(run)
    ensures IndexesLog(Execute(EMPTY_DB, run))
  {
    if run != [] {
      var before := run[..|run| - 1];
      SparedRunsIndexLog(before);
      ReachableIsCoherent(before);
      StepKeepsIndex(Execute(EMPTY_DB, before), run[|run| - 1]);
    }
  }

  // ---------------------------------------------------------------- well-addressed runs

  /** An event naming a session carries that session's devcontainer or none. */
  predicate WellAddressed(db: Db, e: RuntimeEvent) {
    e.agentSessionId.Some? && e.agentSessionId.value in db.sessions && e.devcontainerId.Some? ==>
      e.devcontainerId.value == db.sessions[e.agentSessionId.value].devcontainerId
  }

  ghost predicate LogWellAddressed(db: Db) {
    forall e | e in db.log :: WellAddressed(db, e)
  }

  predicate ReceivesWellAddressed(db: Db, a: Action) {
    a.Receive? ==> WellAddressed(db, a.event)
  }

  ghost predicate WellAddressedRun(db: Db, run: seq<Action>) {
    run != [] ==>
      WellAddressedRun(db, run[..|run| - 1])
      && ReceivesWellAddressed(Execute(db, run[..|run| - 1]), run[|run| - 1])
  }

  /** The sessions left keep their devcontainers. */
  ghost predicate SameHomes(db: Db, db': Db) {
    forall s | s in db'.sessions && s in db.sessions ::
      db'.sessions[s].devcontainerId == db.sessions[s].devcontainerId
  }

  lemma StepKeepsHomes(db: Db, a: Action)
    requires ForeignKeys(db) && Enabled(db, a)
    ensures SameHomes(db, Step(db, a))
    ensures forall e | e in Step(db, a).log :: e in db.log || (a.Receive? && e == Recorded(a.event, a.stamps))
    ensures a.Receive? ==> Step(db, a).sessions.Keys == db.sessions.Keys
  {
    if !a.Receive? && !a.Drop? && !a.DropDevcontainer? {
      OtherStepsAreHarmless(db, a);
    }
  }

  lemma StepKeepsAddresses(db: Db, a: Action)
    requires ForeignKeys(db) && LogWellAddressed(db) && Enabled(db, a) && ReceivesWellAddressed(db, a)
    ensures LogWellAddressed(Step(db, a))
  {
    StepKeepsHomes(db, a);
    forall e | e in Step(db, a).log ensures WellAddressed(Step(db, a), e) {
      if e in db.log {
        assert WellAddressed(db, e) && EventKeys(db, e);
      } else {
        assert WellAddressed(db, a.event);
      }
    }
  }

  lemma NoForeignEnds(db: Db, d: Id)
    requires LogWellAddressed(db)
    ensures !HoldsForeignEnd(db, d)
  {
    forall s | s in db.sessions ensures !ForeignEnd(db, d, s) {
      LastEndIsInLog(db.log, s);
      assert LastEnd(db.log, s).Some? ==> WellAddressed(db, LastEnd(db.log, s).value);
    }
  }

  lemma {:induction false} WellAddressedRunsSpare(run: seq<Action>)
    requires ValidRun(EMPTY_DB, run) && WellAddressedRun(EMPTY_DB, run)
    ensures SparesForeignEnds(run) && LogWellAddressed(Execute(EMPTY_DB, run))
  {
    if run != [] {
      var before, a := run[..|run| - 1], run[|run| - 1];
      WellAddressedRunsSpare(before);
      ReachableIsCoherent(before);
      StepKeepsAddresses(Execute(EMPTY_DB, before), a);
      if a.DropDevcontainer? {
        NoForeignEnds(Execute(EMPTY_DB, before), a.devcontainer);
      }
    }
  }

  /** Over well-addressed runs a session has a summary exactly when the surviving log ends it, and
      the summary tells of the last such event. */
  lemma ReachableIndexesLog(run: seq<Action>)
    requires ValidRun(EMPTY_DB, run) && WellAddressedRun(EMPTY_DB, run)
    ensures IndexesLog(Execute(EMPTY_DB, run)) && LogWellAddressed(Execute(EMPTY_DB, run))
  {
    WellAddressedRunsSpare(run);
    SparedRunsIndexLog(run);
  }

  /** A session's first terminal event that carries another devcontainer's id is such a foreign end:
      from any indexing database it leaves a summary that the log no longer accounts for once that
      devcontainer is deleted. */
  lemma MisaddressedEndBreaksIndex(db: Db, e: RuntimeEvent, s: Stamps, session: Id, other: Id)
    requires ForeignKeys(db) && IndexesLog(db) && session in db.sessions && LastEnd(db.log, session).None?
    requires EndsSession(e, session) && e.devcontainerId == Some(other)
    requires other in db.devcontainers && db.sessions[session].devcontainerId != other
    ensures
      var db' := AfterIntake(db, e, s);
      HoldsForeignEnd(db', other)
      && RemoveDevcontainer(db', other).Success? && !IndexesLog(RemoveDevcontainer(db', other).value.db)
  {
    IntakeSucceedsExactly(db, e, s);
    IntakeKeepsIndexed(db, e, s, session);
    FirstEndIsLast(db, e, s, session);
    LastEndIsInLog(db.log, session);
    var db' := AfterIntake(db, e, s);
    assert ForeignEnd(db', other, session);
    LostEndBreaksIndexed(db', {other}, SessionsOf(db', other), session);
    assert session in DeleteDevcontainer(db', other).sessions;
  }

  lemma FirstEndIsLast(db: Db, e: RuntimeEvent, s: Stamps, session: Id)
    requires Persist(db, e, s).Success? && EndsSession(e, session) && session in db.sessions
    ensures
      var db' := AfterIntake(db, e, s);
      && db'.log == db.log + [Recorded(e, s)] && LastEnd(db'.log, session) == Some(Recorded(e, s))
      && db'.devcontainers.Keys == db.devcontainers.Keys
      && session in db'.sessions && db'.sessions[session].devcontainerId == db.sessions[session].devcontainerId
  {
  }

  // ---------------------------------------------------------------- one summary per session

  /** A summary that stays keeps its id and creation time, however often it is rewritten; a new one
      comes with an intake and has that intake's. */
  lemma StepKeepsSummaryIdentity(db: Db, a: Action, session: Id)
    requires session in Step(db, a).summaries
    ensures session in db.summaries ==>
              Step(db, a).summaries[session].id == db.summaries[session].id
              && Step(db, a).summaries[session].createdAt == db.summaries[session].createdAt
    ensures session !in db.summaries ==>
              a.Receive? && Step(db, a).summaries[session].id == a.stamps.summaryId
              && Step(db, a).summaries[session].createdAt == a.stamps.summaryAt
  {
  }

  /** The stamps of the intake that brought the summary a session has after the run. */
  function BroughtBy(run: seq<Action>, session: Id): Option<Stamps> {
    if run == [] || session !in Execute(EMPTY_DB, run).summaries then None
    else
      var front, last := run[..|run| - 1], run[|run| - 1];
      if session in Execute(EMPTY_DB, front).summaries then BroughtBy(front, session)
      else if last.Receive? then Some(last.stamps) else None
  }

  /** Over every run: a summary has the id and creation time of the intake that brought it. */
  lemma {:induction false} SummariesKeepTheirIdentity(run: seq<Action>, session: Id)
    requires session in Execute(EMPTY_DB, run).summaries
    ensures BroughtBy(run, session).Some?
    ensures Execute(EMPTY_DB, run).summaries[session].id == BroughtBy(run, session).value.summaryId
    ensures Execute(EMPTY_DB, run).summaries[session].createdAt == BroughtBy(run, session).value.summaryAt
  {
    var front := run[..|run| - 1];
    StepKeepsSummaryIdentity(Execute(EMPTY_DB, front), run[|run| - 1], session);
    if session in Execute(EMPTY_DB, front).summaries {
      SummariesKeepTheirIdentity(front, session);
    }
  }

  // ---------------------------------------------------------------- resting sessions

  ghost predicate RestAgrees(db: Db) {
    forall s | s in db.sessions && Resting(db.sessions[s].status) ::
      s in db.summaries && db.summaries[s].finalStatus == db.sessions[s].status
  }

  lemma StepKeepsRest(db: Db, a: Action)
    requires RestAgrees(db)
    ensures RestAgrees(Step(db, a))
  {
    if a.Receive? && Persist(db, a.event, a.stamps).Success? {
      UpdateShape(Recorded(a.event, a.stamps));
    }
  }

  /** Over every run, well-addressed or not: a resting session has a summary with its status. */
  lemma {:induction false} ReachableRestAgrees(run: seq<Action>)
    requires ValidRun(EMPTY_DB, run)
    ensures RestAgrees(Execute(EMPTY_DB, run))
  {
    if run != [] {
      ReachableRestAgrees(run[..|run| - 1]);
      StepKeepsRest(Execute(EMPTY_DB, run[..|run| - 1]), run[|run| - 1]);
    }
  }
}
