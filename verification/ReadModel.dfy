/** Read-model state is a projection of the runtime-event log (ADR-0002): the status of every
    devcontainer, session and approval is what the surviving log last told of it. When that holds,
    and which direct writes break it. */
module ReadModel {
  import opened Vocabulary
  import opened Tables
  import opened Reducer
  import opened Intake
  import opened Routes
  import opened Coherence

  datatype Subject = OfDevcontainer(id: Id) | OfSession(id: Id) | OfApproval(id: Id)

  datatype Fact =
    | DevcontainerIs(devcontainer: DevcontainerStatus)
    | SessionIs(session: SessionStatus)
    | ApprovalIs(approval: ApprovalStatus)

  function Tells(e: RuntimeEvent, about: Subject): Option<Fact> {
    match about
    case OfDevcontainer(d) =>
      if e.devcontainerId == Some(d) && DevcontainerNews(e.eventType).Some?
      then Some(DevcontainerIs(DevcontainerNews(e.eventType).value)) else None
    case OfSession(s) =>
      if e.agentSessionId == Some(s) && SessionNews(e.eventType).Some?
      then Some(SessionIs(SessionNews(e.eventType).value)) else None
    case OfApproval(a) =>
      if ResolutionTarget(e) == Some(a) && ParseResolution(PayloadOf(e).resolution).Some?
      then Some(ApprovalIs(ParseResolution(PayloadOf(e).resolution).value)) else None
  }

  /** The last event in the log that tells about the subject. */
  function LastWord(log: seq<RuntimeEvent>, about: Subject): Option<RuntimeEvent> {
    if log == [] then None
    else if Tells(log[|log| - 1], about).Some? then Some(log[|log| - 1])
    else LastWord(log[..|log| - 1], about)
  }

  /** What a row is created as. */
  function Initially(about: Subject): Fact {
    match about
    case OfDevcontainer(_) => DevcontainerIs(Created)
    case OfSession(_) => SessionIs(SessionStatus.Starting)
    case OfApproval(_) => ApprovalIs(ApprovalStatus.Pending)
  }

  function FactOf(word: Option<RuntimeEvent>, about: Subject): Fact {
    if word.Some? && Tells(word.value, about).Some? then Tells(word.value, about).value else Initially(about)
  }

  function Told(log: seq<RuntimeEvent>, about: Subject): Fact {
    FactOf(LastWord(log, about), about)
  }

  /** What the read model says, if the row exists. */
  function Shown(db: Db, about: Subject): Option<Fact> {
    match about
    case OfDevcontainer(d) => if d in db.devcontainers then Some(DevcontainerIs(db.devcontainers[d].status)) else None
    case OfSession(s) => if s in db.sessions then Some(SessionIs(db.sessions[s].status)) else None
    case OfApproval(a) => if a in db.approvals then Some(ApprovalIs(db.approvals[a].status)) else None
  }

  predicate Agrees(db: Db, about: Subject) {
    Shown(db, about).Some? ==> Shown(db, about).value == Told(db.log, about)
  }

  ghost predicate ProjectsLog(db: Db) {
    forall about: Subject :: Agrees(db, about)
  }

  /** No event names an approval before its id is generated. */
  ghost predicate Unheard(log: seq<RuntimeEvent>, approval: Id) {
    forall e | e in log :: ResolutionTarget(e) != Some(approval)
  }

  ghost predicate NamesFresh(db: Db, a: Action) {
    a.Receive? ==>
      Unheard(db.log, a.stamps.approvalId) && ResolutionTarget(a.event) != Some(a.stamps.approvalId)
  }

  // ---------------------------------------------------------------- the log

  lemma ToldAfter(log: seq<RuntimeEvent>, e: RuntimeEvent, about: Subject)
    ensures Told(log + [e], about) == if Tells(e, about).Some? then Tells(e, about).value else Told(log, about)
  {
    assert (log + [e])[..|log|] == log;
  }

  lemma {:induction false} NeverTold(log: seq<RuntimeEvent>, about: Subject)
    requires forall e | e in log :: Tells(e, about).None?
    ensures Told(log, about) == Initially(about)
  {
    if log != [] {
      NeverTold(log[..|log| - 1], about);
    }
  }

  /** The last event about the subject that a delete leaves. */
  function LastWordLeft(log: seq<RuntimeEvent>, about: Subject, deadDevcontainers: set<Id>, deadSessions: set<Id>)
    : Option<RuntimeEvent>
  {
    if log == [] then None
    else
      var last := log[|log| - 1];
      if Tells(last, about).Some? && EventSurvives(last, deadDevcontainers, deadSessions) then Some(last)
      else LastWordLeft(log[..|log| - 1], about, deadDevcontainers, deadSessions)
  }

  lemma {:induction false} LeftIsLast(log: seq<RuntimeEvent>, about: Subject,
                                     deadDevcontainers: set<Id>, deadSessions: set<Id>)
    ensures LastWord(SurvivingLog(log, deadDevcontainers, deadSessions), about)
            == LastWordLeft(log, about, deadDevcontainers, deadSessions)
  {
    if log != [] {
      var front := log[..|log| - 1];
      LeftIsLast(front, about, deadDevcontainers, deadSessions);
      var kept := SurvivingLog(front, deadDevcontainers, deadSessions);
      assert (kept + [log[|log| - 1]])[..|kept|] == kept;
    }
  }

  /** A last word that survives stays the last; where there was none, none is left. */
  lemma {:induction false} LastWordSurvives(log: seq<RuntimeEvent>, about: Subject,
                                           deadDevcontainers: set<Id>, deadSessions: set<Id>)
    requires var word := LastWord(log, about);
             word.Some? ==> EventSurvives(word.value, deadDevcontainers, deadSessions)
    ensures LastWordLeft(log, about, deadDevcontainers, deadSessions) == LastWord(log, about)
  {
    if log != [] && Tells(log[|log| - 1], about).None? {
      LastWordSurvives(log[..|log| - 1], about, deadDevcontainers, deadSessions);
    }
  }

  // ---------------------------------------------------------------- intake

  lemma NewsIsTheUpdate(e: RuntimeEvent)
    requires Reduce(e).Success?
    ensures
      var u := Reduce(e).value;
      && u.devcontainerStatus == DevcontainerNews(e.eventType)
      && u.sessionStatus == SessionNews(e.eventType)
      && (ResolutionTarget(e).Some? ==>
            u.resolveApproval == ParseResolution(PayloadOf(e).resolution) && u.resolveApproval.Some?)
      && (u.resolveApproval.Some? ==> u.resolveApprovalId == ResolutionTarget(e))
  {
  }

  /** The projection shows exactly what the event tells. */
  lemma ProjectionShows(db: Db, e: RuntimeEvent, s: Stamps, about: Subject)
    requires Project(db, e, s).Success? && Shown(db, about).Some?
    requires s.approvalId !in db.approvals
    ensures Shown(Project(db, e, s).value, about)
            == if Tells(e, about).Some? then Tells(e, about) else Shown(db, about)
  {
    var u := Reduce(e).value;
    NewsIsTheUpdate(e);
    UpdateShape(e);
    match about
    case OfDevcontainer(_) =>
      assert Project(db, e, s).value.devcontainers == DevcontainersAfter(db.devcontainers, e, u, s);
    case OfSession(_) => assert Project(db, e, s).value.sessions == SessionsAfter(db.sessions, e, u, s);
    case OfApproval(_) => ApprovalsAfterShape(db, e, u, s);
  }

  lemma ProjectionAdds(db: Db, e: RuntimeEvent, s: Stamps, about: Subject)
    requires Project(db, e, s).Success? && s.approvalId !in db.approvals
    requires Shown(db, about).None? && Shown(Project(db, e, s).value, about).Some?
    ensures about == OfApproval(s.approvalId) && Shown(Project(db, e, s).value, about).value == Initially(about)
  {
    UpdateShape(e);
    ApprovalsAfterShape(db, e, Reduce(e).value, s);
  }

  lemma IntakeAgrees(db: Db, e: RuntimeEvent, s: Stamps, about: Subject)
    requires Agrees(db, about) && FreshStamps(db, s) && Persist(db, e, s).Success?
    requires Unheard(db.log, s.approvalId) && ResolutionTarget(e) != Some(s.approvalId)
    ensures Agrees(AfterIntake(db, e, s), about)
  {
    var r := Recorded(e, s);
    var logged := db.(log := db.log + [r]);
    var db' := AfterIntake(db, e, s);
    assert db' == Project(logged, r, s).value;
    ToldAfter(db.log, r, about);
    if Shown(db, about).Some? {
      ProjectionShows(logged, r, s, about);
    } else if Shown(db', about).Some? {
      ProjectionAdds(logged, r, s, about);
      NeverTold(db.log, about);
    }
  }

  // ---------------------------------------------------------------- deletes

  predicate Spared(db: Db, about: Subject, deadDevcontainers: set<Id>, deadSessions: set<Id>) {
    match about
    case OfDevcontainer(d) => d in db.devcontainers && d !in deadDevcontainers
    case OfSession(s) => s in db.sessions && s !in deadSessions
    case OfApproval(a) => a in db.approvals && ApprovalSurvives(db.approvals[a], deadDevcontainers, deadSessions)
  }

  /** A spared row's last word dies, and the words left do not end on the same status. */
  predicate Silences(db: Db, about: Subject, deadDevcontainers: set<Id>, deadSessions: set<Id>) {
    && Spared(db, about, deadDevcontainers, deadSessions)
    && LastWord(db.log, about).Some?
    && !EventSurvives(LastWord(db.log, about).value, deadDevcontainers, deadSessions)
    && FactOf(LastWordLeft(db.log, about, deadDevcontainers, deadSessions), about)
       != FactOf(LastWord(db.log, about), about)
  }

  lemma SparedIsShown(db: Db, about: Subject, deadDevcontainers: set<Id>, deadSessions: set<Id>)
    ensures
      var left := DeleteRows(db, deadDevcontainers, deadSessions);
      Shown(left, about) == if Spared(db, about, deadDevcontainers, deadSessions) then Shown(db, about) else None
  {
  }

  lemma DeleteAgreesExactly(db: Db, about: Subject, deadDevcontainers: set<Id>, deadSessions: set<Id>)
    requires Agrees(db, about)
    ensures Agrees(DeleteRows(db, deadDevcontainers, deadSessions), about)
            <==> !Silences(db, about, deadDevcontainers, deadSessions)
  {
    SparedIsShown(db, about, deadDevcontainers, deadSessions);
    LeftIsLast(db.log, about, deadDevcontainers, deadSessions);
    var word := LastWord(db.log, about);
    if word.Some? ==> EventSurvives(word.value, deadDevcontainers, deadSessions) {
      LastWordSurvives(db.log, about, deadDevcontainers, deadSessions);
    }
  }

  /** A delete keeps the rule exactly if it silences no spared row. */
  lemma DeleteProjectsLogExactly(db: Db, deadDevcontainers: set<Id>, deadSessions: set<Id>)
    requires ProjectsLog(db)
    ensures ProjectsLog(DeleteRows(db, deadDevcontainers, deadSessions))
            <==> forall about: Subject :: !Silences(db, about, deadDevcontainers, deadSessions)
  {
    forall about: Subject
      ensures Agrees(DeleteRows(db, deadDevcontainers, deadSessions), about)
              <==> !Silences(db, about, deadDevcontainers, deadSessions)
    {
      assert Agrees(db, about);
      DeleteAgreesExactly(db, about, deadDevcontainers, deadSessions);
    }
  }

  // ---------------------------------------------------------------- every step

  /** The two routes that write a status themselves: a resume of a resting session of a running,
      connected devcontainer without an active one, and a PATCH to another status. */
  predicate WritesDirectly(db: Db, a: Action) {
    match a
    case Resume(d, s, connected, _, _) =>
      && d in db.devcontainers && db.devcontainers[d].status.Running? && connected
      && Owns(db, d, s) && Resting(db.sessions[s].status) && !HasActive(db, d)
    case Patch(d, _, status, _) =>
      d in db.devcontainers && status.Some? && status.value != db.devcontainers[d].status
    case _ => false
  }

  /** The two deletes, where they take with them the last word on a row they spare. */
  ghost predicate Silencing(db: Db, a: Action) {
    match a
    case Drop(d, s) =>
      && d in db.devcontainers && Owns(db, d, s) && !Active(db.sessions[s].status)
      && exists about: Subject :: Silences(db, about, {}, {s})
    case DropDevcontainer(d) =>
      d in db.devcontainers && exists about: Subject :: Silences(db, about, {d}, SessionsOf(db, d))
    case _ => false
  }

  lemma HarmlessAgrees(db: Db, db': Db, about: Subject)
    requires ForeignKeys(db) && Harmless(db, db') && Agrees(db, about)
    requires Shown(db, about).Some? ==> Shown(db', about) == Shown(db, about)
    requires Shown(db, about).None? && Shown(db', about).Some? ==> Shown(db', about).value == Initially(about)
    ensures Agrees(db', about)
  {
    if Shown(db, about).None? && Shown(db', about).Some? {
      forall e | e in db.log ensures Tells(e, about).None? {
        assert EventKeys(db, e);
      }
      NeverTold(db.log, about);
    }
  }

  predicate IsLocal(a: Action) {
    !a.Receive? && !a.Drop? && !a.DropDevcontainer?
  }

  lemma LocalStepShows(db: Db, a: Action, about: Subject)
    requires Enabled(db, a) && IsLocal(a) && !WritesDirectly(db, a)
    ensures Shown(db, about).Some? ==> Shown(Step(db, a), about) == Shown(db, about)
    ensures Shown(db, about).None? && Shown(Step(db, a), about).Some? ==>
              Shown(Step(db, a), about).value == Initially(about)
  {
  }

  /** A direct write leaves its row saying what the log does not. */
  lemma DirectWriteDisagrees(db: Db, a: Action)
    requires ProjectsLog(db) && WritesDirectly(db, a)
    ensures !ProjectsLog(Step(db, a))
  {
    var about := if a.Resume? then OfSession(a.session) else OfDevcontainer(a.devcontainer);
    assert Agrees(db, about) && !Agrees(Step(db, a), about);
  }

  lemma LocalStepProjectsLogExactly(db: Db, a: Action)
    requires ForeignKeys(db) && ProjectsLog(db) && Enabled(db, a) && IsLocal(a)
    ensures ProjectsLog(Step(db, a)) <==> !WritesDirectly(db, a)
  {
    OtherStepsAreHarmless(db, a);
    if WritesDirectly(db, a) {
      DirectWriteDisagrees(db, a);
    } else {
      forall about: Subject ensures Agrees(Step(db, a), about) {
        assert Agrees(db, about);
        LocalStepShows(db, a, about);
        HarmlessAgrees(db, Step(db, a), about);
      }
    }
  }

  /** A step keeps the read model a projection of the log exactly if it neither writes a status
      directly nor deletes the last word on a row that stays. */
  lemma StepProjectsLogExactly(db: Db, a: Action)
    requires ForeignKeys(db) && ProjectsLog(db) && Enabled(db, a) && NamesFresh(db, a)
    ensures ProjectsLog(Step(db, a)) <==> !WritesDirectly(db, a) && !Silencing(db, a)
  {
    match a
    case Receive(e, stamps) =>
      if Persist(db, e, stamps).Success? {
        forall about: Subject ensures Agrees(Step(db, a), about) {
          assert Agrees(db, about);
          IntakeAgrees(db, e, stamps, about);
        }
      }
    case Drop(_, s) => DeleteProjectsLogExactly(db, {}, {s});
    case DropDevcontainer(d) => DeleteProjectsLogExactly(db, {d}, SessionsOf(db, d));
    case _ => LocalStepProjectsLogExactly(db, a);
  }

  // ---------------------------------------------------------------- runs

  ghost predicate FreshNames(run: seq<Action>) {
    run != [] ==>
      FreshNames(run[..|run| - 1]) && NamesFresh(Execute(EMPTY_DB, run[..|run| - 1]), run[|run| - 1])
  }

  /** No step of the run writes a status directly or deletes the last word on a row that stays. */
  ghost predicate HeedsLog(run: seq<Action>) {
    run != [] ==>
      var db, a := Execute(EMPTY_DB, run[..|run| - 1]), run[|run| - 1];
      HeedsLog(run[..|run| - 1]) && !WritesDirectly(db, a) && !Silencing(db, a)
  }

  ghost predicate ProjectsThroughout(run: seq<Action>) {
    ProjectsLog(Execute(EMPTY_DB, run)) && (run != [] ==> ProjectsThroughout(run[..|run| - 1]))
  }

  /** Over every run: each devcontainer, session and approval has at every moment the status the
      surviving log last told, exactly if the run takes none of those steps. */
  lemma {:induction false} ProjectsThroughoutExactly(run: seq<Action>)
    requires ValidRun(EMPTY_DB, run) && FreshNames(run)
    ensures ProjectsThroughout(run) <==> HeedsLog(run)
  {
    if run != [] {
      var before := run[..|run| - 1];
      ProjectsThroughoutExactly(before);
      ReachableIsCoherent(before);
      if ProjectsThroughout(before) {
        assert ProjectsLog(Execute(EMPTY_DB, before));
        StepProjectsLogExactly(Execute(EMPTY_DB, before), run[|run| - 1]);
      }
    }
  }

  // ---------------------------------------------------------------- addressing

  predicate SameOrNone(id: Option<Id>, expected: Id) {
    id.Some? ==> id.value == expected
  }

  /** An event goes out with the rows it tells about: a session event carries the session's
      devcontainer or none, a lifecycle event no session, a resolution the approval's own ids. */
  predicate Addressed(db: Db, e: RuntimeEvent) {
    && (e.agentSessionId.Some? && e.agentSessionId.value in db.sessions ==>
          SameOrNone(e.devcontainerId, db.sessions[e.agentSessionId.value].devcontainerId))
    && (DevcontainerNews(e.eventType).Some? ==> e.agentSessionId.None?)
    && (ResolutionTarget(e).Some? && ResolutionTarget(e).value in db.approvals ==>
          && SameOrNone(e.agentSessionId, db.approvals[ResolutionTarget(e).value].agentSessionId)
          && SameOrNone(e.devcontainerId, db.approvals[ResolutionTarget(e).value].devcontainerId))
  }

  ghost predicate LogAddressed(db: Db) {
    forall e | e in db.log :: Addressed(db, e)
  }

  ghost predicate ProperlyReceived(db: Db, a: Action) {
    NamesFresh(db, a) && (a.Receive? ==> Addressed(db, a.event))
  }

  lemma IntakeKeepsAddresses(db: Db, e: RuntimeEvent, s: Stamps)
    requires LogAddressed(db) && Addressed(db, e) && FreshStamps(db, s)
    requires Unheard(db.log, s.approvalId) && ResolutionTarget(e) != Some(s.approvalId)
    ensures LogAddressed(AfterIntake(db, e, s))
  {
    if Persist(db, e, s).Success? {
      var r := Recorded(e, s);
      var logged := db.(log := db.log + [r]);
      var u := Reduce(r).value;
      UpdateShape(r);
      ApprovalsAfterShape(logged, r, u, s);
      var db' := AfterIntake(db, e, s);
      forall x | x in db'.log ensures Addressed(db', x) {
        assert x in db.log || x == r;
        assert Addressed(db, x);
      }
    }
  }

  lemma HarmlessKeepsAddresses(db: Db, db': Db)
    requires ForeignKeys(db) && Harmless(db, db') && LogAddressed(db)
    ensures LogAddressed(db')
  {
    forall e | e in db'.log ensures Addressed(db', e) {
      assert Addressed(db, e) && EventKeys(db, e);
    }
  }

  lemma StepKeepsAddresses(db: Db, a: Action)
    requires ForeignKeys(db) && LogAddressed(db) && Enabled(db, a) && ProperlyReceived(db, a)
    ensures LogAddressed(Step(db, a))
  {
    if a.Receive? {
      IntakeKeepsAddresses(db, a.event, a.stamps);
    } else if IsLocal(a) {
      OtherStepsAreHarmless(db, a);
      HarmlessKeepsAddresses(db, Step(db, a));
    } else {
      forall e | e in Step(db, a).log ensures Addressed(Step(db, a), e) {
        assert Addressed(db, e);
      }
    }
  }

  /** A properly addressed log goes with its rows: no delete silences a row it spares. */
  lemma AddressedIsNotSilenced(db: Db, about: Subject, deadDevcontainers: set<Id>, deadSessions: set<Id>)
    requires Coherent(db) && LogAddressed(db) && Closed(db, deadDevcontainers, deadSessions)
    ensures !Silences(db, about, deadDevcontainers, deadSessions)
  {
    LastWordIsInLog(db.log, about);
    var word := LastWord(db.log, about);
    if word.Some? && Spared(db, about, deadDevcontainers, deadSessions) {
      assert Addressed(db, word.value) && EventKeys(db, word.value);
    }
  }

  lemma {:induction false} LastWordIsInLog(log: seq<RuntimeEvent>, about: Subject)
    ensures var word := LastWord(log, about); word.Some? ==> word.value in log && Tells(word.value, about).Some?
  {
    if log != [] {
      LastWordIsInLog(log[..|log| - 1], about);
    }
  }

  ghost predicate ProjectingRun(run: seq<Action>) {
    run != [] ==>
      var db := Execute(EMPTY_DB, run[..|run| - 1]);
      && ProjectingRun(run[..|run| - 1])
      && ProperlyReceived(db, run[|run| - 1]) && !WritesDirectly(db, run[|run| - 1])
  }

  lemma {:induction false} AddressedRunsHeedLog(run: seq<Action>)
    requires ValidRun(EMPTY_DB, run) && ProjectingRun(run)
    ensures HeedsLog(run) && FreshNames(run) && LogAddressed(Execute(EMPTY_DB, run))
  {
    if run != [] {
      var before, a := run[..|run| - 1], run[|run| - 1];
      var db := Execute(EMPTY_DB, before);
      AddressedRunsHeedLog(before);
      ReachableIsCoherent(before);
      StepKeepsAddresses(db, a);
      if a.Drop? || a.DropDevcontainer? {
        DeletesAreClosed(db, if a.Drop? then a.session else "", a.devcontainer);
        forall about: Subject, dead, sessions | Closed(db, dead, sessions)
          ensures !Silences(db, about, dead, sessions)
        {
          AddressedIsNotSilenced(db, about, dead, sessions);
        }
      }
    }
  }

  /** Over every run of properly addressed events and any creates, starts, deletes and inbox calls,
      each devcontainer, session and approval has the status the surviving log last told. */
  lemma ReadModelIsAProjection(run: seq<Action>)
    requires ValidRun(EMPTY_DB, run) && ProjectingRun(run)
    ensures ProjectsThroughout(run) && LogAddressed(Execute(EMPTY_DB, run))
  {
    AddressedRunsHeedLog(run);
    ProjectsThroughoutExactly(run);
  }

  /** Addressing matters: the first word on a session, if it carries another devcontainer's id, is
      taken in, and lost with that devcontainer while the session keeps the status it gave. */
  lemma MisaddressedWordIsLost(db: Db, e: RuntimeEvent, s: Stamps, session: Id, other: Id)
    requires ForeignKeys(db) && ProjectsLog(db) && FreshStamps(db, s) && NamesFresh(db, Receive(e, s))
    requires session in db.sessions && LastWord(db.log, OfSession(session)).None?
    requires e.agentSessionId == Some(session) && SessionNews(e.eventType).Some? && !HasBadResolution(e)
    requires other in db.devcontainers && e.devcontainerId == Some(other)
    requires db.sessions[session].devcontainerId != other
    ensures
      var db' := AfterIntake(db, e, s);
      ProjectsLog(db') && !ProjectsLog(Step(db', DropDevcontainer(other)))
  {
    var db' := AfterIntake(db, e, s);
    IntakeSucceedsExactly(db, e, s);
    forall about: Subject ensures Agrees(db', about) {
      assert Agrees(db, about);
      IntakeAgrees(db, e, s, about);
    }
    MisaddressedWordIsSilenced(db, e, s, session, other);
    DeleteProjectsLogExactly(db', {other}, SessionsOf(db', other));
  }

  lemma FirstWordDies(log: seq<RuntimeEvent>, e: RuntimeEvent, about: Subject,
                      deadDevcontainers: set<Id>, deadSessions: set<Id>)
    requires LastWord(log, about).None? && Tells(e, about).Some?
    requires !EventSurvives(e, deadDevcontainers, deadSessions)
    ensures LastWord(log + [e], about) == Some(e)
    ensures LastWordLeft(log + [e], about, deadDevcontainers, deadSessions) == None
  {
    assert (log + [e])[..|log|] == log;
    LastWordSurvives(log, about, deadDevcontainers, deadSessions);
  }

  lemma IntakeLogs(db: Db, e: RuntimeEvent, s: Stamps, session: Id)
    requires Persist(db, e, s).Success? && session in db.sessions
    ensures
      var db' := AfterIntake(db, e, s);
      && db'.log == db.log + [Recorded(e, s)] && db'.devcontainers.Keys == db.devcontainers.Keys
      && session in db'.sessions && db'.sessions[session].devcontainerId == db.sessions[session].devcontainerId
  {
  }

  lemma MisaddressedWordIsSilenced(db: Db, e: RuntimeEvent, s: Stamps, session: Id, other: Id)
    requires Persist(db, e, s).Success?
    requires session in db.sessions && LastWord(db.log, OfSession(session)).None?
    requires e.agentSessionId == Some(session) && SessionNews(e.eventType).Some?
    requires e.devcontainerId == Some(other) && db.sessions[session].devcontainerId != other
    ensures var db' := AfterIntake(db, e, s);
            && Silences(db', OfSession(session), {other}, SessionsOf(db', other))
            && db'.devcontainers.Keys == db.devcontainers.Keys
  {
    IntakeLogs(db, e, s, session);
    FirstWordDies(db.log, Recorded(e, s), OfSession(session), {other}, SessionsOf(AfterIntake(db, e, s), other));
  }
}
