/** At most one active session per devcontainer: when an intake breaks it, and the runs over which
    it holds. */
module ActiveSession {
  import opened Vocabulary
  import opened Tables
  import opened Reducer
  import opened Intake
  import opened Routes
  import opened Coherence
  import A = AgentHandler

  ghost predicate AtMostOneActive(sessions: map<Id, AgentSession>) {
    forall a, b | a in sessions && b in sessions ::
      && sessions[a].devcontainerId == sessions[b].devcontainerId
      && Active(sessions[a].status) && Active(sessions[b].status)
      ==> a == b
  }

  /** The status an accepted event gives the session it names. */
  function NewStatus(e: RuntimeEvent): Option<SessionStatus> {
    var r := Reduce(e);
    if r.Success? then r.value.sessionStatus else None
  }

  /** An activating event for a session that is at rest. */
  predicate WakesResting(db: Db, e: RuntimeEvent) {
    && e.agentSessionId.Some? && e.agentSessionId.value in db.sessions
    && Resting(db.sessions[e.agentSessionId.value].status)
    && NewStatus(e).Some? && Active(NewStatus(e).value)
  }

  /** All an intake does to the sessions table. */
  lemma IntakeSessions(db: Db, e: RuntimeEvent, s: Stamps)
    ensures AfterIntake(db, e, s).sessions
            == if Persist(db, e, s).Success? && NewStatus(e).Some? && e.agentSessionId.Some?
               then SetStatus(db.sessions, e.agentSessionId.value, NewStatus(e).value, s.sessionAt)
               else db.sessions
  {
    assert NewStatus(Recorded(e, s)) == NewStatus(e);
  }

  /** An accepted intake breaks the rule exactly when it wakes a resting session while another
      session of the same devcontainer is active. */
  lemma IntakeBreaksRuleExactly(db: Db, e: RuntimeEvent, s: Stamps)
    requires AtMostOneActive(db.sessions) && Persist(db, e, s).Success?
    ensures AtMostOneActive(AfterIntake(db, e, s).sessions)
            <==> !(WakesResting(db, e) && HasActive(db, db.sessions[e.agentSessionId.value].devcontainerId))
  {
    IntakeSessions(db, e, s);
    var after := AfterIntake(db, e, s).sessions;
    if WakesResting(db, e) && HasActive(db, db.sessions[e.agentSessionId.value].devcontainerId) {
      var woken := e.agentSessionId.value;
      var other :| other in db.sessions && db.sessions[other].devcontainerId == db.sessions[woken].devcontainerId
                   && Active(db.sessions[other].status);
      assert other != woken && after[other] == db.sessions[other] && Active(after[woken].status);
    }
  }

  lemma StepKeepsRule(db: Db, a: Action)
    requires AtMostOneActive(db.sessions) && (a.Start? ==> a.id !in db.sessions)
    requires a.Receive? ==> !WakesResting(db, a.event)
    ensures AtMostOneActive(Step(db, a).sessions)
  {
    match a
    case Receive(e, stamps) =>
      if Persist(db, e, stamps).Success? {
        IntakeBreaksRuleExactly(db, e, stamps);
      }
    case Start(d, connected, id, prompt, at) => StartKeepsRule(db, d, connected, id, prompt, at);
    case Resume(d, session, connected, prompt, at) => ResumeKeepsRule(db, d, session, connected, prompt, at);
    case _ =>
      assert forall s | s in Step(db, a).sessions :: s in db.sessions && Step(db, a).sessions[s] == db.sessions[s];
  }

  lemma StartKeepsRule(db: Db, d: Id, connected: bool, id: Id, prompt: string, at: Timestamp)
    requires AtMostOneActive(db.sessions) && id !in db.sessions
    ensures AtMostOneActive(Committed(db, StartSession(db, d, connected, id, prompt, at)).sessions)
  {
  }

  lemma ResumeKeepsRule(db: Db, d: Id, session: Id, connected: bool, prompt: string, at: Timestamp)
    requires AtMostOneActive(db.sessions)
    ensures AtMostOneActive(Committed(db, ResumeSession(db, d, session, connected, prompt, at)).sessions)
  {
  }

  /** No activating event arrives for a resting session. */
  ghost predicate NeverWakes(db: Db, run: seq<Action>) {
    run != [] ==>
      && NeverWakes(db, run[..|run| - 1])
      && (run[|run| - 1].Receive? ==> !WakesResting(Execute(db, run[..|run| - 1]), run[|run| - 1].event))
  }

  /** Resumes and approval events allowed: the rule holds over every run that wakes no resting session. */
  lemma {:induction false} OneActiveIfNeverWoken(run: seq<Action>)
    requires ValidRun(EMPTY_DB, run) && NeverWakes(EMPTY_DB, run)
    ensures AtMostOneActive(Execute(EMPTY_DB, run).sessions)
  {
    if run != [] {
      OneActiveIfNeverWoken(run[..|run| - 1]);
      StepKeepsRule(Execute(EMPTY_DB, run[..|run| - 1]), run[|run| - 1]);
    }
  }

  /** An acceptable event that wakes a resting session beside an active one. */
  predicate BreaksRule(db: Db, a: Action) {
    && a.Receive? && Acceptable(db, a.event) && WakesResting(db, a.event)
    && HasActive(db, db.sessions[a.event.agentSessionId.value].devcontainerId)
  }

  lemma StepBreaksRuleExactly(db: Db, a: Action)
    requires ForeignKeys(db) && AtMostOneActive(db.sessions) && (a.Start? ==> a.id !in db.sessions)
    ensures AtMostOneActive(Step(db, a).sessions) <==> !BreaksRule(db, a)
  {
    if a.Receive? {
      IntakeSucceedsExactly(db, a.event, a.stamps);
      if Persist(db, a.event, a.stamps).Success? {
        IntakeBreaksRuleExactly(db, a.event, a.stamps);
      }
    } else {
      StepKeepsRule(db, a);
    }
  }

  ghost predicate OneActiveThroughout(run: seq<Action>) {
    AtMostOneActive(Execute(EMPTY_DB, run).sessions) && (run != [] ==> OneActiveThroughout(run[..|run| - 1]))
  }

  ghost predicate NeverBreaksRule(run: seq<Action>) {
    run != [] ==>
      NeverBreaksRule(run[..|run| - 1]) && !BreaksRule(Execute(EMPTY_DB, run[..|run| - 1]), run[|run| - 1])
  }

  /** Over every run, resumes included: at every moment at most one active session per devcontainer,
      exactly if no event wakes a resting session beside an active one. */
  lemma {:induction false} OneActiveThroughoutExactly(run: seq<Action>)
    requires ValidRun(EMPTY_DB, run)
    ensures OneActiveThroughout(run) <==> NeverBreaksRule(run)
  {
    if run != [] {
      var before := run[..|run| - 1];
      OneActiveThroughoutExactly(before);
      ReachableIsCoherent(before);
      if OneActiveThroughout(before) {
        assert AtMostOneActive(Execute(EMPTY_DB, before).sessions);
        StepBreaksRuleExactly(Execute(EMPTY_DB, before), run[|run| - 1]);
      }
    }
  }

  // ---------------------------------------------------------------- a run that breaks the rule

  const PROMPT := "continue"

  function AgentReport(d: Id, session: Id, kind: EventType): RuntimeEvent {
    A.AgentEvent(kind, Some(d), Some(session), None)
  }

  /** A stop crosses the run's own end; the session is resumed before the stop is answered; the
      answer puts it to rest, a second session starts, and then the resumed run reports in. */
  function LateStopRun(d: Id, first: Id, second: Id, stamps: seq<Stamps>, at: Timestamp): seq<Action>
    requires |stamps| == 3
  {
    [Receive(AgentReport(d, first, SessionCompleted), stamps[0]),
     Resume(d, first, true, PROMPT, at),
     Receive(AgentReport(d, first, SessionStopped), stamps[1]),
     Start(d, true, second, PROMPT, at),
     Receive(AgentReport(d, first, AgentSessionStarted), stamps[2])]
  }

  /** Stamps of different intakes share no generated id. */
  predicate Distinct(s: Stamps, t: Stamps) {
    s.eventId != t.eventId && s.inboxId != t.inboxId && s.approvalId != t.approvalId
  }

  ghost predicate DistinctStamps(db: Db, stamps: seq<Stamps>) {
    && |stamps| == 3
    && (forall i | 0 <= i < 3 :: FreshStamps(db, stamps[i]))
    && Distinct(stamps[0], stamps[1]) && Distinct(stamps[0], stamps[2]) && Distinct(stamps[1], stamps[2])
  }

  /** A running devcontainer whose only possibly active session is `first`. */
  ghost predicate OnlyFirst(db: Db, d: Id, first: Id, status: SessionStatus) {
    && d in db.devcontainers && db.devcontainers[d].status.Running?
    && Routes.Owns(db, d, first) && db.sessions[first].status == status
    && (forall s | s in db.sessions && s != first && db.sessions[s].devcontainerId == d ::
          !Active(db.sessions[s].status))
  }

  lemma ReportLands(db: Db, d: Id, first: Id, kind: EventType, s: Stamps, status: SessionStatus)
    requires OnlyFirst(db, d, first, status)
    requires kind.SessionCompleted? || kind.SessionStopped? || kind.AgentSessionStarted?
    ensures
      var e, db' := AgentReport(d, first, kind), AfterIntake(db, AgentReport(d, first, kind), s);
      && NewStatus(e).Some? && OnlyFirst(db', d, first, NewStatus(e).value)
      && db'.sessions.Keys == db.sessions.Keys
      && (forall x | x in db.sessions && x != first :: db'.sessions[x] == db.sessions[x])
      && (forall t: Stamps | FreshStamps(db, t) && Distinct(s, t) :: FreshStamps(db', t))
  {
    var e := AgentReport(d, first, kind);
    IntakeSessions(db, e, s);
    var r := Recorded(e, s);
    assert Persist(db, e, s).Success?;
    var db' := AfterIntake(db, e, s);
    assert db'.log == db.log + [r] && db'.approvals == db.approvals && db'.devcontainers == db.devcontainers;
    assert db'.inbox.Keys <= db.inbox.Keys + {s.inboxId};
  }

  ghost predicate Reaches(db: Db, run: seq<Action>, n: nat, db': Db)
    requires n <= |run|
  {
    Execute(db, run[..n]) == db' && ValidRun(db, run[..n])
  }

  ghost predicate Leads(db: Db, a: Action, db': Db) {
    Enabled(db, a) && db' == Step(db, a)
  }

  lemma ReachesNext(db: Db, run: seq<Action>, n: nat, before: Db, after: Db)
    requires n < |run| && Reaches(db, run, n, before) && Leads(before, run[n], after)
    ensures Reaches(db, run, n + 1, after)
  {
    assert run[..n + 1][..n] == run[..n];
  }

  lemma FiveSteps(run: seq<Action>, db: Db, db1: Db, db2: Db, db3: Db, db4: Db, db5: Db)
    requires |run| == 5 && Leads(db, run[0], db1) && Leads(db1, run[1], db2) && Leads(db2, run[2], db3)
    requires Leads(db3, run[3], db4) && Leads(db4, run[4], db5)
    ensures ValidRun(db, run) && Execute(db, run) == db5
  {
    assert Reaches(db, run, 0, db);
    ReachesNext(db, run, 0, db, db1);
    ReachesNext(db, run, 1, db1, db2);
    ReachesNext(db, run, 2, db2, db3);
    ReachesNext(db, run, 3, db3, db4);
    ReachesNext(db, run, 4, db4, db5);
    assert run[..5] == run;
  }

  lemma ResumeLands(db: Db, d: Id, first: Id, status: SessionStatus, at: Timestamp)
    requires OnlyFirst(db, d, first, status) && Resting(status)
    ensures
      var db' := Step(db, Resume(d, first, true, PROMPT, at));
      && db' == db.(sessions := SetStatus(db.sessions, first, SessionStatus.Starting, at))
      && OnlyFirst(db', d, first, SessionStatus.Starting)
  {
    assert !HasActive(db, d);
  }

  lemma StartLands(db: Db, d: Id, first: Id, status: SessionStatus, second: Id, at: Timestamp)
    requires OnlyFirst(db, d, first, status) && Resting(status) && second !in db.sessions
    ensures Step(db, Start(d, true, second, PROMPT, at))
            == db.(sessions := db.sessions[second := NewSession(d, Some(PROMPT), at)])
  {
    assert !HasActive(db, d);
  }

  lemma StartedLands(db: Db, d: Id, first: Id, second: Id, s: Stamps)
    requires d in db.devcontainers && Routes.Owns(db, d, first) && Routes.Owns(db, d, second) && first != second
    requires Active(db.sessions[second].status)
    ensures
      var db' := Step(db, Receive(AgentReport(d, first, AgentSessionStarted), s));
      && first in db'.sessions && Active(db'.sessions[first].status)
      && second in db'.sessions && Active(db'.sessions[second].status)
      && !AtMostOneActive(db'.sessions)
  {
    var e := AgentReport(d, first, AgentSessionStarted);
    IntakeSessions(db, e, s);
    assert Persist(db, e, s).Success?;
    var db' := AfterIntake(db, e, s);
    assert db'.sessions[first].devcontainerId == db'.sessions[second].devcontainerId;
  }

  lemma FirstTwo(db: Db, d: Id, first: Id, status: SessionStatus, s0: Stamps, s1: Stamps, s2: Stamps, at: Timestamp)
    requires OnlyFirst(db, d, first, status)
    requires FreshStamps(db, s1) && FreshStamps(db, s2) && Distinct(s0, s1) && Distinct(s0, s2)
    ensures
      var db1 := AfterIntake(db, AgentReport(d, first, SessionCompleted), s0);
      var db2 := Step(db1, Resume(d, first, true, PROMPT, at));
      && OnlyFirst(db2, d, first, SessionStatus.Starting)
      && FreshStamps(db2, s1) && FreshStamps(db2, s2)
      && db2.sessions.Keys == db.sessions.Keys
  {
    ReportLands(db, d, first, SessionCompleted, s0, status);
    var db1 := AfterIntake(db, AgentReport(d, first, SessionCompleted), s0);
    assert NewStatus(AgentReport(d, first, SessionCompleted)).value == Completed;
    assert FreshStamps(db1, s1) && FreshStamps(db1, s2);
    ResumeLands(db1, d, first, Completed, at);
  }

  lemma FirstThree(db: Db, d: Id, first: Id, status: SessionStatus, s0: Stamps, s1: Stamps, s2: Stamps, at: Timestamp)
    requires OnlyFirst(db, d, first, status)
    requires FreshStamps(db, s1) && FreshStamps(db, s2) && Distinct(s0, s1) && Distinct(s0, s2) && Distinct(s1, s2)
    ensures
      var db2 := Step(AfterIntake(db, AgentReport(d, first, SessionCompleted), s0), Resume(d, first, true, PROMPT, at));
      var db3 := AfterIntake(db2, AgentReport(d, first, SessionStopped), s1);
      && FreshStamps(db2, s1)
      && OnlyFirst(db3, d, first, SessionStatus.Stopped) && FreshStamps(db3, s2)
      && db3.sessions.Keys == db.sessions.Keys
  {
    FirstTwo(db, d, first, status, s0, s1, s2, at);
    var db2 := Step(AfterIntake(db, AgentReport(d, first, SessionCompleted), s0), Resume(d, first, true, PROMPT, at));
    ReportLands(db2, d, first, SessionStopped, s1, SessionStatus.Starting);
  }

  lemma LastTwo(db: Db, d: Id, first: Id, second: Id, s: Stamps, at: Timestamp)
    requires OnlyFirst(db, d, first, SessionStatus.Stopped) && FreshStamps(db, s) && second !in db.sessions
    ensures
      var db4 := Step(db, Start(d, true, second, PROMPT, at));
      var db5 := Step(db4, Receive(AgentReport(d, first, AgentSessionStarted), s));
      && FreshStamps(db4, s)
      && first in db5.sessions && Active(db5.sessions[first].status)
      && second in db5.sessions && Active(db5.sessions[second].status)
      && !AtMostOneActive(db5.sessions)
  {
    StartLands(db, d, first, SessionStatus.Stopped, second, at);
    StartedLands(Step(db, Start(d, true, second, PROMPT, at)), d, first, second, s);
  }

  ghost predicate TwoActive(db: Db, first: Id, second: Id) {
    && first in db.sessions && Active(db.sessions[first].status)
    && second in db.sessions && Active(db.sessions[second].status)
    && !AtMostOneActive(db.sessions)
  }

  lemma AllFive(db: Db, d: Id, first: Id, second: Id, s0: Stamps, s1: Stamps, s2: Stamps, at: Timestamp)
    requires OnlyFirst(db, d, first, if first in db.sessions then db.sessions[first].status else Failed)
    requires second !in db.sessions && FreshStamps(db, s0) && FreshStamps(db, s1) && FreshStamps(db, s2)
    requires Distinct(s0, s1) && Distinct(s0, s2) && Distinct(s1, s2)
    ensures
      var db1 := Step(db, Receive(AgentReport(d, first, SessionCompleted), s0));
      var db2 := Step(db1, Resume(d, first, true, PROMPT, at));
      var db3 := Step(db2, Receive(AgentReport(d, first, SessionStopped), s1));
      var db4 := Step(db3, Start(d, true, second, PROMPT, at));
      && FreshStamps(db, s0) && FreshStamps(db2, s1) && second !in db3.sessions && FreshStamps(db4, s2)
      && TwoActive(Step(db4, Receive(AgentReport(d, first, AgentSessionStarted), s2)), first, second)
  {
    FirstThree(db, d, first, db.sessions[first].status, s0, s1, s2, at);
    var db2 := Step(AfterIntake(db, AgentReport(d, first, SessionCompleted), s0), Resume(d, first, true, PROMPT, at));
    LastTwo(AfterIntake(db2, AgentReport(d, first, SessionStopped), s1), d, first, second, s2, at);
  }

  /** From any database with one active session in a running devcontainer, that run is valid and
      ends with two active sessions: with resumes, the rule needs the hypothesis above. */
  lemma LateStopOfAResumedSession(db: Db, d: Id, first: Id, second: Id, stamps: seq<Stamps>, at: Timestamp)
    requires AtMostOneActive(db.sessions) && |stamps| == 3 && DistinctStamps(db, stamps)
    requires d in db.devcontainers && db.devcontainers[d].status.Running?
    requires Routes.Owns(db, d, first) && Active(db.sessions[first].status) && second !in db.sessions
    ensures ValidRun(db, LateStopRun(d, first, second, stamps, at))
    ensures TwoActive(Execute(db, LateStopRun(d, first, second, stamps, at)), first, second)
  {
    AllFive(db, d, first, second, stamps[0], stamps[1], stamps[2], at);
    var run := LateStopRun(d, first, second, stamps, at);
    var db1 := Step(db, run[0]);
    var db2 := Step(db1, run[1]);
    var db3 := Step(db2, run[2]);
    var db4 := Step(db3, run[3]);
    FiveSteps(run, db, db1, db2, db3, db4, Step(db4, run[4]));
  }
}
