/** Independent events commute: projecting two events with disjoint footprints gives the same
    tables in either order. */
module Commute {
  import opened Vocabulary
  import opened Tables
  import opened Reducer

  function Only(condition: bool, id: Option<Id>): set<Id> {
    if condition && id.Some? then {id.value} else {}
  }

  /** The rows an update may write, table by table. A summary is written under its session. */
  datatype Footprint = Footprint(devcontainers: set<Id>, sessions: set<Id>, approvals: set<Id>, inbox: set<Id>)

  function FootprintOf(e: RuntimeEvent, u: ProjectionUpdates, s: Stamps): Footprint {
    Footprint(
      Only(u.devcontainerStatus.Some?, e.devcontainerId),
      Only(u.sessionStatus.Some?, e.agentSessionId),
      Only(u.createApproval, Some(s.approvalId)) + Only(u.resolveApproval.Some?, u.resolveApprovalId),
      Only(u.inboxEventType.Some?, Some(s.inboxId)) + Only(u.resolveApproval.Some? && u.resolveLinkedInbox, s.linked)
      + Only(true, u.resolveInboxEventId))
  }

  predicate Disjoint(a: Footprint, b: Footprint) {
    a.devcontainers !! b.devcontainers && a.sessions !! b.sessions && a.approvals !! b.approvals && a.inbox !! b.inbox
  }

  /** What the other event cannot change about the tables an update reads. */
  ghost predicate SameReads(db: Db, other: Db) {
    && db.devcontainers.Keys == other.devcontainers.Keys
    && db.sessions.Keys == other.sessions.Keys
    && (forall s | s in db.sessions :: db.sessions[s].devcontainerId == other.sessions[s].devcontainerId
                                       && db.sessions[s].startedAt == other.sessions[s].startedAt)
  }

  ghost predicate SameOn<V(!new)>(a: map<Id, V>, b: map<Id, V>, ids: set<Id>) {
    forall id | id in ids :: !Differs(a, b, id)
  }

  ghost predicate SameOff<V(!new)>(a: map<Id, V>, b: map<Id, V>, ids: set<Id>) {
    forall id | id !in ids :: !Differs(a, b, id)
  }

  lemma ApplyKeepsReads(db: Db, e: RuntimeEvent, u: ProjectionUpdates, s: Stamps)
    requires Apply(db, e, u, s).Success?
    ensures SameReads(db, Apply(db, e, u, s).value)
  {
  }

  /** An update writes nothing outside its footprint... */
  lemma WritesOnlyFootprint(db: Db, e: RuntimeEvent, u: ProjectionUpdates, s: Stamps)
    ensures var f := FootprintOf(e, u, s);
            && SameOff(DevcontainersAfter(db.devcontainers, e, u, s), db.devcontainers, f.devcontainers)
            && SameOff(SessionsAfter(db.sessions, e, u, s), db.sessions, f.sessions)
            && SameOff(ApprovalsAfter(db, e, u, s), db.approvals, f.approvals)
            && SameOff(InboxAfter(db, e, u, s), db.inbox, f.inbox)
    ensures (u.finalStatus.Some? ==> u.sessionStatus.Some?) ==>
              SameOff(SummariesAfter(db, e, u, s), db.summaries, FootprintOf(e, u, s).sessions)
  {
  }

  lemma StatusesReadOnlyFootprint(db: Db, other: Db, e: RuntimeEvent, u: ProjectionUpdates, s: Stamps)
    requires var f := FootprintOf(e, u, s);
             && SameOn(db.devcontainers, other.devcontainers, f.devcontainers)
             && SameOn(db.sessions, other.sessions, f.sessions)
    ensures var f := FootprintOf(e, u, s);
            && SameOn(DevcontainersAfter(db.devcontainers, e, u, s), DevcontainersAfter(other.devcontainers, e, u, s),
                      f.devcontainers)
            && SameOn(SessionsAfter(db.sessions, e, u, s), SessionsAfter(other.sessions, e, u, s), f.sessions)
  {
  }

  lemma ApprovalsReadOnlyFootprint(db: Db, other: Db, e: RuntimeEvent, u: ProjectionUpdates, s: Stamps)
    requires SameReads(db, other)
    requires SameOn(db.approvals, other.approvals, FootprintOf(e, u, s).approvals)
    ensures SameOn(ApprovalsAfter(db, e, u, s), ApprovalsAfter(other, e, u, s), FootprintOf(e, u, s).approvals)
  {
  }

  /** ...and what it writes there depends on nothing outside it but the reads above. */
  lemma ReadsOnlyFootprint(db: Db, other: Db, e: RuntimeEvent, u: ProjectionUpdates, s: Stamps)
    requires SameReads(db, other)
    requires var f := FootprintOf(e, u, s);
             && SameOn(db.devcontainers, other.devcontainers, f.devcontainers)
             && SameOn(db.sessions, other.sessions, f.sessions)
             && SameOn(db.approvals, other.approvals, f.approvals)
    ensures var f := FootprintOf(e, u, s);
            && SameOn(DevcontainersAfter(db.devcontainers, e, u, s), DevcontainersAfter(other.devcontainers, e, u, s),
                      f.devcontainers)
            && SameOn(SessionsAfter(db.sessions, e, u, s), SessionsAfter(other.sessions, e, u, s), f.sessions)
            && SameOn(ApprovalsAfter(db, e, u, s), ApprovalsAfter(other, e, u, s), f.approvals)
  {
    StatusesReadOnlyFootprint(db, other, e, u, s);
    ApprovalsReadOnlyFootprint(db, other, e, u, s);
  }

  lemma ResolvingIsLocal(a: map<Id, InboxRow>, b: map<Id, InboxRow>, first: Id, firstAt: Timestamp,
                         second: Id, secondAt: Timestamp, id: Id)
    requires !Differs(a, b, id)
    ensures var a1, b1 := ResolveInboxRow(a, first, firstAt), ResolveInboxRow(b, first, firstAt);
            && !Differs(a1, b1, id)
            && !Differs(ResolveInboxRow(a1, second, secondAt), ResolveInboxRow(b1, second, secondAt), id)
    ensures !Differs(ResolveInboxRow(a, second, secondAt), ResolveInboxRow(b, second, secondAt), id)
  {
  }

  lemma InboxReadsOnlyFootprint(db: Db, other: Db, e: RuntimeEvent, u: ProjectionUpdates, s: Stamps)
    requires SameReads(db, other)
    requires SameOn(db.approvals, other.approvals, FootprintOf(e, u, s).approvals)
    requires SameOn(db.inbox, other.inbox, FootprintOf(e, u, s).inbox)
    ensures SameOn(InboxAfter(db, e, u, s), InboxAfter(other, e, u, s), FootprintOf(e, u, s).inbox)
  {
    var f := FootprintOf(e, u, s);
    assert ResolvesLinked(db, u, s) == ResolvesLinked(other, u, s) by {
      if u.resolveApproval.Some? && u.resolveApprovalId.Some? {
        assert !Differs(db.approvals, other.approvals, u.resolveApprovalId.value);
      }
    }
    forall id | id in f.inbox ensures !Differs(InboxAfter(db, e, u, s), InboxAfter(other, e, u, s), id) {
      var answer := if u.resolveInboxEventId.Some? then u.resolveInboxEventId.value else "";
      ResolvingIsLocal(db.inbox, other.inbox, if s.linked.Some? then s.linked.value else "", s.linkedAt, answer,
                       s.resolvedAt, id);
      assert !Differs(ResolvedInbox(db, u, s), ResolvedInbox(other, u, s), id);
    }
  }

  lemma SummaryReadsOnlyFootprint(db: Db, other: Db, e: RuntimeEvent, u: ProjectionUpdates, s: Stamps)
    requires SameReads(db, other) && (u.finalStatus.Some? ==> u.sessionStatus.Some?)
    requires SameOn(db.summaries, other.summaries, FootprintOf(e, u, s).sessions)
    ensures SameOn(SummariesAfter(db, e, u, s), SummariesAfter(other, e, u, s), FootprintOf(e, u, s).sessions)
  {
  }

  /** Two table rewrites that write and read disjoint rows commute. */
  lemma TablesCommute<V(!new)>(t: map<Id, V>, a: map<Id, V>, b: map<Id, V>, ab: map<Id, V>, ba: map<Id, V>,
                                 wa: set<Id>, wb: set<Id>)
    requires wa !! wb
    requires SameOff(a, t, wa) && SameOff(b, t, wb)
    requires SameOff(ab, a, wb) && SameOff(ba, b, wa)
    requires SameOn(ba, a, wa) && SameOn(ab, b, wb)
    ensures ab == ba
  {
    forall id ensures !Differs(ab, ba, id) {
      if id in wa {
        assert !Differs(ab, a, id) && !Differs(ba, a, id);
      } else {
        assert !Differs(a, t, id) && !Differs(ba, b, id);
        if id in wb {
          assert !Differs(ab, b, id);
        } else {
          assert !Differs(ab, a, id) && !Differs(b, t, id);
        }
      }
    }
    forall id ensures id in ab <==> id in ba {
      assert !Differs(ab, ba, id);
    }
    assert ab.Keys == ba.Keys;
    forall id | id in ab ensures ab[id] == ba[id] {
      assert !Differs(ab, ba, id);
    }
  }

  function Then(db: Db, e1: RuntimeEvent, s1: Stamps, e2: RuntimeEvent, s2: Stamps): Option<Db> {
    var first := Project(db, e1, s1);
    if first.Failure? then None
    else
      var second := Project(first.value, e2, s2);
      if second.Failure? then None else Some(second.value)
  }

  predicate Independent(e1: RuntimeEvent, s1: Stamps, e2: RuntimeEvent, s2: Stamps) {
    Reduce(e1).Success? && Reduce(e2).Success? ==>
      Disjoint(FootprintOf(e1, Reduce(e1).value, s1), FootprintOf(e2, Reduce(e2).value, s2))
  }

  predicate SummaryShape(u: ProjectionUpdates) {
    u.finalStatus.Some? ==> u.sessionStatus.Some?
  }

  /** After one of two independent updates, the other still sees its own reads and rows. */
  lemma OtherStillSees(db: Db, e1: RuntimeEvent, u1: ProjectionUpdates, s1: Stamps,
                       e2: RuntimeEvent, u2: ProjectionUpdates, s2: Stamps)
    requires Apply(db, e1, u1, s1).Success? && SummaryShape(u1) && SummaryShape(u2)
    requires Disjoint(FootprintOf(e1, u1, s1), FootprintOf(e2, u2, s2))
    ensures
      var db1, f := Apply(db, e1, u1, s1).value, FootprintOf(e2, u2, s2);
      && SameReads(db1, db)
      && SameOn(db1.devcontainers, db.devcontainers, f.devcontainers)
      && SameOn(db1.sessions, db.sessions, f.sessions)
      && SameOn(db1.approvals, db.approvals, f.approvals)
      && SameOn(db1.inbox, db.inbox, f.inbox)
      && SameOn(db1.summaries, db.summaries, f.sessions)
      && InsertsKeepKeys(db1, e2, u2) == InsertsKeepKeys(db, e2, u2)
  {
    ApplyKeepsReads(db, e1, u1, s1);
    WritesOnlyFootprint(db, e1, u1, s1);
    var db1 := Apply(db, e1, u1, s1).value;
    if u2.finalStatus.Some? && e2.agentSessionId.Some? {
      assert e2.agentSessionId.value in FootprintOf(e2, u2, s2).sessions;
      assert !Differs(db1.summaries, db.summaries, e2.agentSessionId.value);
    }
  }

  lemma AppliesCommute(db: Db, e1: RuntimeEvent, u1: ProjectionUpdates, s1: Stamps,
                       e2: RuntimeEvent, u2: ProjectionUpdates, s2: Stamps)
    requires Apply(db, e1, u1, s1).Success? && Apply(db, e2, u2, s2).Success?
    requires SummaryShape(u1) && SummaryShape(u2)
    requires Disjoint(FootprintOf(e1, u1, s1), FootprintOf(e2, u2, s2))
    ensures Apply(Apply(db, e1, u1, s1).value, e2, u2, s2) == Apply(Apply(db, e2, u2, s2).value, e1, u1, s1)
  {
    OtherStillSees(db, e1, u1, s1, e2, u2, s2);
    OtherStillSees(db, e2, u2, s2, e1, u1, s1);
    var db1, db2 := Apply(db, e1, u1, s1).value, Apply(db, e2, u2, s2).value;
    var db12, db21 := Apply(db1, e2, u2, s2).value, Apply(db2, e1, u1, s1).value;
    var f1, f2 := FootprintOf(e1, u1, s1), FootprintOf(e2, u2, s2);
    WritesOnlyFootprint(db, e1, u1, s1);
    WritesOnlyFootprint(db, e2, u2, s2);
    WritesOnlyFootprint(db1, e2, u2, s2);
    WritesOnlyFootprint(db2, e1, u1, s1);
    ReadsOnlyFootprint(db2, db, e1, u1, s1);
    ReadsOnlyFootprint(db1, db, e2, u2, s2);
    InboxReadsOnlyFootprint(db2, db, e1, u1, s1);
    InboxReadsOnlyFootprint(db1, db, e2, u2, s2);
    SummaryReadsOnlyFootprint(db2, db, e1, u1, s1);
    SummaryReadsOnlyFootprint(db1, db, e2, u2, s2);
    TablesCommute(db.devcontainers, db1.devcontainers, db2.devcontainers, db12.devcontainers, db21.devcontainers,
                  f1.devcontainers, f2.devcontainers);
    TablesCommute(db.sessions, db1.sessions, db2.sessions, db12.sessions, db21.sessions, f1.sessions, f2.sessions);
    TablesCommute(db.approvals, db1.approvals, db2.approvals, db12.approvals, db21.approvals,
                  f1.approvals, f2.approvals);
    TablesCommute(db.inbox, db1.inbox, db2.inbox, db12.inbox, db21.inbox, f1.inbox, f2.inbox);
    TablesCommute(db.summaries, db1.summaries, db2.summaries, db12.summaries, db21.summaries, f1.sessions, f2.sessions);
  }

  /** Ids, clock readings and lookup answers being fixed per event, independent events project to
      the same tables in either order, or fail in both. */
  lemma IndependentEventsCommute(db: Db, e1: RuntimeEvent, s1: Stamps, e2: RuntimeEvent, s2: Stamps)
    requires Independent(e1, s1, e2, s2)
    ensures Then(db, e1, s1, e2, s2) == Then(db, e2, s2, e1, s1)
  {
    if Reduce(e1).Success? && Reduce(e2).Success? {
      UpdateShape(e1);
      UpdateShape(e2);
      CommuteApplied(db, e1, Reduce(e1).value, s1, e2, Reduce(e2).value, s2);
    }
  }

  /** Two agents that report on different sessions, ask, or end, are independent: their events go in in
      either order. */
  lemma SessionsGoTheirOwnWays(db: Db, e1: RuntimeEvent, s1: Stamps, e2: RuntimeEvent, s2: Stamps)
    requires e1.agentSessionId.Some? && e2.agentSessionId.Some? && e1.agentSessionId != e2.agentSessionId
    requires forall e | e in [e1, e2] :: DevcontainerNews(e.eventType).None?
                                         && !e.eventType.ApprovalResolved? && !e.eventType.UserInputSent?
    requires s1.inboxId != s2.inboxId && s1.approvalId != s2.approvalId
    ensures Independent(e1, s1, e2, s2) && Then(db, e1, s1, e2, s2) == Then(db, e2, s2, e1, s1)
  {
    assert e1 in [e1, e2] && e2 in [e1, e2];
    IndependentEventsCommute(db, e1, s1, e2, s2);
  }

  /** Of one session they are not: the later of its start and its end has the last word. */
  lemma OrderMattersWithinASession(db: Db, e1: RuntimeEvent, s1: Stamps, e2: RuntimeEvent, s2: Stamps, session: Id)
    requires e1.eventType.AgentSessionStarted? && e2.eventType.SessionStopped?
    requires e1.agentSessionId == e2.agentSessionId == Some(session) && session in db.sessions
    ensures Then(db, e1, s1, e2, s2).Some? && Then(db, e2, s2, e1, s1).Some?
    ensures Then(db, e1, s1, e2, s2).value.sessions[session].status.Stopped?
    ensures Then(db, e2, s2, e1, s1).value.sessions[session].status.Running?
  {
  }

  lemma CommuteApplied(db: Db, e1: RuntimeEvent, u1: ProjectionUpdates, s1: Stamps,
                       e2: RuntimeEvent, u2: ProjectionUpdates, s2: Stamps)
    requires Reduce(e1) == Success(u1) && Reduce(e2) == Success(u2)
    requires SummaryShape(u1) && SummaryShape(u2)
    requires Disjoint(FootprintOf(e1, u1, s1), FootprintOf(e2, u2, s2))
    ensures Then(db, e1, s1, e2, s2) == Then(db, e2, s2, e1, s1)
  {
    var a1, a2 := Apply(db, e1, u1, s1), Apply(db, e2, u2, s2);
    if a1.Success? {
      OtherStillSees(db, e1, u1, s1, e2, u2, s2);
    }
    if a2.Success? {
      OtherStillSees(db, e2, u2, s2, e1, u1, s1);
    }
    if a1.Success? && a2.Success? {
      AppliesCommute(db, e1, u1, s1, e2, u2, s2);
    }
  }

  /** The lookup answers may indeed be fixed: what SQLite can answer one event's lookup with is not
      moved by an independent event. */
  lemma AnswersAreUnmoved(db: Db, e1: RuntimeEvent, s1: Stamps, e2: RuntimeEvent, s2: Stamps)
    requires Independent(e1, s1, e2, s2) && Reduce(e1).Success? && Project(db, e2, s2).Success?
    requires s2.inboxId !in db.inbox && s2.approvalId !in db.approvals
    ensures ValidAnswer(Project(db, e2, s2).value, e1, s1) <==> ValidAnswer(db, e1, s1)
  {
    UpdateShape(e1);
    UpdateShape(e2);
    var target := ResolutionTarget(e1);
    if target.Some? {
      var u2 := Reduce(e2).value;
      assert target.value in FootprintOf(e1, Reduce(e1).value, s1).approvals by {
        ResolverHasTarget(e1);
      }
      assert u2.createApproval ==> s2.approvalId in FootprintOf(e2, u2, s2).approvals;
      InboxAfterShape(db, e2, u2, s2);
      ApprovalsAfterShape(db, e2, u2, s2);
      LinksAreUnmoved(db.inbox, Project(db, e2, s2).value.inbox, s2.inboxId, target.value);
    }
  }

  lemma ResolverHasTarget(e: RuntimeEvent)
    requires Reduce(e).Success? && ResolutionTarget(e).Some?
    ensures Reduce(e).value.resolveApproval.Some? && Reduce(e).value.resolveApprovalId == ResolutionTarget(e)
  {
  }

  lemma LinksAreUnmoved(inbox: map<Id, InboxRow>, grown: map<Id, InboxRow>, id: Id, approval: Id)
    requires inbox.Keys <= grown.Keys <= inbox.Keys + {id} && id !in inbox
    requires forall i | i in inbox :: SameItem(grown[i], inbox[i])
    requires id in grown ==> grown[id].approvalRequestId != Some(approval)
    ensures forall answer ::
              AnswersGetByApproval(grown, approval, answer) <==> AnswersGetByApproval(inbox, approval, answer)
  {
    forall i ensures IsLinked(grown, i, approval) <==> IsLinked(inbox, i, approval) {
      if i in inbox {
        assert SameItem(grown[i], inbox[i]);
      }
    }
  }
}
