/** Event intake: record, project, commit, then publish. All of it or nothing. */
module Intake {
  import opened Vocabulary
  import opened Tables
  import opened Reducer

  /** The log gets a new id and clock reading; the sender's own are dropped. */
  function Recorded(e: RuntimeEvent, s: Stamps): RuntimeEvent {
    e.(id := s.eventId, createdAt := s.eventAt)
  }

  function Persist(db: Db, e: RuntimeEvent, s: Stamps): Result<Db, DbError> {
    if EventKeys(db, e) then
      Project(db.(log := db.log + [Recorded(e, s)]), Recorded(e, s), s)
    else Failure(ForeignKeyViolation)
  }

  /** What intake leaves in the database, the transaction being rolled back on a failure. */
  function AfterIntake(db: Db, e: RuntimeEvent, s: Stamps): Db {
    var r := Persist(db, e, s);
    if r.Success? then r.value else db
  }

  /** What intake broadcasts. */
  function Published(db: Db, e: RuntimeEvent, s: Stamps): seq<SseEvent> {
    if Persist(db, e, s).Success? && InvalidationsFor(Recorded(e, s)).Success?
    then InvalidationsFor(Recorded(e, s)).value else []
  }

  ghost predicate FreshStamps(db: Db, s: Stamps) {
    && s.approvalId !in db.approvals
    && s.inboxId !in db.inbox
    && (forall e | e in db.log :: e.id != s.eventId)
  }

  /** The event names rows that are there, and carries no bad resolution. */
  predicate Acceptable(db: Db, e: RuntimeEvent) {
    EventKeys(db, e) && !HasBadResolution(e)
  }

  /** From a key-intact database, intake is refused exactly when the event names a missing row or
      carries a bad resolution; once the projection went through, the invalidations cannot fail. */
  lemma IntakeSucceedsExactly(db: Db, e: RuntimeEvent, s: Stamps)
    requires ForeignKeys(db)
    ensures Persist(db, e, s).Success? <==> Acceptable(db, e)
    ensures Persist(db, e, s).Success? ==> InvalidationsFor(Recorded(e, s)).Success?
  {
    var r := Recorded(e, s);
    if EventKeys(db, e) && !HasBadResolution(e) {
      var u := Reduce(r).value;
      assert InsertsKeepKeys(db.(log := db.log + [r]), r, u);
    }
  }

  /** A successful intake appends exactly the recorded event and keeps every foreign key. */
  lemma IntakeKeepsForeignKeys(db: Db, e: RuntimeEvent, s: Stamps)
    requires ForeignKeys(db) && Persist(db, e, s).Success?
    ensures Persist(db, e, s).value.log == db.log + [Recorded(e, s)]
    ensures ForeignKeys(Persist(db, e, s).value)
  {
    var r := Recorded(e, s);
    var logged := db.(log := db.log + [r]);
    assert ForeignKeys(logged) by {
      forall x | x in logged.log ensures EventKeys(logged, x) {
        assert x in db.log || x == r;
        assert x in db.log ==> EventKeys(db, x);
      }
      forall i | i in logged.inbox ensures InboxKeys(logged, logged.inbox[i]) {
        assert InboxKeys(db, db.inbox[i]);
      }
      forall a | a in logged.approvals ensures ApprovalKeys(logged, logged.approvals[a]) {
        assert ApprovalKeys(db, db.approvals[a]);
      }
    }
    ApplyKeepsForeignKeys(logged, r, Reduce(r).value, s);
  }

  /** Rows keep their keys while no referenced table loses one. */
  lemma RowsKeepKeys(db: Db, db': Db)
    requires ForeignKeys(db) && db'.log == db.log
    requires db.devcontainers.Keys <= db'.devcontainers.Keys
    requires db.sessions.Keys <= db'.sessions.Keys && db.approvals.Keys <= db'.approvals.Keys
    ensures forall e | e in db'.log :: EventKeys(db', e)
    ensures forall a | a in db.approvals :: ApprovalKeys(db', db.approvals[a])
    ensures forall i | i in db.inbox :: InboxKeys(db', db.inbox[i])
  {
    forall e | e in db'.log ensures EventKeys(db', e) {
      assert EventKeys(db, e);
    }
    forall a | a in db.approvals ensures ApprovalKeys(db', db.approvals[a]) {
      assert ApprovalKeys(db, db.approvals[a]);
    }
    forall i | i in db.inbox ensures InboxKeys(db', db.inbox[i]) {
      assert InboxKeys(db, db.inbox[i]);
    }
  }

  lemma ApplyKeepsForeignKeys(db: Db, e: RuntimeEvent, u: ProjectionUpdates, s: Stamps)
    requires ForeignKeys(db) && EventKeys(db, e) && Apply(db, e, u, s).Success?
    ensures ForeignKeys(Apply(db, e, u, s).value)
  {
    var db' := Apply(db, e, u, s).value;
    assert db'.devcontainers.Keys == db.devcontainers.Keys;
    assert db'.sessions.Keys == db.sessions.Keys;
    assert db.approvals.Keys <= db'.approvals.Keys;
    RowsKeepKeys(db, db');
    forall a | a in db'.approvals ensures ApprovalKeys(db', db'.approvals[a]) {
      if a in db.approvals {
        assert ApprovalKeys(db', db.approvals[a]);
      }
    }
    InboxKeepsKeys(db, e, u, s, db');
  }

  lemma InboxKeepsKeys(db: Db, e: RuntimeEvent, u: ProjectionUpdates, s: Stamps, db': Db)
    requires InsertsKeepKeys(db, e, u) && db'.inbox == InboxAfter(db, e, u, s)
    requires db'.devcontainers.Keys == db.devcontainers.Keys && db'.sessions.Keys == db.sessions.Keys
    requires CreatesApproval(db, e, u) ==> s.approvalId in db'.approvals
    requires forall i | i in db.inbox :: InboxKeys(db', db.inbox[i])
    ensures forall i | i in db'.inbox :: InboxKeys(db', db'.inbox[i])
  {
    InboxAfterShape(db, e, u, s);
    forall i | i in db'.inbox ensures InboxKeys(db', db'.inbox[i]) {
      if i in db.inbox {
        assert InboxKeys(db', db.inbox[i]);
      }
    }
  }
}
