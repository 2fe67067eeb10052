/** The inbox is a projection of the log: row for row they agree, through every cascade. */
module Conservation {
  import opened Vocabulary
  import opened Tables
  import opened Reducer
  import opened Intake
  import opened Routes
  import opened Coherence

  /** What an inbox row is about: a devcontainer, a session (or none), a type and a text. */
  datatype Topic = Topic(devcontainer: Id, session: Option<Id>, kind: InboxEventType, content: Option<string>)

  /** The text an event brings for the inbox: the question, the result or the error output. */
  function Text(e: RuntimeEvent): Option<string> {
    match e.eventType
    case AgentAskedQuestion => PayloadOf(e).question
    case SessionCompleted => PayloadOf(e).result
    case SessionFailed => PayloadOf(e).stderrTail
    case _ => None
  }

  predicate EventIsAbout(e: RuntimeEvent, t: Topic) {
    && e.devcontainerId == Some(t.devcontainer) && e.agentSessionId == t.session
    && InboxEventTypeFor(e.eventType) == Some(t.kind) && Text(e) == t.content
  }

  function RowTopic(row: InboxRow): Topic {
    Topic(row.devcontainerId, row.agentSessionId, row.eventType, row.content)
  }

  function LogCount(log: seq<RuntimeEvent>, t: Topic): nat {
    if log == [] then 0
    else LogCount(log[..|log| - 1], t) + (if EventIsAbout(log[|log| - 1], t) then 1 else 0)
  }

  function InboxRows(inbox: map<Id, InboxRow>, t: Topic): set<Id> {
    set i | i in inbox && RowTopic(inbox[i]) == t
  }

  ghost predicate Conserved(db: Db) {
    forall t: Topic :: LogCount(db.log, t) == |InboxRows(db.inbox, t)|
  }

  predicate TopicDies(t: Topic, deadDevcontainers: set<Id>, deadSessions: set<Id>) {
    t.devcontainer in deadDevcontainers || (t.session.Some? && t.session.value in deadSessions)
  }

  /** A delete removes all of a topic's log events or none of them... */
  lemma {:induction false} LogCountAfterDelete(log: seq<RuntimeEvent>, deadDevcontainers: set<Id>,
                                              deadSessions: set<Id>, t: Topic)
    ensures LogCount(SurvivingLog(log, deadDevcontainers, deadSessions), t)
            == if TopicDies(t, deadDevcontainers, deadSessions) then 0 else LogCount(log, t)
  {
    if log != [] {
      var front := log[..|log| - 1];
      LogCountAfterDelete(front, deadDevcontainers, deadSessions, t);
      var kept := SurvivingLog(front, deadDevcontainers, deadSessions);
      assert (kept + [log[|log| - 1]])[..|kept|] == kept;
    }
  }

  /** ...and the same of its inbox rows. */
  lemma DeleteConserves(db: Db, deadDevcontainers: set<Id>, deadSessions: set<Id>)
    requires Conserved(db)
    ensures Conserved(DeleteRows(db, deadDevcontainers, deadSessions))
  {
    var left := DeleteRows(db, deadDevcontainers, deadSessions);
    forall t: Topic ensures LogCount(left.log, t) == |InboxRows(left.inbox, t)| {
      LogCountAfterDelete(db.log, deadDevcontainers, deadSessions, t);
      assert InboxRows(left.inbox, t)
          == if TopicDies(t, deadDevcontainers, deadSessions) then {} else InboxRows(db.inbox, t);
    }
  }

  lemma IntakeConserves(db: Db, e: RuntimeEvent, s: Stamps)
    requires Conserved(db) && s.inboxId !in db.inbox
    ensures Conserved(AfterIntake(db, e, s))
  {
    if Persist(db, e, s).Success? {
      var r := Recorded(e, s);
      var u := Reduce(r).value;
      var logged := db.(log := db.log + [r]);
      UpdateShape(r);
      TextIsTheUpdate(r);
      forall t: Topic ensures LogCount(logged.log, t) == |InboxRows(InboxAfter(logged, r, u, s), t)| {
        assert logged.log[..|db.log|] == db.log;
        RowsAfter(logged, r, u, s, t);
      }
    }
  }

  lemma TextIsTheUpdate(e: RuntimeEvent)
    requires Reduce(e).Success?
    ensures Reduce(e).value.inboxEventType.Some? ==> Reduce(e).value.inboxContent == Text(e)
  {
  }

  lemma RowsAfter(db: Db, e: RuntimeEvent, u: ProjectionUpdates, s: Stamps, t: Topic)
    requires s.inboxId !in db.inbox && u.inboxEventType == InboxEventTypeFor(e.eventType)
    requires u.inboxEventType.Some? ==> u.inboxContent == Text(e)
    ensures |InboxRows(InboxAfter(db, e, u, s), t)| == |InboxRows(db.inbox, t)| + if EventIsAbout(e, t) then 1 else 0
  {
    InboxAfterShape(db, e, u, s);
    forall i | i in db.inbox ensures RowTopic(InboxAfter(db, e, u, s)[i]) == RowTopic(db.inbox[i]) {
      SameItemSameTopic(InboxAfter(db, e, u, s)[i], db.inbox[i]);
    }
    GrownRows(db.inbox, InboxAfter(db, e, u, s), s.inboxId, t);
  }

  lemma SameItemSameTopic(row: InboxRow, other: InboxRow)
    requires SameItem(row, other)
    ensures RowTopic(row) == RowTopic(other)
  {
  }

  lemma GrownRows(table: map<Id, InboxRow>, grown: map<Id, InboxRow>, id: Id, t: Topic)
    requires id !in table && table.Keys <= grown.Keys <= table.Keys + {id}
    requires forall i | i in table :: RowTopic(grown[i]) == RowTopic(table[i])
    ensures |InboxRows(grown, t)| == |InboxRows(table, t)| + if id in grown && RowTopic(grown[id]) == t then 1 else 0
  {
    if id in grown && RowTopic(grown[id]) == t {
      assert InboxRows(grown, t) == InboxRows(table, t) + {id};
    } else {
      assert InboxRows(grown, t) == InboxRows(table, t);
    }
  }

  lemma StepConserves(db: Db, a: Action)
    requires ForeignKeys(db) && Conserved(db) && Enabled(db, a)
    ensures Conserved(Step(db, a))
  {
    match a
    case Receive(e, stamps) => IntakeConserves(db, e, stamps);
    case Drop(d, s) => DeleteConserves(db, {}, {s});
    case DropDevcontainer(d) => DeleteConserves(db, {d}, SessionsOf(db, d));
    case _ =>
      OtherStepsAreHarmless(db, a);
      forall t: Topic ensures InboxRows(Step(db, a).inbox, t) == InboxRows(db.inbox, t) {
      }
  }

  /** In every reachable database: for each devcontainer, session, inbox type and text, as many inbox
      rows as surviving log events that map to it. */
  lemma {:induction false} ReachableIsConserved(run: seq<Action>)
    requires ValidRun(EMPTY_DB, run)
    ensures Conserved(Execute(EMPTY_DB, run))
  {
    if run == [] {
      assert forall t: Topic :: InboxRows(EMPTY_DB.inbox, t) == {};
    } else {
      var before := run[..|run| - 1];
      ReachableIsConserved(before);
      ReachableIsCoherent(before);
      StepConserves(Execute(EMPTY_DB, before), run[|run| - 1]);
    }
  }
}
