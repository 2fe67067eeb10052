/** From commit to callback: no runtime-event commit is missed by a browser page, through
    publishing, mailboxes, the event stream, drops and reconnects. */
module NoMissedInvalidation {
  import opened Vocabulary
  import opened Tables
  import opened Reducer
  import opened Intake
  import opened Coordinator

  /** The page's history. `watchers` are the registrations in force at a commit; there are none
      before the page's first subscription. */
  datatype Mark =
    | Committed(scopes: set<Scope>, watchers: set<Call>)
    | Ran(call: Call)
    | Registered(call: Call)
    | Unregistered(call: Call)

  /** `unpublished`: committed but not yet broadcast. `mailbox`: this page's subscription, if its
      stream is live. `wire`: sent to the page, not yet delivered. */
  datatype State = State(
    unpublished: seq<SseEvent>,
    mailbox: Option<seq<SseEvent>>,
    wire: seq<SseEvent>,
    page: Page,
    history: seq<Mark>)

  const START := State([], None, [], NEW_PAGE, [])

  datatype Step =
    | Commits(db: Db, event: RuntimeEvent, stamps: Stamps)
    | Announces(news: SseEvent)
    | PublishesOne
    | PageConnects
    | PageDisconnects
    | SubscribesAndOpens
    | Drains
    | Delivers
    | StreamEnds
    | ConnectionFails(fatal: bool)
    | Registers(call: Call)
    | Unregisters(call: Call)

  /** The scopes whose tables differ; summaries are read with their sessions. */
  function ChangedScopes(db: Db, db': Db): set<Scope> {
    (if db'.devcontainers != db.devcontainers then {Devcontainers} else {})
    + (if db'.sessions != db.sessions || db'.summaries != db.summaries then {AgentSessions} else {})
    + (if db'.approvals != db.approvals then {Approvals} else {})
    + (if db'.inbox != db.inbox then {Scope.Inbox} else {})
  }

  function AffectedScopes(db: Db, e: RuntimeEvent, s: Stamps): set<Scope> {
    ChangedScopes(db, AfterIntake(db, e, s))
  }

  function Watchers(p: Page): set<Call> {
    if p.hasOpened then set c | c in CatchUpCalls(p.callbacks, p.scopes) else {}
  }

  predicate Enabled(st: State, step: Step) {
    match step
    case Commits(db, e, s) => Persist(db, e, s).Success?
    case PublishesOne => st.unpublished != []
    case SubscribesAndOpens => st.page.source.Connecting? && st.mailbox.None?
    case Drains => st.mailbox.Some? && st.mailbox.value != []
    case Delivers => st.page.source.Open? && st.wire != []
    case StreamEnds => st.mailbox.Some?
    case ConnectionFails(_) => st.page.source.Open? || st.page.source.Connecting?
    case _ => true
  }

  function Marks(calls: seq<Call>): seq<Mark> {
    if calls == [] then [] else Marks(calls[..|calls| - 1]) + [Ran(calls[|calls| - 1])]
  }

  function Effect(st: State, step: Step): State
    requires Enabled(st, step)
  {
    match step
    case Commits(db, e, s) =>
      st.(unpublished := st.unpublished + Published(db, e, s),
          history := st.history + [Committed(AffectedScopes(db, e, s), Watchers(st.page))])
    case Announces(news) => st.(unpublished := st.unpublished + [news])
    case PublishesOne =>
      st.(unpublished := st.unpublished[1..],
          mailbox := if st.mailbox.Some? then Some(st.mailbox.value + [st.unpublished[0]]) else None)
    case PageConnects => st.(page := AfterConnect(st.page))
    case PageDisconnects => st.(page := AfterDisconnect(st.page), mailbox := None, wire := [])
    case SubscribesAndOpens =>
      st.(mailbox := Some([]), wire := [], page := AfterOpen(st.page),
          history := st.history + Marks(OpenCalls(st.page)))
    case Drains => st.(mailbox := Some(st.mailbox.value[1..]), wire := st.wire + [st.mailbox.value[0]])
    case Delivers =>
      var scope := st.wire[0].scope;
      st.(wire := st.wire[1..], history := st.history + Marks(CallEach(scope, CallbacksOf(st.page.callbacks, scope))))
    case StreamEnds => st.(mailbox := None)
    case ConnectionFails(fatal) => st.(page := AfterError(st.page, fatal), mailbox := None, wire := [])
    case Registers(c) =>
      st.(page := AfterRegister(st.page, c.scope, c.callback), history := st.history + [Registered(c)])
    case Unregisters(c) =>
      st.(page := AfterUnregister(st.page, c.scope, c.callback), history := st.history + [Unregistered(c)])
  }

  /** A step that cannot be taken changes nothing, so every sequence of steps is a run. */
  function Next(st: State, step: Step): State {
    if Enabled(st, step) then Effect(st, step) else st
  }

  function Execute(steps: seq<Step>): State {
    if steps == [] then START else Next(Execute(steps[..|steps| - 1]), steps[|steps| - 1])
  }

  // ---------------------------------------------------------------- what is owed, what is coming

  predicate Owes(m: Mark, c: Call) {
    m.Committed? && c.scope in m.scopes && c in m.watchers
  }

  predicate Settles(m: Mark, c: Call) {
    m == Ran(c) || m == Unregistered(c)
  }

  /** Some commit owes this callback a run that it has not had since. */
  predicate Owed(history: seq<Mark>, c: Call) {
    history != [] &&
    var last := history[|history| - 1];
    (Owes(last, c) || (!Settles(last, c) && Owed(history[..|history| - 1], c)))
  }

  predicate Mentions(events: seq<SseEvent>, scope: Scope) {
    exists e | e in events :: e.scope == scope
  }

  /** An invalidation of the scope is unpublished, queued or in transit for the page; or the page
      has no live stream and has opened before, so that its next open runs every callback. */
  predicate Coming(st: State, scope: Scope) {
    || Mentions(st.unpublished, scope)
    || (st.mailbox.Some? && Mentions(st.mailbox.value, scope))
    || (st.wire != [] && st.page.source.Open? && Mentions(st.wire, scope))
    || (st.mailbox.None? && st.page.hasOpened)
  }

  predicate NotMissed(st: State, c: Call) {
    Owed(st.history, c) ==> st.page.hasOpened && Listening(st.page, c.scope, c.callback) && Coming(st, c.scope)
  }

  ghost predicate Inv(st: State) {
    && Ordered(st.page)
    && (forall c :: NotMissed(st, c))
    && (st.mailbox.Some? ==> st.page.source.Open?)
    && (st.page.source.Open? ==> st.page.hasOpened)
  }

  lemma {:induction false} OwedAfterRuns(history: seq<Mark>, calls: seq<Call>, c: Call)
    ensures Owed(history + Marks(calls), c) <==> Owed(history, c) && c !in calls
  {
    if calls == [] {
      assert history + Marks(calls) == history;
    } else {
      var front, last := calls[..|calls| - 1], calls[|calls| - 1];
      OwedAfterRuns(history, front, c);
      var all := history + Marks(calls);
      assert all == (history + Marks(front)) + [Ran(last)];
      assert all[..|all| - 1] == history + Marks(front);
      assert calls == front + [last];
    }
  }

  lemma OwedAfterMark(history: seq<Mark>, m: Mark, c: Call)
    ensures Owed(history + [m], c) <==> Owes(m, c) || (!Settles(m, c) && Owed(history, c))
  {
    assert (history + [m])[..|history|] == history;
  }

  lemma CoveredIsMentioned(db: Db, db': Db, announced: seq<SseEvent>, scope: Scope)
    requires Covers(announced, db, db') && scope in ChangedScopes(db, db')
    ensures Mentions(announced, scope)
  {
    var k :| 0 <= k < |announced| && announced[k].scope == scope;
    assert announced[k] in announced;
  }

  lemma ProjectionIsAnnounced(db: Db, e: RuntimeEvent, s: Stamps, scope: Scope)
    requires Project(db, e, s).Success? && scope in ChangedScopes(db, Project(db, e, s).value)
    ensures InvalidationsFor(e).Success? && Mentions(InvalidationsFor(e).value, scope)
  {
    InvalidationsCoverProjection(db, e, s);
    CoveredIsMentioned(db, Project(db, e, s).value, InvalidationsFor(e).value, scope);
  }

  lemma CommitIsAnnounced(db: Db, e: RuntimeEvent, s: Stamps, scope: Scope)
    requires Persist(db, e, s).Success? && scope in AffectedScopes(db, e, s)
    ensures Mentions(Published(db, e, s), scope)
  {
    ProjectionIsAnnounced(db.(log := db.log + [Recorded(e, s)]), Recorded(e, s), s, scope);
  }

  lemma MentionsConcat(a: seq<SseEvent>, b: seq<SseEvent>, scope: Scope)
    ensures Mentions(a + b, scope) <==> Mentions(a, scope) || Mentions(b, scope)
  {
  }

  lemma MentionsSplit(events: seq<SseEvent>, scope: Scope)
    requires events != []
    ensures Mentions(events, scope) <==> events[0].scope == scope || Mentions(events[1..], scope)
  {
    assert events == [events[0]] + events[1..];
    MentionsConcat([events[0]], events[1..], scope);
  }

  lemma CommitKeepsNotMissed(st: State, db: Db, e: RuntimeEvent, s: Stamps, c: Call)
    requires Inv(st) && NotMissed(st, c) && Persist(db, e, s).Success?
    ensures NotMissed(Effect(st, Commits(db, e, s)), c)
  {
    CatchUpRuns(st.page.callbacks, st.page.scopes, c);
    OwedAfterMark(st.history, Committed(AffectedScopes(db, e, s), Watchers(st.page)), c);
    MentionsConcat(st.unpublished, Published(db, e, s), c.scope);
    if c.scope in AffectedScopes(db, e, s) {
      CommitIsAnnounced(db, e, s, c.scope);
    }
  }

  lemma PublishKeepsNotMissed(st: State, c: Call)
    requires Inv(st) && NotMissed(st, c) && st.unpublished != []
    ensures NotMissed(Effect(st, PublishesOne), c)
  {
    MentionsSplit(st.unpublished, c.scope);
    if st.mailbox.Some? {
      MentionsConcat(st.mailbox.value, [st.unpublished[0]], c.scope);
    }
  }

  lemma OpenKeepsNotMissed(st: State, c: Call)
    requires Inv(st) && NotMissed(st, c) && Enabled(st, SubscribesAndOpens)
    ensures NotMissed(Effect(st, SubscribesAndOpens), c)
  {
    CatchUpRuns(st.page.callbacks, st.page.scopes, c);
    OwedAfterRuns(st.history, OpenCalls(st.page), c);
  }

  lemma DrainKeepsNotMissed(st: State, c: Call)
    requires Inv(st) && NotMissed(st, c) && Enabled(st, Drains)
    ensures NotMissed(Effect(st, Drains), c)
  {
    MentionsSplit(st.mailbox.value, c.scope);
    MentionsConcat(st.wire, [st.mailbox.value[0]], c.scope);
  }

  lemma DeliveryKeepsNotMissed(st: State, c: Call)
    requires Inv(st) && NotMissed(st, c) && Enabled(st, Delivers)
    ensures NotMissed(Effect(st, Delivers), c)
  {
    var scope := st.wire[0].scope;
    CallEachRuns(scope, CallbacksOf(st.page.callbacks, scope), c);
    OwedAfterRuns(st.history, CallEach(scope, CallbacksOf(st.page.callbacks, scope)), c);
    MentionsSplit(st.wire, c.scope);
  }

  lemma StepKeepsNotMissed(st: State, step: Step, c: Call)
    requires Inv(st) && Enabled(st, step)
    ensures NotMissed(Effect(st, step), c)
  {
    assert NotMissed(st, c);
    match step
    case Commits(db, e, s) => CommitKeepsNotMissed(st, db, e, s, c);
    case Announces(news) => MentionsConcat(st.unpublished, [news], c.scope);
    case PublishesOne => PublishKeepsNotMissed(st, c);
    case SubscribesAndOpens => OpenKeepsNotMissed(st, c);
    case Drains => DrainKeepsNotMissed(st, c);
    case Delivers => DeliveryKeepsNotMissed(st, c);
    case Registers(other) => OwedAfterMark(st.history, Registered(other), c);
    case Unregisters(gone) => OwedAfterMark(st.history, Unregistered(gone), c);
    case _ =>
  }

  lemma StepKeepsPage(st: State, step: Step)
    requires Ordered(st.page) && (st.mailbox.Some? ==> st.page.source.Open?)
    requires st.page.source.Open? ==> st.page.hasOpened
    ensures
      var st' := Next(st, step);
      && Ordered(st'.page) && (st'.mailbox.Some? ==> st'.page.source.Open?)
      && (st'.page.source.Open? ==> st'.page.hasOpened)
  {
    if step.Registers? {
      RegisterKeepsOrder(st.page, step.call.scope, step.call.callback);
    } else if step.Unregisters? {
      UnregisterKeepsOrder(st.page, step.call.scope, step.call.callback);
    } else {
      assert Next(st, step).page.scopes == st.page.scopes && Next(st, step).page.callbacks == st.page.callbacks;
    }
  }

  lemma {:induction false} NothingIsMissed(steps: seq<Step>)
    ensures Inv(Execute(steps))
  {
    if steps != [] {
      var front, step := Execute(steps[..|steps| - 1]), steps[|steps| - 1];
      NothingIsMissed(steps[..|steps| - 1]);
      StepKeepsPage(front, step);
      if Enabled(front, step) {
        forall c ensures NotMissed(Next(front, step), c) {
          StepKeepsNotMissed(front, step, c);
        }
      }
    }
  }

  // ---------------------------------------------------------------- who is listening

  /** The last the page said of this callback is that it is registered. */
  predicate LastRegistered(history: seq<Mark>, c: Call) {
    history != [] &&
    var last := history[|history| - 1];
    (last == Registered(c) || (last != Unregistered(c) && LastRegistered(history[..|history| - 1], c)))
  }

  /** The stream has been opened. */
  predicate Opened(steps: seq<Step>) {
    steps != [] &&
    var front, step := steps[..|steps| - 1], steps[|steps| - 1];
    (Opened(front) || (step.SubscribesAndOpens? && Enabled(Execute(front), step)))
  }

  lemma {:induction false} RunsRegisterNone(history: seq<Mark>, calls: seq<Call>, c: Call)
    ensures LastRegistered(history + Marks(calls), c) <==> LastRegistered(history, c)
  {
    if calls == [] {
      assert history + Marks(calls) == history;
    } else {
      var front := calls[..|calls| - 1];
      RunsRegisterNone(history, front, c);
      var all := history + Marks(calls);
      assert all[..|all| - 1] == history + Marks(front);
    }
  }

  lemma MarkRegisters(history: seq<Mark>, m: Mark, c: Call)
    ensures LastRegistered(history + [m], c)
            <==> m == Registered(c) || (m != Unregistered(c) && LastRegistered(history, c))
  {
    assert (history + [m])[..|history|] == history;
  }

  predicate ListensAsTold(st: State, c: Call) {
    Listening(st.page, c.scope, c.callback) <==> LastRegistered(st.history, c)
  }

  lemma RegisteringListensAsTold(st: State, c: Call, other: Call)
    requires ListensAsTold(st, c)
    ensures ListensAsTold(Next(st, Registers(other)), c)
  {
    MarkRegisters(st.history, Registered(other), c);
    RegisterListens(st.page, other.scope, other.callback, c);
  }

  lemma UnregisteringListensAsTold(st: State, c: Call, other: Call)
    requires ListensAsTold(st, c)
    ensures ListensAsTold(Next(st, Unregisters(other)), c)
  {
    MarkRegisters(st.history, Unregistered(other), c);
    RegisterListens(st.page, other.scope, other.callback, c);
  }

  lemma StepListensAsTold(st: State, step: Step, c: Call)
    requires ListensAsTold(st, c)
    ensures ListensAsTold(Next(st, step), c)
  {
    if step.Registers? {
      RegisteringListensAsTold(st, c, step.call);
    } else if step.Unregisters? {
      UnregisteringListensAsTold(st, c, step.call);
    } else if Enabled(st, step) {
      match step
      case Commits(db, e, s) => MarkRegisters(st.history, Committed(AffectedScopes(db, e, s), Watchers(st.page)), c);
      case SubscribesAndOpens => RunsRegisterNone(st.history, OpenCalls(st.page), c);
      case Delivers =>
        var scope := st.wire[0].scope;
        RunsRegisterNone(st.history, CallEach(scope, CallbacksOf(st.page.callbacks, scope)), c);
      case _ =>
    }
  }

  /** Over every run: a callback is listening exactly if its last mark but runs is its registration. */
  lemma {:induction false} ListeningExactly(steps: seq<Step>, c: Call)
    ensures Listening(Execute(steps).page, c.scope, c.callback) <==> LastRegistered(Execute(steps).history, c)
  {
    if steps != [] {
      ListeningExactly(steps[..|steps| - 1], c);
      StepListensAsTold(Execute(steps[..|steps| - 1]), steps[|steps| - 1], c);
    }
  }

  lemma StepOpens(st: State, step: Step)
    ensures Next(st, step).page.hasOpened <==> st.page.hasOpened || (step.SubscribesAndOpens? && Enabled(st, step))
  {
  }

  lemma {:induction false} OpenedExactly(steps: seq<Step>)
    ensures Execute(steps).page.hasOpened <==> Opened(steps)
  {
    if steps != [] {
      OpenedExactly(steps[..|steps| - 1]);
      StepOpens(Execute(steps[..|steps| - 1]), steps[|steps| - 1]);
    }
  }

  /** The marks that a step leaves. */
  function NewMarks(st: State, step: Step): seq<Mark>
    requires st.history <= Next(st, step).history
  {
    Next(st, step).history[|st.history|..]
  }

  lemma OpenRuns(st: State, c: Call)
    requires Ordered(st.page) && Enabled(st, SubscribesAndOpens)
    ensures st.history <= Next(st, SubscribesAndOpens).history
    ensures
      var marks := NewMarks(st, SubscribesAndOpens);
      Distinct(marks) && (Ran(c) in marks <==> st.page.hasOpened && Listening(st.page, c.scope, c.callback))
  {
    OpenRunsRegistered(st.page);
    MarksAreRuns(OpenCalls(st.page), c);
    assert NewMarks(st, SubscribesAndOpens) == Marks(OpenCalls(st.page));
  }

  lemma DeliveryRuns(st: State, c: Call)
    requires Ordered(st.page) && Enabled(st, Delivers)
    ensures st.history <= Next(st, Delivers).history
    ensures
      var marks := NewMarks(st, Delivers);
      && Distinct(marks)
      && (Ran(c) in marks <==> st.wire[0].scope == c.scope && Listening(st.page, c.scope, c.callback))
  {
    var calls := CallEach(st.wire[0].scope, CallbacksOf(st.page.callbacks, st.wire[0].scope));
    InvalidationRunsScope(st.page, st.wire[0].scope);
    MarksAreRuns(calls, c);
    assert NewMarks(st, Delivers) == Marks(calls);
  }

  lemma OthersRunNone(st: State, step: Step, c: Call)
    requires !Enabled(st, step) || !(step.SubscribesAndOpens? || step.Delivers?)
    ensures st.history <= Next(st, step).history
    ensures |NewMarks(st, step)| <= 1 && Ran(c) !in NewMarks(st, step)
  {
  }

  /** A callback runs only when its scope's invalidation is delivered, or the stream is opened again; and
      then it does run, once. */
  lemma RunsExactly(steps: seq<Step>, step: Step, c: Call)
    ensures Execute(steps).history <= Next(Execute(steps), step).history
    ensures Distinct(NewMarks(Execute(steps), step))
    ensures
      var st := Execute(steps);
      Ran(c) in NewMarks(st, step)
      <==> && Enabled(st, step) && Listening(st.page, c.scope, c.callback)
           && ((step.Delivers? && st.wire[0].scope == c.scope) || (step.SubscribesAndOpens? && Opened(steps)))
  {
    NothingIsMissed(steps);
    OpenedExactly(steps);
    if !Enabled(Execute(steps), step) || !(step.SubscribesAndOpens? || step.Delivers?) {
      OthersRunNone(Execute(steps), step, c);
    } else if step.Delivers? {
      DeliveryRuns(Execute(steps), c);
    } else {
      OpenRuns(Execute(steps), c);
    }
  }

  lemma {:induction false} MarksAreRuns(calls: seq<Call>, c: Call)
    ensures Ran(c) in Marks(calls) <==> c in calls
    ensures Distinct(calls) ==> Distinct(Marks(calls))
    ensures |Marks(calls)| == |calls| && forall i | 0 <= i < |calls| :: Marks(calls)[i] == Ran(calls[i])
  {
    if calls != [] {
      MarksAreRuns(calls[..|calls| - 1], c);
      assert calls == calls[..|calls| - 1] + [calls[|calls| - 1]];
    }
  }

  // ---------------------------------------------------------------- the promise

  /** The k-th mark is a commit that changed the callback's scope after the page's first
      subscription, while the callback was registered. */
  predicate OwingCommit(history: seq<Mark>, k: nat, c: Call) {
    k < |history| && Owes(history[k], c)
  }

  predicate SettledSince(history: seq<Mark>, k: nat, c: Call) {
    exists j :: k < j < |history| && Settles(history[j], c)
  }

  lemma {:induction false} OwedMeans(history: seq<Mark>, k: nat, c: Call)
    requires OwingCommit(history, k, c) && !SettledSince(history, k, c)
    ensures Owed(history, c)
  {
    var n := |history| - 1;
    if k < n {
      assert !Settles(history[n], c);
      assert !SettledSince(history[..n], k, c) by {
        assert forall j | k < j < n :: history[..n][j] == history[j];
      }
      OwedMeans(history[..n], k, c);
    }
  }

  /** The promise: for every such commit, the callback has run since (or was taken off), or an
      invalidation is still on its way, or the next open will run it. */
  lemma EveryCommitIsHeard(steps: seq<Step>, k: nat, c: Call)
    requires OwingCommit(Execute(steps).history, k, c)
    ensures SettledSince(Execute(steps).history, k, c) || Coming(Execute(steps), c.scope)
  {
    NothingIsMissed(steps);
    if !SettledSince(Execute(steps).history, k, c) {
      OwedMeans(Execute(steps).history, k, c);
      assert NotMissed(Execute(steps), c);
    }
  }

  /** Such a commit is every one after the first open that changes the table behind the callback's scope
      while the callback's last mark is its registration. */
  lemma CommitOwesListeners(steps: seq<Step>, db: Db, e: RuntimeEvent, s: Stamps, c: Call)
    requires Persist(db, e, s).Success? && Opened(steps) && LastRegistered(Execute(steps).history, c)
    requires
      var db' := AfterIntake(db, e, s);
      || (c.scope.Devcontainers? && db'.devcontainers != db.devcontainers)
      || (c.scope.AgentSessions? && (db'.sessions != db.sessions || db'.summaries != db.summaries))
      || (c.scope.Approvals? && db'.approvals != db.approvals)
      || (c.scope.Inbox? && db'.inbox != db.inbox)
    ensures OwingCommit(Next(Execute(steps), Commits(db, e, s)).history, |Execute(steps).history|, c)
  {
    ListeningExactly(steps, c);
    OpenedExactly(steps);
    NothingIsMissed(steps);
    CatchUpRuns(Execute(steps).page.callbacks, Execute(steps).page.scopes, c);
  }

  lemma {:induction false} HistoryGrows(steps: seq<Step>, more: seq<Step>)
    ensures Execute(steps).history <= Execute(steps + more).history
  {
    if more == [] {
      assert steps + more == steps;
    } else {
      var front := more[..|more| - 1];
      HistoryGrows(steps, front);
      assert (steps + more)[..|steps + more| - 1] == steps + front;
    }
  }

  /** End to end, whatever happens before and after: a commit that changes the table behind a scope, after
      the page's first open and while the callback is registered, has been heard by the callback since, or
      the callback was taken off, or the news is still coming. */
  lemma CommitsReachCallbacks(before: seq<Step>, db: Db, e: RuntimeEvent, s: Stamps, after: seq<Step>, c: Call)
    requires Persist(db, e, s).Success? && Opened(before) && LastRegistered(Execute(before).history, c)
    requires
      var db' := AfterIntake(db, e, s);
      || (c.scope.Devcontainers? && db'.devcontainers != db.devcontainers)
      || (c.scope.AgentSessions? && (db'.sessions != db.sessions || db'.summaries != db.summaries))
      || (c.scope.Approvals? && db'.approvals != db.approvals)
      || (c.scope.Inbox? && db'.inbox != db.inbox)
    ensures
      var st := Execute(before + [Commits(db, e, s)] + after);
      SettledSince(st.history, |Execute(before).history|, c) || Coming(st, c.scope)
  {
    var steps := before + [Commits(db, e, s)];
    assert steps[..|before|] == before;
    CommitOwesListeners(before, db, e, s, c);
    HistoryGrows(steps, after);
    assert OwingCommit(Execute(steps + after).history, |Execute(before).history|, c);
    EveryCommitIsHeard(steps + after, |Execute(before).history|, c);
  }

  /** What is on its way to a live page, in the order in which it will be delivered. */
  function OnItsWay(st: State): seq<SseEvent>
    requires st.mailbox.Some?
  {
    st.wire + st.mailbox.value + st.unpublished
  }

  lemma OneAcross<T>(front: seq<T>, a: seq<T>, b: seq<T>)
    requires b != []
    ensures front + (a + [b[0]]) + b[1..] == front + a + b && (a + [b[0]]) + b[1..] + front == a + b + front
  {
    assert b == [b[0]] + b[1..];
  }

  /** While the stream is live nothing on its way is lost, doubled or reordered: an intake appends what it
      publishes, other news is appended, a delivery takes the first. */
  lemma NewsFlowsInOrder(st: State, step: Step)
    requires st.mailbox.Some? && Next(st, step).mailbox.Some? && Enabled(st, step)
    ensures OnItsWay(Next(st, step))
            == match step
               case Commits(db, e, s) => OnItsWay(st) + Published(db, e, s)
               case Announces(news) => OnItsWay(st) + [news]
               case Delivers => OnItsWay(st)[1..]
               case _ => OnItsWay(st)
  {
    if step.PublishesOne? {
      OneAcross(st.wire, st.mailbox.value, st.unpublished);
    } else if step.Drains? {
      OneAcross(st.unpublished, st.wire, st.mailbox.value);
    }
  }

  /** The page's stream is live and nothing is on its way to it. */
  predicate CaughtUp(st: State) {
    st.unpublished == [] && st.mailbox == Some([]) && st.wire == []
  }

  /** Then no callback is owed a run. */
  lemma CaughtUpOwesNothing(steps: seq<Step>, k: nat, c: Call)
    requires CaughtUp(Execute(steps)) && OwingCommit(Execute(steps).history, k, c)
    ensures SettledSince(Execute(steps).history, k, c)
  {
    EveryCommitIsHeard(steps, k, c);
  }

  predicate MovesNewsAlong(step: Step) {
    step.PublishesOne? || step.Drains? || step.Delivers?
  }

  function Backlog(st: State): nat
    requires st.mailbox.Some?
  {
    3 * |st.unpublished| + 2 * |st.mailbox.value| + |st.wire|
  }

  /** And a live stream gets there: publishing, draining and delivering what there is leave nothing on its
      way, with every commit so far heard. */
  lemma {:induction false} LiveStreamCatchesUp(steps: seq<Step>) returns (more: seq<Step>)
    requires Execute(steps).mailbox.Some?
    ensures forall step | step in more :: MovesNewsAlong(step)
    ensures CaughtUp(Execute(steps + more))
    decreases Backlog(Execute(steps))
  {
    NothingIsMissed(steps);
    var st := Execute(steps);
    if CaughtUp(st) {
      more := [];
      assert steps + more == steps;
    } else {
      var step := if st.unpublished != [] then PublishesOne else if st.mailbox.value != [] then Drains else Delivers;
      assert (steps + [step])[..|steps|] == steps;
      assert Execute(steps + [step]) == Next(st, step);
      var rest := LiveStreamCatchesUp(steps + [step]);
      more := [step] + rest;
      assert steps + more == steps + [step] + rest;
    }
  }

  /** A page that connects gets a live stream, and one whose stream broke without being fatal gets it back,
      with every registered callback run. */
  lemma StreamComesBack(steps: seq<Step>, c: Call)
    ensures
      var st := Execute(steps);
      && (st.page.source.Absent? ==>
            var st' := Next(Next(st, PageConnects), SubscribesAndOpens);
            st'.mailbox == Some([]) && st'.page.source.Open? && st'.page.health.Connected? && st'.page.hasOpened)
      && (st.page.source.Open? ==>
            var st' := Next(Next(st, ConnectionFails(false)), SubscribesAndOpens);
            && st'.mailbox == Some([]) && st'.page.source.Open? && st'.page.health.Connected?
            && (Listening(st.page, c.scope, c.callback) ==> Ran(c) in st'.history[|st.history|..]))
  {
    NothingIsMissed(steps);
    var st := Execute(steps);
    if st.page.source.Open? {
      OpenRunsRegistered(st.page);
      MarksAreRuns(OpenCalls(st.page), c);
    }
  }

  /** What a break loses: the mailbox, and unless the stream merely ended on the server's side, what was in
      transit. The page stays open only to that. */
  lemma BreaksLoseTheMailbox(steps: seq<Step>, fatal: bool)
    requires Execute(steps).mailbox.Some?
    ensures
      var st := Execute(steps);
      var ended, failed, left := Next(st, StreamEnds), Next(st, ConnectionFails(fatal)), Next(st, PageDisconnects);
      && ended == st.(mailbox := None)
      && failed.mailbox.None? && failed.wire == []
      && failed.page.health == (if fatal then Disconnected else Reconnecting)
      && left.mailbox.None? && left.wire == [] && left.page.source.Absent? && left.page.health.Disconnected?
      && failed.history == left.history == st.history
      && failed.page.callbacks == left.page.callbacks == st.page.callbacks
  {
    NothingIsMissed(steps);
  }

  /** Why an interrupted stream is no excuse to lose anything: an open after the first one runs
      every registered callback. */
  lemma ReopeningRunsEveryCallback(steps: seq<Step>, c: Call)
    requires Execute(steps).page.hasOpened && Enabled(Execute(steps), SubscribesAndOpens)
    requires Listening(Execute(steps).page, c.scope, c.callback)
    ensures !Owed(Next(Execute(steps), SubscribesAndOpens).history, c)
  {
    NothingIsMissed(steps);
    CatchUpRuns(Execute(steps).page.callbacks, Execute(steps).page.scopes, c);
    OwedAfterRuns(Execute(steps).history, OpenCalls(Execute(steps).page), c);
  }
}
