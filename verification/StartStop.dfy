/** The composed session protocol: routes, per-devcontainer command and event queues, the agent, and
    intake, under drops that lose both queues. When at most one session per devcontainer is active:
    exactly, over every run, and always, over orderly ones. */
module StartStop {
  import opened Vocabulary
  import opened Tables
  import opened Reducer
  import opened Intake
  import opened Routes
  import opened ActiveSession
  import A = AgentHandler
  import Coherence

  /** One devcontainer's channel. `connected` is the control plane's view, `alive` the agent's: a
      dead connection that the control plane has not noticed yet swallows commands. `launched` are
      the sessions whose start or resume was handled on this connection and whose runs may still
      tell of an end. */
  datatype Channel = Channel(
    connected: bool,
    alive: bool,
    commands: seq<Command>,
    events: seq<RuntimeEvent>,
    launched: set<Id>)

  const NO_CHANNEL := Channel(false, false, [], [], {})

  /** `used` are the session ids ever generated; a UUID is never generated twice. */
  datatype System = System(db: Db, channels: map<Id, Channel>, used: set<Id>)

  const START := System(EMPTY_DB, map[], {})

  datatype Step =
    | Starts(devcontainer: Id, id: Id, prompt: string, at: Timestamp)
    | Stops(devcontainer: Id, session: Id)
    | Resumes(devcontainer: Id, session: Id, prompt: string, at: Timestamp)
    | SendsInput(devcontainer: Id, session: Id, item: Id, text: string)
    | Decides(devcontainer: Id, session: Id, approval: Id, resolution: string)
    | Connects(devcontainer: Id)
    | AgentLoses(devcontainer: Id)
    | ServerNotices(devcontainer: Id)
    | Handles(devcontainer: Id)
    | RunEnds(devcontainer: Id, session: Id, ok: bool, payload: Option<Payload>)
    | RunIsOver(devcontainer: Id, session: Id)
    | Reports(devcontainer: Id, event: RuntimeEvent)
    | Intakes(devcontainer: Id, stamps: Stamps)
    | Other(action: Action)

  function ChannelOf(sys: System, d: Id): Channel {
    if d in sys.channels then sys.channels[d] else NO_CHANNEL
  }

  /** What the agent emits on handling a command. */
  function Answers(c: Command): seq<RuntimeEvent> {
    var answer := A.AnswerTo(c);
    if answer.Some? then [answer.value] else []
  }

  /** A command that has the agent emit the started event and begin a run. */
  predicate Launches(c: Command) {
    c.kind.StartAgentSession? || c.kind.ResumeAgentSession?
  }

  /** `Reports` is any event the agent's runs may emit, `Other` anything else that changes the
      database: creates, deletes, patches, inbox routes, and events from elsewhere. */
  ghost predicate Enabled(sys: System, step: Step) {
    match step
    case Starts(_, id, _, _) => id !in sys.used
    case Stops(_, _) => true
    case Resumes(_, _, _, _) => true
    case SendsInput(_, _, _, _) => true
    case Decides(_, _, _, _) => true
    case Connects(d) => !ChannelOf(sys, d).connected
    case AgentLoses(d) => ChannelOf(sys, d).alive
    case ServerNotices(d) => ChannelOf(sys, d).connected
    case Handles(d) => ChannelOf(sys, d).alive && ChannelOf(sys, d).commands != []
    case RunEnds(d, s, _, _) => ChannelOf(sys, d).alive && s in ChannelOf(sys, d).launched
    case RunIsOver(d, s) => s in ChannelOf(sys, d).launched
    case Reports(d, _) => ChannelOf(sys, d).alive
    case Intakes(d, _) => ChannelOf(sys, d).connected && ChannelOf(sys, d).events != []
    case Other(a) => !a.Start? && !a.Resume?
  }

  function Route(sys: System, d: Id, r: Result<Outcome, RouteError>): System {
    if r.Failure? then sys
    else
      var ch := ChannelOf(sys, d);
      var sent := if r.value.sent.Some? then [r.value.sent.value] else [];
      sys.(db := r.value.db, channels := sys.channels[d := ch.(commands := ch.commands + sent)])
  }

  ghost function Effect(sys: System, step: Step): System
    requires Enabled(sys, step)
  {
    match step
    case Starts(d, id, prompt, at) =>
      Route(sys, d, StartSession(sys.db, d, ChannelOf(sys, d).connected, id, prompt, at)).(used := sys.used + {id})
    case Resumes(d, s, prompt, at) =>
      Route(sys, d, ResumeSession(sys.db, d, s, ChannelOf(sys, d).connected, prompt, at))
    case Stops(d, s) => Route(sys, d, StopSession(sys.db, d, s, ChannelOf(sys, d).connected))
    case SendsInput(d, s, item, text) =>
      Route(sys, d, SendInput(sys.db, d, s, item, text, ChannelOf(sys, d).connected))
    case Decides(d, s, approval, resolution) =>
      Route(sys, d, DecideApproval(sys.db, d, s, approval, resolution, ChannelOf(sys, d).connected))
    case Connects(d) => sys.(channels := sys.channels[d := Channel(true, true, [], [], {})])
    case AgentLoses(d) =>
      sys.(channels := sys.channels[d := ChannelOf(sys, d).(alive := false, commands := [], launched := {})])
    case ServerNotices(d) => sys.(channels := sys.channels[d := NO_CHANNEL])
    case Handles(d) =>
      var ch := ChannelOf(sys, d);
      var c := ch.commands[0];
      sys.(channels := sys.channels[d := ch.(
                         commands := ch.commands[1..],
                         events := ch.events + Answers(c),
                         launched := if Launches(c) && c.agentSessionId.Some?
                                     then ch.launched + {c.agentSessionId.value} else ch.launched)])
    case RunEnds(d, s, ok, payload) =>
      var ch := ChannelOf(sys, d);
      var e := A.AgentEvent(if ok then SessionCompleted else SessionFailed, Some(d), Some(s), payload);
      sys.(channels := sys.channels[d := ch.(events := ch.events + [e])])
    case RunIsOver(d, s) =>
      var ch := ChannelOf(sys, d);
      sys.(channels := sys.channels[d := ch.(launched := ch.launched - {s})])
    case Reports(d, e) =>
      var ch := ChannelOf(sys, d);
      sys.(channels := sys.channels[d := ch.(events := ch.events + [e])])
    case Intakes(d, stamps) =>
      var ch := ChannelOf(sys, d);
      sys.(db := AfterIntake(sys.db, ch.events[0], stamps),
           channels := sys.channels[d := ch.(events := ch.events[1..])])
    case Other(a) => sys.(db := Routes.Step(sys.db, a))
  }

  /** A step that cannot be taken changes nothing, so every sequence of steps is a run. */
  ghost function Next(sys: System, step: Step): System {
    if Enabled(sys, step) then Effect(sys, step) else sys
  }

  ghost function Execute(steps: seq<Step>): System {
    if steps == [] then START else Next(Execute(steps[..|steps| - 1]), steps[|steps| - 1])
  }

  // ---------------------------------------------------------------- what each command comes to

  /** The agent is there and nothing is on its way. */
  predicate Clear(sys: System, d: Id) {
    var ch := ChannelOf(sys, d);
    ch.connected && ch.alive && ch.commands == [] && ch.events == []
  }

  /** Once a command sent now has been handled and its answer taken in. */
  ghost function SeenThrough(sys: System, step: Step, d: Id, stamps: Stamps): System {
    Next(Next(Next(sys, step), Handles(d)), Intakes(d, stamps))
  }

  lemma ConnectingClears(sys: System, d: Id)
    requires !ChannelOf(sys, d).connected
    ensures Clear(Next(sys, Connects(d)), d)
  {
  }

  /** Once a run that is on its way to nothing more is over, its session can be resumed in good order. */
  lemma OverRunsAreQuiet(sys: System, d: Id, s: Id, prompt: string, at: Timestamp)
    requires Clear(sys, d) && s in ChannelOf(sys, d).launched
    ensures
      var sys' := Next(sys, RunIsOver(d, s));
      && Quiet(ChannelOf(sys', d), s) && Orderly(sys', Resumes(d, s, prompt, at)) && sys'.db == sys.db
      && !Quiet(ChannelOf(sys, d), s)
  {
    assert Pipeline(ChannelOf(Next(sys, RunIsOver(d, s)), d)) == [];
  }

  /** Whatever else an agent reports is taken in like an answer, and whatever else befalls the database is a
      step of it. */
  lemma ReportsComeThrough(sys: System, d: Id, e: RuntimeEvent, a: Action, stamps: Stamps)
    requires Clear(sys, d) && !a.Start? && !a.Resume?
    ensures Next(Next(sys, Reports(d, e)), Intakes(d, stamps)).db == AfterIntake(sys.db, e, stamps)
    ensures Next(sys, Other(a)) == sys.(db := Routes.Step(sys.db, a))
  {
    assert [] + [e] == [e];
    AnswerIsTakenIn(Next(sys, Reports(d, e)), d, e, stamps);
  }

  /** A drop loses what is on its way: the commands as soon as the agent is gone, the events once the
      control plane has noticed; and from then on it refuses to start anything. */
  lemma DropsLoseWhatIsOnItsWay(sys: System, d: Id, id: Id, prompt: string, at: Timestamp)
    ensures
      var cut := Next(sys, AgentLoses(d));
      ChannelOf(sys, d).alive ==>
        ChannelOf(cut, d) == ChannelOf(sys, d).(alive := false, commands := [], launched := {}) && cut.db == sys.db
    ensures
      var noticed := Next(sys, ServerNotices(d));
      ChannelOf(sys, d).connected ==>
        && ChannelOf(noticed, d).commands == [] && ChannelOf(noticed, d).events == [] && noticed.db == sys.db
        && StartSession(noticed.db, d, ChannelOf(noticed, d).connected, id, prompt, at).Failure?
  {
  }

  lemma CommandIsAnswered(sys: System, d: Id, c: Command, e: RuntimeEvent)
    requires ChannelOf(sys, d).connected && ChannelOf(sys, d).alive
    requires ChannelOf(sys, d).commands == [c] && ChannelOf(sys, d).events == [] && A.AnswerTo(c) == Some(e)
    ensures
      var sys' := Next(sys, Handles(d));
      && sys'.db == sys.db && sys'.used == sys.used
      && ChannelOf(sys', d) == ChannelOf(sys, d).(
                                 commands := [], events := [e],
                                 launched := if Launches(c) && c.agentSessionId.Some?
                                             then ChannelOf(sys, d).launched + {c.agentSessionId.value}
                                             else ChannelOf(sys, d).launched)
  {
    assert Answers(c) == [e] && [c][1..] == [] && [] + [e] == [e];
  }

  lemma AnswerIsTakenIn(sys: System, d: Id, e: RuntimeEvent, stamps: Stamps)
    requires ChannelOf(sys, d).connected && ChannelOf(sys, d).events == [e]
    ensures
      var sys' := Next(sys, Intakes(d, stamps));
      && sys'.db == AfterIntake(sys.db, e, stamps) && sys'.used == sys.used
      && ChannelOf(sys', d) == ChannelOf(sys, d).(events := [])
  {
    assert [e][1..] == [];
  }

  /** The route's command crosses the channel and comes back as its answer. */
  lemma RoundTrip(sys: System, step: Step, d: Id, r: Result<Outcome, RouteError>, stamps: Stamps, e: RuntimeEvent)
    requires Enabled(sys, step) && Clear(sys, d) && r.Success? && r.value.sent.Some?
    requires A.AnswerTo(r.value.sent.value) == Some(e)
    requires Effect(sys, step).db == r.value.db && Effect(sys, step).channels == Route(sys, d, r).channels
    ensures
      var c, sys' := r.value.sent.value, SeenThrough(sys, step, d, stamps);
      && sys'.db == AfterIntake(r.value.db, e, stamps) && sys'.used == Effect(sys, step).used && Clear(sys', d)
      && (Launches(c) && c.agentSessionId.Some? ==> c.agentSessionId.value in ChannelOf(sys', d).launched)
  {
    var c, sys1 := r.value.sent.value, Next(sys, step);
    assert [] + [c] == [c];
    assert ChannelOf(sys1, d) == ChannelOf(sys, d).(commands := [c]);
    CommandIsAnswered(sys1, d, c, e);
    AnswerIsTakenIn(Next(sys1, Handles(d)), d, e, stamps);
  }

  /** A start that is accepted on a clear channel comes up: the session is running, and its run is one that
      may end. */
  lemma StartComesUp(sys: System, d: Id, id: Id, prompt: string, at: Timestamp, stamps: Stamps)
    requires Clear(sys, d) && id !in sys.used && StartSession(sys.db, d, true, id, prompt, at).Success?
    ensures
      var sys' := SeenThrough(sys, Starts(d, id, prompt, at), d, stamps);
      && Routes.Owns(sys'.db, d, id)
      && sys'.db.sessions[id].status.Running? && sys'.db.sessions[id].prompt == Some(prompt)
      && id in ChannelOf(sys', d).launched && id in sys'.used
  {
    var r := StartSession(sys.db, d, true, id, prompt, at);
    var e := A.AgentEvent(AgentSessionStarted, Some(d), Some(id), None);
    RoundTrip(sys, Starts(d, id, prompt, at), d, r, stamps, e);
    IntakeSessions(r.value.db, e, stamps);
  }

  lemma ResumeComesUp(sys: System, d: Id, s: Id, prompt: string, at: Timestamp, stamps: Stamps)
    requires Clear(sys, d) && ResumeSession(sys.db, d, s, true, prompt, at).Success?
    ensures
      var sys' := SeenThrough(sys, Resumes(d, s, prompt, at), d, stamps);
      && Routes.Owns(sys'.db, d, s) && sys'.db.sessions[s].status.Running?
      && s in ChannelOf(sys', d).launched
  {
    var r := ResumeSession(sys.db, d, s, true, prompt, at);
    var e := A.AgentEvent(AgentSessionStarted, Some(d), Some(s), None);
    RoundTrip(sys, Resumes(d, s, prompt, at), d, r, stamps, e);
    IntakeSessions(r.value.db, e, stamps);
  }

  /** A stop brings the session down. */
  lemma StopComesDown(sys: System, d: Id, s: Id, stamps: Stamps)
    requires Clear(sys, d) && StopSession(sys.db, d, s, true).Success?
    ensures
      var sys' := SeenThrough(sys, Stops(d, s), d, stamps);
      Routes.Owns(sys'.db, d, s) && sys'.db.sessions[s].status.Stopped?
  {
    var r := StopSession(sys.db, d, s, true);
    var e := A.AgentEvent(SessionStopped, Some(d), Some(s), None);
    RoundTrip(sys, Stops(d, s), d, r, stamps, e);
    IntakeSessions(r.value.db, e, stamps);
  }

  /** An input closes its item, a decision its approval. */
  lemma InputComesThrough(sys: System, d: Id, s: Id, item: Id, text: string, stamps: Stamps)
    requires Clear(sys, d) && SendInput(sys.db, d, s, item, text, true).Success?
    ensures
      var sys' := SeenThrough(sys, SendsInput(d, s, item, text), d, stamps);
      && item in sys'.db.inbox && sys'.db.inbox[item].status.Resolved?
      && SendInput(sys'.db, d, s, item, text, true).Failure?
  {
    var r := SendInput(sys.db, d, s, item, text, true);
    var e := A.AgentEvent(UserInputSent, Some(d), Some(s), Some(Payload(inboxEventId := Some(item))));
    RoundTrip(sys, SendsInput(d, s, item, text), d, r, stamps, e);
    assert PayloadOf(Recorded(e, stamps)).inboxEventId == Some(item);
  }

  lemma DecisionComesThrough(sys: System, d: Id, s: Id, approval: Id, approved: bool, stamps: Stamps)
    requires var resolution := if approved then "approved" else "rejected";
             Clear(sys, d) && DecideApproval(sys.db, d, s, approval, resolution, true).Success?
    ensures
      var sys' := SeenThrough(sys, Decides(d, s, approval, if approved then "approved" else "rejected"), d, stamps);
      && approval in sys'.db.approvals
      && sys'.db.approvals[approval].status == (if approved then Approved else Rejected)
      && s in sys'.db.sessions && sys'.db.sessions[s].status.Running?
  {
    var resolution := if approved then "approved" else "rejected";
    var r := DecideApproval(sys.db, d, s, approval, resolution, true);
    var given := Payload(approvalRequestId := Some(approval), resolution := Some(resolution));
    var e := A.AgentEvent(ApprovalResolved, Some(d), Some(s), Some(given));
    RoundTrip(sys, Decides(d, s, approval, resolution), d, r, stamps, e);
    assert PayloadOf(Recorded(e, stamps)) == given;
    IntakeSessions(r.value.db, e, stamps);
  }

  lemma EndSettles(db: Db, d: Id, s: Id, ok: bool, payload: Option<Payload>, stamps: Stamps)
    requires d in db.devcontainers && s in db.sessions
    ensures
      var e := A.AgentEvent(if ok then SessionCompleted else SessionFailed, Some(d), Some(s), payload);
      var db' := AfterIntake(db, e, stamps);
      && s in db'.sessions && db'.sessions[s].status == (if ok then Completed else Failed) && s in db'.summaries
  {
    var e := A.AgentEvent(if ok then SessionCompleted else SessionFailed, Some(d), Some(s), payload);
    IntakeSessions(db, e, stamps);
    assert Reduce(Recorded(e, stamps)).Success?;
  }

  /** A launched run that ends puts its session to rest. */
  lemma EndComesThrough(sys: System, d: Id, s: Id, ok: bool, payload: Option<Payload>, stamps: Stamps)
    requires Clear(sys, d) && s in ChannelOf(sys, d).launched && d in sys.db.devcontainers && s in sys.db.sessions
    ensures
      var sys' := Next(Next(sys, RunEnds(d, s, ok, payload)), Intakes(d, stamps));
      && s in sys'.db.sessions && sys'.db.sessions[s].status == (if ok then Completed else Failed)
      && s in sys'.db.summaries && Clear(sys', d)
  {
    var e := A.AgentEvent(if ok then SessionCompleted else SessionFailed, Some(d), Some(s), payload);
    assert [] + [e] == [e];
    AnswerIsTakenIn(Next(sys, RunEnds(d, s, ok, payload)), d, e, stamps);
    EndSettles(sys.db, d, s, ok, payload, stamps);
  }

  // ---------------------------------------------------------------- exactly when the rule holds

  /** What a step does to the database, as a route call or intake. */
  function ActionOf(sys: System, step: Step): Option<Action> {
    match step
    case Starts(d, id, prompt, at) => Some(Start(d, ChannelOf(sys, d).connected, id, prompt, at))
    case Resumes(d, s, prompt, at) => Some(Resume(d, s, ChannelOf(sys, d).connected, prompt, at))
    case Intakes(d, stamps) =>
      var ch := ChannelOf(sys, d);
      if ch.events != [] then Some(Receive(ch.events[0], stamps)) else None
    case Other(a) => Some(a)
    case _ => None
  }

  lemma EffectIsAStep(sys: System, step: Step)
    requires Enabled(sys, step)
    ensures Effect(sys, step).db
            == if ActionOf(sys, step).Some? then Routes.Step(sys.db, ActionOf(sys, step).value) else sys.db
  {
  }

  ghost predicate KeysOk(sys: System) {
    ForeignKeys(sys.db) && sys.db.sessions.Keys <= sys.used
  }

  lemma {:induction false} ReachableKeysOk(steps: seq<Step>)
    ensures KeysOk(Execute(steps))
  {
    if steps != [] {
      var sys, step := Execute(steps[..|steps| - 1]), steps[|steps| - 1];
      ReachableKeysOk(steps[..|steps| - 1]);
      if Enabled(sys, step) {
        EffectIsAStep(sys, step);
        if ActionOf(sys, step).Some? {
          Coherence.StepKeepsForeignKeys(sys.db, ActionOf(sys, step).value);
          NewSessionsAreStarted(sys.db, ActionOf(sys, step).value);
        }
      }
    }
  }

  lemma NewSessionsAreStarted(db: Db, a: Action)
    ensures Routes.Step(db, a).sessions.Keys <= db.sessions.Keys + if a.Start? then {a.id} else {}
  {
  }

  ghost predicate RuleThroughout(steps: seq<Step>) {
    AtMostOneActive(Execute(steps).db.sessions) && (steps != [] ==> RuleThroughout(steps[..|steps| - 1]))
  }

  /** No step takes in an event that wakes a resting session beside an active one. */
  ghost predicate NeverBreaksIt(steps: seq<Step>) {
    steps != [] ==>
      var sys, step := Execute(steps[..|steps| - 1]), steps[|steps| - 1];
      && NeverBreaksIt(steps[..|steps| - 1])
      && (Enabled(sys, step) && ActionOf(sys, step).Some? ==> !BreaksRule(sys.db, ActionOf(sys, step).value))
  }

  /** Over every run of the composed system, resumes and approvals included: at every moment at most one
      active session per devcontainer, exactly if no such event is taken in. */
  lemma {:induction false} RuleThroughoutExactly(steps: seq<Step>)
    ensures RuleThroughout(steps) <==> NeverBreaksIt(steps)
  {
    if steps != [] {
      var front, step := steps[..|steps| - 1], steps[|steps| - 1];
      var sys := Execute(front);
      RuleThroughoutExactly(front);
      ReachableKeysOk(front);
      if RuleThroughout(front) {
        assert AtMostOneActive(sys.db.sessions);
        if Enabled(sys, step) {
          EffectIsAStep(sys, step);
          if ActionOf(sys, step).Some? {
            StepBreaksRuleExactly(sys.db, ActionOf(sys, step).value);
          }
        }
      }
    }
  }

  // ---------------------------------------------------------------- orderly runs

  /** Deletes, patches, inbox routes, and events that set no session's status. */
  predicate SparesStatuses(a: Action) {
    a.Receive? ==> a.event.agentSessionId.None? || NewStatus(a.event).None?
  }

  /** A resume finds its channel quiet about the session and its run over; there are no approvals. */
  ghost predicate Orderly(sys: System, step: Step) {
    match step
    case Resumes(d, s, _, _) => Quiet(ChannelOf(sys, d), s)
    case Decides(_, _, _, _) => false
    case Reports(d, e) =>
      e.eventType.AgentAskedQuestion? && e.agentSessionId.Some? && e.agentSessionId.value in ChannelOf(sys, d).launched
    case Other(a) => SparesStatuses(a)
    case _ => true
  }

  ghost predicate OrderlyRun(steps: seq<Step>) {
    steps != [] ==>
      OrderlyRun(steps[..|steps| - 1]) && Orderly(Execute(steps[..|steps| - 1]), steps[|steps| - 1])
  }

  // ---------------------------------------------------------------- the pipeline of a channel

  /** A start on its way, as a command or as the event it became, or anything else about a session. */
  datatype Token = Token(session: Id, launch: bool)

  function CommandToken(c: Command): Token {
    Token(if c.agentSessionId.Some? then c.agentSessionId.value else "", Launches(c))
  }

  function EventToken(e: RuntimeEvent): Token {
    Token(if e.agentSessionId.Some? then e.agentSessionId.value else "", e.eventType.AgentSessionStarted?)
  }

  function CommandTokens(commands: seq<Command>): seq<Token> {
    seq(|commands|, i requires 0 <= i < |commands| => CommandToken(commands[i]))
  }

  function EventTokens(events: seq<RuntimeEvent>): seq<Token> {
    seq(|events|, i requires 0 <= i < |events| => EventToken(events[i]))
  }

  /** Events arrive before the commands behind them are handled; handling moves a token across. */
  function Pipeline(ch: Channel): seq<Token> {
    EventTokens(ch.events) + CommandTokens(ch.commands)
  }

  /** Nothing about the session is on its way, and no run of it may still tell of an end. */
  ghost predicate Quiet(ch: Channel, session: Id) {
    session !in ch.launched && forall t | t in Pipeline(ch) :: t.session != session
  }

  predicate SentByProtocol(c: Command) {
    c.agentSessionId.Some? && (Launches(c) || c.kind.StopAgentSession? || c.kind.SendUserInput?)
  }

  predicate EmittedByProtocol(e: RuntimeEvent) {
    e.agentSessionId.Some? &&
    (e.eventType.AgentSessionStarted? || e.eventType.SessionCompleted? || e.eventType.SessionFailed?
     || e.eventType.SessionStopped? || e.eventType.UserInputSent? || e.eventType.AgentAskedQuestion?)
  }

  predicate BelongsTo(sys: System, d: Id, session: Id) {
    && session in sys.used
    && (session in sys.db.sessions ==> sys.db.sessions[session].devcontainerId == d)
  }

  predicate StillStarting(db: Db, session: Id) {
    session in db.sessions ==> db.sessions[session].status.Starting?
  }

  /** A launch on its way comes before anything else about its session, is the only one, and finds
      the session (if not deleted) still starting. */
  ghost predicate LaunchesFirst(db: Db, tokens: seq<Token>) {
    forall i | 0 <= i < |tokens| && tokens[i].launch ::
      && StillStarting(db, tokens[i].session)
      && (forall j | 0 <= j < |tokens| && j != i ::
            tokens[j].session == tokens[i].session ==> j > i && !tokens[j].launch)
  }

  ghost predicate ChannelOk(sys: System, d: Id, ch: Channel) {
    && (forall c | c in ch.commands :: SentByProtocol(c))
    && (forall e | e in ch.events :: EmittedByProtocol(e))
    && (forall t | t in Pipeline(ch) :: BelongsTo(sys, d, t.session))
    && (forall s | s in ch.launched :: BelongsTo(sys, d, s) && Token(s, true) !in CommandTokens(ch.commands))
    && LaunchesFirst(sys.db, Pipeline(ch))
  }

  ghost predicate Inv(sys: System) {
    && AtMostOneActive(sys.db.sessions)
    && sys.db.sessions.Keys <= sys.used
    && (forall d | d in sys.channels :: ChannelOk(sys, d, sys.channels[d]))
  }

  lemma AppendToken(db: Db, tokens: seq<Token>, t: Token)
    requires LaunchesFirst(db, tokens)
    requires t.launch ==> StillStarting(db, t.session) && forall u | u in tokens :: u.session != t.session
    ensures LaunchesFirst(db, tokens + [t])
  {
  }

  lemma InsertToken(db: Db, before: seq<Token>, after: seq<Token>, t: Token)
    requires LaunchesFirst(db, before + after) && !t.launch
    requires Token(t.session, true) !in after
    ensures LaunchesFirst(db, before + [t] + after)
  {
    var tokens, longer := before + after, before + [t] + after;
    var n := |before|;
    assert forall k | 0 <= k < |longer| && k != n :: longer[k] == tokens[if k < n then k else k - 1];
    forall i | 0 <= i < |longer| && longer[i].launch
      ensures StillStarting(db, longer[i].session)
      ensures forall j | 0 <= j < |longer| && j != i ::
                longer[j].session == longer[i].session ==> j > i && !longer[j].launch
    {
      var i' := if i < n then i else i - 1;
      assert tokens[i'] == longer[i];
      if i > n {
        assert longer[i] == after[i - n - 1];
        assert longer[i].session != t.session;
      }
      forall j | 0 <= j < |longer| && j != i && longer[j].session == longer[i].session
        ensures j > i && !longer[j].launch
      {
        if j != n {
          assert tokens[if j < n then j else j - 1] == longer[j];
        }
      }
    }
  }

  lemma DropFirstToken(db: Db, db': Db, tokens: seq<Token>)
    requires LaunchesFirst(db, tokens) && tokens != []
    requires forall s | s != tokens[0].session && StillStarting(db, s) :: StillStarting(db', s)
    ensures LaunchesFirst(db', tokens[1..])
  {
    var rest := tokens[1..];
    forall i | 0 <= i < |rest| && rest[i].launch
      ensures StillStarting(db', rest[i].session)
      ensures forall j | 0 <= j < |rest| && j != i :: rest[j].session == rest[i].session ==> j > i && !rest[j].launch
    {
      assert rest[i] == tokens[i + 1];
      assert forall j | 0 <= j < |rest| :: rest[j] == tokens[j + 1];
    }
  }

  // ---------------------------------------------------------------- one channel, one change

  /** What a change of database may do without disturbing a channel. */
  ghost predicate Undisturbed(sys: System, sys': System, d: Id) {
    && sys.used <= sys'.used
    && (forall s | s in sys.used && s in sys'.db.sessions ::
          && s in sys.db.sessions
          && sys'.db.sessions[s].devcontainerId == sys.db.sessions[s].devcontainerId
          && (sys.db.sessions[s].devcontainerId == d && sys.db.sessions[s].status.Starting? ==>
                sys'.db.sessions[s].status.Starting?))
  }

  lemma ChannelStaysOk(sys: System, sys': System, d: Id, ch: Channel)
    requires ChannelOk(sys, d, ch) && Undisturbed(sys, sys', d)
    ensures ChannelOk(sys', d, ch)
  {
    var tokens := Pipeline(ch);
    forall i | 0 <= i < |tokens| && tokens[i].launch ensures StillStarting(sys'.db, tokens[i].session) {
      assert tokens[i] in tokens;
      assert BelongsTo(sys, d, tokens[i].session);
    }
    forall t | t in tokens ensures BelongsTo(sys', d, t.session) {
      assert BelongsTo(sys, d, t.session);
    }
    forall s | s in ch.launched ensures BelongsTo(sys', d, s) {
      assert BelongsTo(sys, d, s);
    }
  }

  lemma SendKeepsOk(sys: System, d: Id, ch: Channel, c: Command)
    requires ChannelOk(sys, d, ch) && SentByProtocol(c) && BelongsTo(sys, d, c.agentSessionId.value)
    requires Launches(c) ==>
               && StillStarting(sys.db, c.agentSessionId.value)
               && c.agentSessionId.value !in ch.launched
               && forall t | t in Pipeline(ch) :: t.session != c.agentSessionId.value
    ensures ChannelOk(sys, d, ch.(commands := ch.commands + [c]))
  {
    var ch' := ch.(commands := ch.commands + [c]);
    assert CommandTokens(ch'.commands) == CommandTokens(ch.commands) + [CommandToken(c)];
    assert Pipeline(ch') == Pipeline(ch) + [CommandToken(c)];
    AppendToken(sys.db, Pipeline(ch), CommandToken(c));
  }

  lemma HandleKeepsOk(sys: System, d: Id, ch: Channel, ch': Channel)
    requires ChannelOk(sys, d, ch) && ch.commands != []
    requires var c := ch.commands[0];
             ch' == ch.(commands := ch.commands[1..], events := ch.events + Answers(c),
                        launched := if Launches(c) && c.agentSessionId.Some?
                                    then ch.launched + {c.agentSessionId.value} else ch.launched)
    ensures ChannelOk(sys, d, ch')
  {
    var c := ch.commands[0];
    assert SentByProtocol(c);
    var tokens := CommandTokens(ch.commands);
    assert tokens == [tokens[0]] + CommandTokens(ch'.commands);
    assert EventTokens(ch'.events) == EventTokens(ch.events) + [tokens[0]];
    assert Pipeline(ch') == Pipeline(ch);
    var n := |ch.events|;
    assert Pipeline(ch)[n] == tokens[0];
    if Launches(c) {
      assert tokens[0] in Pipeline(ch);
      forall k | 0 <= k < |ch'.commands| ensures CommandTokens(ch'.commands)[k] != Token(c.agentSessionId.value, true) {
        assert Pipeline(ch)[n + 1 + k] == CommandTokens(ch'.commands)[k];
      }
    }
    forall s | s in ch'.launched ensures BelongsTo(sys, d, s) && Token(s, true) !in CommandTokens(ch'.commands) {
      if s in ch.launched {
        assert Token(s, true) !in tokens;
      }
    }
  }

  lemma EndKeepsOk(sys: System, d: Id, ch: Channel, s: Id, e: RuntimeEvent)
    requires ChannelOk(sys, d, ch) && s in ch.launched
    requires EmittedByProtocol(e) && e.agentSessionId == Some(s) && !e.eventType.AgentSessionStarted?
    ensures ChannelOk(sys, d, ch.(events := ch.events + [e]))
  {
    var ch' := ch.(events := ch.events + [e]);
    assert EventTokens(ch'.events) == EventTokens(ch.events) + [Token(s, false)];
    InsertToken(sys.db, EventTokens(ch.events), CommandTokens(ch.commands), Token(s, false));
  }

  lemma CutKeepsOk(sys: System, d: Id, ch: Channel)
    requires ChannelOk(sys, d, ch)
    ensures ChannelOk(sys, d, ch.(alive := false, commands := [], launched := {}))
  {
    var ch' := ch.(alive := false, commands := [], launched := {});
    var n := |ch.events|;
    assert Pipeline(ch') == Pipeline(ch)[..n];
    assert forall t | t in Pipeline(ch') :: t in Pipeline(ch);
  }

  lemma ReceiveKeepsOk(sys: System, sys': System, d: Id, ch: Channel)
    requires ChannelOk(sys, d, ch) && ch.events != [] && sys'.used == sys.used
    requires EmittedByProtocol(ch.events[0])
    requires forall s | s in sys'.db.sessions ::
               && s in sys.db.sessions
               && sys'.db.sessions[s].devcontainerId == sys.db.sessions[s].devcontainerId
               && (s != ch.events[0].agentSessionId.value ==> sys'.db.sessions[s].status == sys.db.sessions[s].status)
    ensures ChannelOk(sys', d, ch.(events := ch.events[1..]))
  {
    var ch' := ch.(events := ch.events[1..]);
    var tokens := EventTokens(ch.events);
    assert tokens == [tokens[0]] + EventTokens(ch'.events);
    assert Pipeline(ch') == Pipeline(ch)[1..];
    assert Pipeline(ch)[0] == tokens[0];
    DropFirstToken(sys.db, sys'.db, Pipeline(ch));
    forall t | t in Pipeline(ch') ensures BelongsTo(sys', d, t.session) {
      assert t in Pipeline(ch);
      assert BelongsTo(sys, d, t.session);
    }
    forall s | s in ch'.launched ensures BelongsTo(sys', d, s) {
      assert BelongsTo(sys, d, s);
    }
  }

  // ---------------------------------------------------------------- every step

  lemma EmptyChannelIsOk(sys: System, d: Id, ch: Channel)
    requires ch.commands == [] && ch.events == [] && ch.launched == {}
    ensures ChannelOk(sys, d, ch)
  {
    assert Pipeline(ch) == [];
  }

  lemma StartsKeepsInv(sys: System, d: Id, id: Id, prompt: string, at: Timestamp)
    requires Inv(sys) && id !in sys.used
    ensures Inv(Effect(sys, Starts(d, id, prompt, at)))
  {
    var sys' := Effect(sys, Starts(d, id, prompt, at));
    var r := StartSession(sys.db, d, ChannelOf(sys, d).connected, id, prompt, at);
    StartKeepsRule(sys.db, d, ChannelOf(sys, d).connected, id, prompt, at);
    forall x | x in sys'.channels ensures ChannelOk(sys', x, sys'.channels[x]) {
      if x in sys.channels {
        ChannelStaysOk(sys, sys', x, sys.channels[x]);
      }
      if x == d && r.Success? {
        var ch := ChannelOf(sys, d);
        if d !in sys.channels {
          EmptyChannelIsOk(sys, d, ch);
          EmptyChannelIsOk(sys', d, ch);
        }
        forall t | t in Pipeline(ch) ensures t.session != id {
          assert BelongsTo(sys, d, t.session);
        }
        SendKeepsOk(sys', d, ch, r.value.sent.value);
      }
    }
  }

  /** A quiet session's resume is a launch like a start's. */
  lemma ResumesKeepsInv(sys: System, d: Id, s: Id, prompt: string, at: Timestamp)
    requires Inv(sys) && Quiet(ChannelOf(sys, d), s)
    ensures Inv(Effect(sys, Resumes(d, s, prompt, at)))
  {
    var sys' := Effect(sys, Resumes(d, s, prompt, at));
    var ch := ChannelOf(sys, d);
    var r := ResumeSession(sys.db, d, s, ch.connected, prompt, at);
    ResumeKeepsRule(sys.db, d, s, ch.connected, prompt, at);
    forall x | x in sys'.channels ensures ChannelOk(sys', x, sys'.channels[x]) {
      if x in sys.channels {
        ChannelStaysOk(sys, sys', x, sys.channels[x]);
      }
      if x == d && r.Success? {
        if d !in sys.channels {
          EmptyChannelIsOk(sys', d, ch);
        }
        SendKeepsOk(sys', d, ch, r.value.sent.value);
      }
    }
  }

  /** A route that only sends a command about one of the devcontainer's sessions, and no launch. */
  lemma SendingKeepsInv(sys: System, d: Id, r: Result<Outcome, RouteError>)
    requires Inv(sys)
    requires r.Success? ==>
               && r.value.db == sys.db && r.value.sent.Some? && SentByProtocol(r.value.sent.value)
               && !Launches(r.value.sent.value) && Routes.Owns(sys.db, d, r.value.sent.value.agentSessionId.value)
    ensures Inv(Route(sys, d, r))
  {
    var sys' := Route(sys, d, r);
    forall x | x in sys'.channels ensures ChannelOk(sys', x, sys'.channels[x]) {
      if x in sys.channels {
        ChannelStaysOk(sys, sys', x, sys.channels[x]);
      }
      if x == d && r.Success? {
        if d !in sys.channels {
          EmptyChannelIsOk(sys', d, ChannelOf(sys, d));
        }
        SendKeepsOk(sys', d, ChannelOf(sys, d), r.value.sent.value);
      }
    }
  }

  /** What the protocol's events find: no session at rest is woken. */
  lemma FirstEventWakesNone(sys: System, d: Id, ch: Channel)
    requires ChannelOk(sys, d, ch) && ch.events != []
    ensures EmittedByProtocol(ch.events[0]) && !WakesResting(sys.db, ch.events[0])
  {
    var e := ch.events[0];
    assert EmittedByProtocol(e);
    assert Pipeline(ch)[0] == EventToken(e);
    if e.eventType.AgentSessionStarted? {
      assert Pipeline(ch)[0].launch && StillStarting(sys.db, e.agentSessionId.value);
    } else {
      assert NewStatus(e).Some? ==> Resting(NewStatus(e).value);
    }
  }

  /** An intake of the protocol's event touches the session it names alone, which is d's. */
  lemma FirstEventStaysHome(sys: System, d: Id, ch: Channel, stamps: Stamps)
    requires ChannelOk(sys, d, ch) && ch.events != []
    ensures
      var e, after := ch.events[0], AfterIntake(sys.db, ch.events[0], stamps).sessions;
      && e.agentSessionId.Some? && after.Keys == sys.db.sessions.Keys
      && (forall s | s in after ::
            && after[s].devcontainerId == sys.db.sessions[s].devcontainerId
            && (s != e.agentSessionId.value ==> after[s] == sys.db.sessions[s])
            && (s == e.agentSessionId.value ==> after[s].devcontainerId == d))
  {
    var e := ch.events[0];
    assert EmittedByProtocol(e);
    assert Pipeline(ch)[0] == EventToken(e);
    assert EventToken(e) in Pipeline(ch);
    assert BelongsTo(sys, d, e.agentSessionId.value);
    IntakeSessions(sys.db, e, stamps);
  }

  lemma IntakesKeepsInv(sys: System, d: Id, stamps: Stamps)
    requires Inv(sys) && Enabled(sys, Intakes(d, stamps))
    ensures Inv(Effect(sys, Intakes(d, stamps)))
  {
    var sys' := Effect(sys, Intakes(d, stamps));
    var ch := ChannelOf(sys, d);
    FirstEventWakesNone(sys, d, ch);
    FirstEventStaysHome(sys, d, ch, stamps);
    if Persist(sys.db, ch.events[0], stamps).Success? {
      IntakeBreaksRuleExactly(sys.db, ch.events[0], stamps);
    }
    forall x | x in sys'.channels ensures ChannelOk(sys', x, sys'.channels[x]) {
      if x == d {
        ReceiveKeepsOk(sys, sys', d, ch);
      } else {
        ChannelStaysOk(sys, sys', x, sys.channels[x]);
      }
    }
  }

  lemma OtherKeepsInv(sys: System, a: Action)
    requires Inv(sys) && Enabled(sys, Other(a)) && SparesStatuses(a)
    ensures Inv(Effect(sys, Other(a)))
  {
    var sys' := Effect(sys, Other(a));
    if a.Receive? {
      IntakeSessions(sys.db, a.event, a.stamps);
    }
    assert forall s | s in sys'.db.sessions :: s in sys.db.sessions && sys'.db.sessions[s] == sys.db.sessions[s];
    forall x | x in sys'.channels ensures ChannelOk(sys', x, sys'.channels[x]) {
      ChannelStaysOk(sys, sys', x, sys.channels[x]);
    }
  }

  lemma QueueStepKeepsInv(sys: System, step: Step)
    requires Inv(sys) && Enabled(sys, step) && Orderly(sys, step)
    requires step.Connects? || step.AgentLoses? || step.ServerNotices? || step.Handles? || step.RunEnds?
             || step.RunIsOver? || step.Reports?
    ensures Inv(Effect(sys, step))
  {
    var sys' := Effect(sys, step);
    var d := step.devcontainer;
    var ch := ChannelOf(sys, d);
    forall x | x in sys'.channels ensures ChannelOk(sys', x, sys'.channels[x]) {
      if x != d {
        ChannelStaysOk(sys, sys', x, sys.channels[x]);
      } else {
        match step
        case Connects(_) => EmptyChannelIsOk(sys', d, sys'.channels[d]);
        case ServerNotices(_) => EmptyChannelIsOk(sys', d, sys'.channels[d]);
        case AgentLoses(_) =>
          ChannelStaysOk(sys, sys', d, ch);
          CutKeepsOk(sys', d, ch);
        case RunIsOver(_, _) => ChannelStaysOk(sys, sys', d, ch);
        case Handles(_) =>
          ChannelStaysOk(sys, sys', d, ch);
          HandleKeepsOk(sys', d, ch, sys'.channels[d]);
        case Reports(_, e) =>
          ChannelStaysOk(sys, sys', d, ch);
          EndKeepsOk(sys', d, ch, e.agentSessionId.value, e);
        case RunEnds(_, s, ok, payload) =>
          ChannelStaysOk(sys, sys', d, ch);
          EndKeepsOk(sys', d, ch, s, sys'.channels[d].events[|ch.events|]);
      }
    }
  }

  /** Over every orderly run of the composed system no devcontainer ever has two active sessions. */
  lemma {:induction false} AtMostOneActiveSession(steps: seq<Step>)
    requires OrderlyRun(steps)
    ensures AtMostOneActive(Execute(steps).db.sessions)
    ensures Inv(Execute(steps))
  {
    if steps != [] {
      var sys, step := Execute(steps[..|steps| - 1]), steps[|steps| - 1];
      AtMostOneActiveSession(steps[..|steps| - 1]);
      if Enabled(sys, step) {
        match step
        case Starts(d, id, prompt, at) => StartsKeepsInv(sys, d, id, prompt, at);
        case Stops(d, s) => SendingKeepsInv(sys, d, StopSession(sys.db, d, s, ChannelOf(sys, d).connected));
        case Resumes(d, s, prompt, at) => ResumesKeepsInv(sys, d, s, prompt, at);
        case SendsInput(d, s, item, text) =>
          SendingKeepsInv(sys, d, SendInput(sys.db, d, s, item, text, ChannelOf(sys, d).connected));
        case Intakes(d, stamps) => IntakesKeepsInv(sys, d, stamps);
        case Other(a) => OtherKeepsInv(sys, a);
        case _ => QueueStepKeepsInv(sys, step);
      }
    }
  }
}
