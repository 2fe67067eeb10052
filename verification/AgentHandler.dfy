/** The devcontainer agent's command handler: agent runs under start, stop and cancellation.
    One step is the code between two awaits; commands are handled one at a time, runs are not. */
module AgentHandler {
  import opened Vocabulary

  type RunId = nat

  /** The handler's three dictionaries. A run stands for both its process and its task. */
  datatype Entries = Entries(processes: map<Id, RunId>, sessionTasks: map<Id, RunId>, tasks: set<RunId>)

  const NO_ENTRIES := Entries(map[], map[], {})

  function Spawned(t: Entries, session: Id, run: RunId): Entries {
    Entries(t.processes[session := run], t.sessionTasks[session := run], t.tasks + {run})
  }

  function ProcessForgotten(t: Entries, session: Id): Entries {
    t.(processes := t.processes - {session})
  }

  /** The done callbacks: whatever task is then filed under the session is unfiled. */
  function CalledBack(t: Entries, session: Id, run: RunId): Entries {
    t.(tasks := t.tasks - {run}, sessionTasks := t.sessionTasks - {session})
  }

  function TakenByStop(t: Entries, session: Id): Entries {
    t.(processes := t.processes - {session}, sessionTasks := t.sessionTasks - {session})
  }

  function AgentEvent(kind: EventType, d: Option<Id>, session: Option<Id>, payload: Option<Payload>): RuntimeEvent {
    RuntimeEvent("", d, session, kind, DevcontainerRuntimeAgent, payload, "")
  }

  /** The event the handler itself emits for a command, if it supports it. How a run ends is told
      by the run's own task. */
  function AnswerTo(c: Command): Option<RuntimeEvent> {
    var given := if c.payload.Some? then c.payload.value else CommandPayload();
    match c.kind
    case StartAgentSession => Some(AgentEvent(AgentSessionStarted, c.devcontainerId, c.agentSessionId, None))
    case ResumeAgentSession => Some(AgentEvent(AgentSessionStarted, c.devcontainerId, c.agentSessionId, None))
    case StopAgentSession => Some(AgentEvent(SessionStopped, c.devcontainerId, c.agentSessionId, None))
    case SendUserInput =>
      Some(AgentEvent(UserInputSent, c.devcontainerId, c.agentSessionId,
                      Some(Payload(inboxEventId := given.inboxEventId))))
    case ResolveApproval =>
      Some(AgentEvent(ApprovalResolved, c.devcontainerId, c.agentSessionId,
                      Some(Payload(approvalRequestId := given.approvalRequestId, resolution := given.resolution))))
    case _ => None
  }

  /** What waiting for the agent's process gives. */
  datatype ClaudeOutcome = ClaudeResult(text: string) | ClaudeFailure(stderrTail: string)

  /** The event with which a run tells of its end. */
  function EndEvent(d: Option<Id>, session: Option<Id>, outcome: ClaudeOutcome): RuntimeEvent {
    match outcome
    case ClaudeResult(text) => AgentEvent(SessionCompleted, d, session, Some(Payload(result := Some(text))))
    case ClaudeFailure(tail) => AgentEvent(SessionFailed, d, session, Some(Payload(stderrTail := Some(tail))))
  }

  // ---------------------------------------------------------------- schedules

  /** How a run can end: by its own terminal event, by a stop's cancellation, by a wait for the
      process that raised, or by an emission of its terminal event that raised. */
  datatype End = Natural(ok: bool) | Killed | Crashed | Unsent(ok: bool)

  datatype Phase = Waiting | Cancelling | Emitting(ok: bool) | Finished(end: End, calledBack: bool)

  datatype Run = Run(session: Id, phase: Phase)

  /** What the handler coroutine is suspended in. `stop` indexes the stop commands handled so far. */
  datatype Busy =
    | Idle
    | Starting(session: Id)
    | AwaitingTask(session: Id, run: RunId, stop: nat)
    | Terminating(session: Id, stop: nat)
    | EmittingStop(session: Id, stop: nat)

  datatype Emission = Started(run: RunId) | Ended(run: RunId, ok: bool) | StopDone(session: Id, stop: nat)

  /** `stopped` has the session of every stop begun, `abandoned` the stops that the handler left
      without emitting; `killedBy` the stop that cancelled a run. */
  datatype State = State(
    entries: Entries,
    runs: map<RunId, Run>,
    busy: Busy,
    stopped: seq<Id>,
    killedBy: map<RunId, nat>,
    abandoned: set<nat>,
    emitted: seq<Emission>)

  const START := State(NO_ENTRIES, map[], Idle, [], map[], {}, [])

  function StopInHand(st: State): Option<nat> {
    match st.busy
    case AwaitingTask(_, _, stop) => Some(stop)
    case Terminating(_, stop) => Some(stop)
    case EmittingStop(_, stop) => Some(stop)
    case _ => None
  }

  /** `HandlerLeaves` is an emission or termination that raises, or the connection's end cancelling
      the handler there. Waiting for a task, a stop swallows that cancellation. */
  datatype Step =
    | BeginStart(session: Id)
    | FinishStart(run: RunId)
    | WaitReturns(run: RunId, ok: bool)
    | WaitRaises(run: RunId)
    | EmitsEnd(run: RunId)
    | EmitRaises(run: RunId)
    | CallsBack(run: RunId)
    | BeginStop(session: Id)
    | CancelTakes(run: RunId)
    | StopResumes
    | Terminated
    | StopEmits
    | HandlerLeaves

  predicate InPhase(st: State, run: RunId, phase: Phase) {
    run in st.runs && st.runs[run].phase == phase
  }

  predicate Enabled(st: State, step: Step) {
    match step
    case BeginStart(_) => st.busy.Idle?
    case FinishStart(run) => st.busy.Starting? && run !in st.runs
    case WaitReturns(run, _) => InPhase(st, run, Waiting)
    case WaitRaises(run) => InPhase(st, run, Waiting)
    case EmitsEnd(run) => run in st.runs && st.runs[run].phase.Emitting?
    case EmitRaises(run) => run in st.runs && st.runs[run].phase.Emitting?
    case CallsBack(run) => run in st.runs && st.runs[run].phase.Finished? && !st.runs[run].phase.calledBack
    case BeginStop(_) => st.busy.Idle?
    case CancelTakes(run) => InPhase(st, run, Cancelling)
    case StopResumes => st.busy.AwaitingTask? && st.busy.run in st.runs && st.runs[st.busy.run].phase.Finished?
                        && st.runs[st.busy.run].phase.calledBack
    case Terminated => st.busy.Terminating?
    case StopEmits => st.busy.EmittingStop?
    case HandlerLeaves => !st.busy.Idle? && !st.busy.AwaitingTask?
  }

  function Moved(runs: map<RunId, Run>, run: RunId, phase: Phase): map<RunId, Run>
    requires run in runs
  {
    runs[run := runs[run].(phase := phase)]
  }

  /** A stop cancels the filed task if the process is still filed too and the task is not done. */
  function StopBegun(st: State, session: Id): State {
    var process := session in st.entries.processes;
    var cancels := process && session in st.entries.sessionTasks
                   && st.entries.sessionTasks[session] in st.runs
                   && !st.runs[st.entries.sessionTasks[session]].phase.Finished?;
    var st' := st.(entries := TakenByStop(st.entries, session), stopped := st.stopped + [session]);
    if cancels then
      var run := st.entries.sessionTasks[session];
      st'.(runs := Moved(st.runs, run, Cancelling),
           killedBy := st.killedBy[run := |st.stopped|],
           busy := AwaitingTask(session, run, |st.stopped|))
    else if process then st'.(busy := Terminating(session, |st.stopped|))
    else st'.(busy := EmittingStop(session, |st.stopped|))
  }

  function Effect(st: State, step: Step): State
    requires Enabled(st, step)
  {
    match step
    case BeginStart(session) => st.(busy := Busy.Starting(session))
    case FinishStart(run) =>
      st.(entries := Spawned(st.entries, st.busy.session, run),
          runs := st.runs[run := Run(st.busy.session, Waiting)],
          busy := Idle,
          emitted := st.emitted + [Started(run)])
    case WaitReturns(run, ok) =>
      st.(entries := ProcessForgotten(st.entries, st.runs[run].session), runs := Moved(st.runs, run, Emitting(ok)))
    case WaitRaises(run) =>
      st.(entries := ProcessForgotten(st.entries, st.runs[run].session),
          runs := Moved(st.runs, run, Finished(Crashed, false)))
    case EmitsEnd(run) =>
      var ok := st.runs[run].phase.ok;
      st.(runs := Moved(st.runs, run, Finished(Natural(ok), false)), emitted := st.emitted + [Ended(run, ok)])
    case EmitRaises(run) => st.(runs := Moved(st.runs, run, Finished(Unsent(st.runs[run].phase.ok), false)))
    case CallsBack(run) =>
      st.(entries := CalledBack(st.entries, st.runs[run].session, run),
          runs := Moved(st.runs, run, Finished(st.runs[run].phase.end, true)))
    case BeginStop(session) => StopBegun(st, session)
    case CancelTakes(run) =>
      st.(entries := ProcessForgotten(st.entries, st.runs[run].session),
          runs := Moved(st.runs, run, Finished(Killed, false)))
    case StopResumes => st.(busy := Terminating(st.busy.session, st.busy.stop))
    case Terminated => st.(busy := EmittingStop(st.busy.session, st.busy.stop))
    case StopEmits => st.(busy := Idle, emitted := st.emitted + [StopDone(st.busy.session, st.busy.stop)])
    case HandlerLeaves =>
      st.(busy := Idle,
          abandoned := if StopInHand(st).Some? then st.abandoned + {StopInHand(st).value} else st.abandoned)
  }

  /** A step that cannot be taken changes nothing, so every sequence of steps is a schedule. */
  function Next(st: State, step: Step): State {
    if Enabled(st, step) then Effect(st, step) else st
  }

  function Execute(steps: seq<Step>): State {
    if steps == [] then START else Next(Execute(steps[..|steps| - 1]), steps[|steps| - 1])
  }
}
