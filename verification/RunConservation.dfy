/** Every agent run ends exactly once, by its own terminal event or by one stop; and what a stop
    leaves running. */
module RunConservation {
  import opened Vocabulary
  import opened AgentHandler

  function Count(emitted: seq<Emission>, e: Emission): nat {
    multiset(emitted)[e]
  }

  function One(b: bool): nat {
    if b then 1 else 0
  }

  predicate BeingKilled(st: State, run: RunId) {
    run in st.runs
    && (st.runs[run].phase.Cancelling? || (st.runs[run].phase.Finished? && st.runs[run].phase.end.Killed?))
  }

  predicate Waits(st: State, run: RunId, session: Id) {
    run in st.runs && st.runs[run] == Run(session, Waiting)
  }

  /** A filed process is a waiting run; if the session's task is filed too, it is the same run. */
  predicate EntriesAgree(st: State, session: Id) {
    session in st.entries.processes ==>
      && Waits(st, st.entries.processes[session], session)
      && (session in st.entries.sessionTasks ==> st.entries.processes[session] == st.entries.sessionTasks[session])
  }

  predicate EndedBy(st: State, run: RunId, end: End) {
    run in st.runs && st.runs[run].phase.Finished? && st.runs[run].phase.end == end
  }

  predicate StartCounted(st: State, run: RunId) {
    Count(st.emitted, Started(run)) == One(run in st.runs)
  }

  predicate EndCounted(st: State, run: RunId, ok: bool) {
    Count(st.emitted, Ended(run, ok)) == One(EndedBy(st, run, Natural(ok)))
  }

  predicate EndsCounted(st: State, run: RunId) {
    StartCounted(st, run) && EndCounted(st, run, true) && EndCounted(st, run, false)
  }

  /** A run is being or was cancelled exactly if one stop of its session did it. */
  predicate KillExplained(st: State, run: RunId) {
    && (run in st.killedBy <==> BeingKilled(st, run))
    && (run in st.killedBy ==>
          st.killedBy[run] < |st.stopped| && st.stopped[st.killedBy[run]] == st.runs[run].session)
  }

  ghost predicate KillsDistinct(st: State) {
    forall a, b | a in st.killedBy && b in st.killedBy :: st.killedBy[a] == st.killedBy[b] ==> a == b
  }

  /** Every stop but the one in hand and the abandoned ones has emitted its stopped event, once. */
  predicate StopCounted(st: State, stop: nat)
    requires stop < |st.stopped|
  {
    Count(st.emitted, StopDone(st.stopped[stop], stop)) == One(StopInHand(st) != Some(stop) && stop !in st.abandoned)
  }

  predicate NoEarlyStops(st: State) {
    && (forall e | e in st.emitted :: e.StopDone? ==> e.stop < |st.stopped|)
    && (forall stop | stop in st.abandoned :: stop < |st.stopped|)
  }

  predicate BusyOk(st: State) {
    StopInHand(st).Some? ==>
      && |st.stopped| > 0 && StopInHand(st).value == |st.stopped| - 1 && |st.stopped| - 1 !in st.abandoned
      && st.busy.session == st.stopped[|st.stopped| - 1]
  }

  ghost predicate Inv(st: State) {
    && (forall session :: EntriesAgree(st, session))
    && (forall run :: EndsCounted(st, run))
    && (forall run :: KillExplained(st, run))
    && KillsDistinct(st)
    && (forall stop: nat | stop < |st.stopped| :: StopCounted(st, stop))
    && NoEarlyStops(st)
    && BusyOk(st)
  }

  lemma StepKeepsEntries(st: State, step: Step)
    requires forall session :: EntriesAgree(st, session)
    ensures forall session :: EntriesAgree(Next(st, step), session)
  {
    forall session ensures EntriesAgree(Next(st, step), session) {
      assert EntriesAgree(st, session);
      if step.BeginStop? {
        assert EntriesAgree(st, step.session);
      }
    }
  }

  lemma StepKeepsEnds(st: State, step: Step)
    requires forall run :: EndsCounted(st, run)
    ensures forall run :: EndsCounted(Next(st, step), run)
  {
    forall run ensures EndsCounted(Next(st, step), run) {
      assert EndsCounted(st, run);
      StepCounts(st, step, Started(run));
      StepMakesRuns(st, step, run);
      EndStaysCounted(st, step, run, true);
      EndStaysCounted(st, step, run, false);
    }
  }

  /** What a step emits. */
  function News(st: State, step: Step): seq<Emission> {
    if !Enabled(st, step) then []
    else
      match step
      case FinishStart(run) => [Started(run)]
      case EmitsEnd(run) => [Ended(run, st.runs[run].phase.ok)]
      case StopEmits => [StopDone(st.busy.session, st.busy.stop)]
      case _ => []
  }

  lemma StepEmitsNews(st: State, step: Step)
    ensures Next(st, step).emitted == st.emitted + News(st, step)
  {
  }

  lemma CountsAdd(emitted: seq<Emission>, news: seq<Emission>, e: Emission)
    ensures Count(emitted + news, e) == Count(emitted, e) + Count(news, e)
  {
  }

  lemma StepCounts(st: State, step: Step, e: Emission)
    ensures Count(Next(st, step).emitted, e) == Count(st.emitted, e) + One(News(st, step) == [e])
  {
    StepEmitsNews(st, step);
    CountsAdd(st.emitted, News(st, step), e);
  }

  /** Only a step that tells of it makes a run or ends it by itself. */
  lemma StepMakesRuns(st: State, step: Step, run: RunId)
    ensures run in Next(st, step).runs <==> run in st.runs || News(st, step) == [Started(run)]
    ensures News(st, step) == [Started(run)] ==> run !in st.runs
  {
  }

  lemma StepEndsRuns(st: State, step: Step, run: RunId, ok: bool)
    ensures EndedBy(Next(st, step), run, Natural(ok))
            <==> EndedBy(st, run, Natural(ok)) || News(st, step) == [Ended(run, ok)]
    ensures News(st, step) == [Ended(run, ok)] ==> !EndedBy(st, run, Natural(ok))
  {
  }

  lemma EndStaysCounted(st: State, step: Step, run: RunId, ok: bool)
    requires EndCounted(st, run, ok)
    ensures EndCounted(Next(st, step), run, ok)
  {
    StepCounts(st, step, Ended(run, ok));
    StepEndsRuns(st, step, run, ok);
  }

  lemma StepKeepsKills(st: State, step: Step)
    requires (forall run :: KillExplained(st, run)) && KillsDistinct(st)
    requires forall session :: EntriesAgree(st, session)
    ensures (forall run :: KillExplained(Next(st, step), run)) && KillsDistinct(Next(st, step))
  {
    var st' := Next(st, step);
    forall run ensures KillExplained(st', run) {
      assert KillExplained(st, run);
      if step.BeginStop? {
        assert EntriesAgree(st, step.session);
      }
    }
    forall a, b | a in st'.killedBy && b in st'.killedBy && st'.killedBy[a] == st'.killedBy[b] ensures a == b {
      assert KillExplained(st, a) && KillExplained(st, b);
    }
  }

  lemma StepKeepsStopOrder(st: State, step: Step)
    requires NoEarlyStops(st) && BusyOk(st)
    ensures NoEarlyStops(Next(st, step)) && BusyOk(Next(st, step))
  {
  }

  lemma StepCountsStop(st: State, step: Step, stop: nat)
    requires stop < |Next(st, step).stopped|
    requires NoEarlyStops(st) && BusyOk(st)
    requires stop < |st.stopped| ==> StopCounted(st, stop)
    ensures StopCounted(Next(st, step), stop)
  {
    var st' := Next(st, step);
    if stop >= |st.stopped| {
      assert StopDone(st'.stopped[stop], stop) !in st.emitted;
    }
  }

  lemma StepKeepsStops(st: State, step: Step)
    requires (forall stop: nat | stop < |st.stopped| :: StopCounted(st, stop)) && NoEarlyStops(st) && BusyOk(st)
    ensures
      var st' := Next(st, step);
      (forall stop: nat | stop < |st'.stopped| :: StopCounted(st', stop)) && NoEarlyStops(st') && BusyOk(st')
  {
    StepKeepsStopOrder(st, step);
    forall stop: nat | stop < |Next(st, step).stopped| ensures StopCounted(Next(st, step), stop) {
      StepCountsStop(st, step, stop);
    }
  }

  /** Over every schedule: one started and at most one terminal event per run; a run was cancelled
      exactly if one stop of its session did it, no stop cancels two, and each stop that the handler
      sees through emits one stopped event. */
  lemma {:induction false} EveryRunEndsOnce(steps: seq<Step>)
    ensures Inv(Execute(steps))
  {
    if steps != [] {
      var front, step := Execute(steps[..|steps| - 1]), steps[|steps| - 1];
      EveryRunEndsOnce(steps[..|steps| - 1]);
      StepKeepsEntries(front, step);
      StepKeepsEnds(front, step);
      StepKeepsKills(front, step);
      StepKeepsStops(front, step);
    }
  }

  /** The step was taken at some point of the schedule. */
  predicate Took(steps: seq<Step>, step: Step) {
    steps != [] &&
    var n := |steps| - 1;
    Took(steps[..n], step) || (steps[n] == step && Enabled(Execute(steps[..n]), step))
  }

  lemma StepEnds(st: State, step: Step, run: RunId)
    ensures EndedBy(Next(st, step), run, Crashed) <==>
            EndedBy(st, run, Crashed) || (step == WaitRaises(run) && Enabled(st, step))
    ensures (exists ok :: EndedBy(Next(st, step), run, Unsent(ok))) <==>
            (exists ok :: EndedBy(st, run, Unsent(ok))) || (step == EmitRaises(run) && Enabled(st, step))
  {
    var st' := Next(st, step);
    assert forall ok :: EndedBy(st, run, Unsent(ok)) ==> EndedBy(st', run, Unsent(ok));
    if step == EmitRaises(run) && Enabled(st, step) {
      assert EndedBy(st', run, Unsent(st.runs[run].phase.ok));
    }
  }

  lemma {:induction false} RaisesAreTaken(steps: seq<Step>, run: RunId)
    ensures Took(steps, WaitRaises(run)) <==> EndedBy(Execute(steps), run, Crashed)
    ensures Took(steps, EmitRaises(run)) <==> exists ok :: EndedBy(Execute(steps), run, Unsent(ok))
  {
    if steps != [] {
      var n := |steps| - 1;
      RaisesAreTaken(steps[..n], run);
      StepEnds(Execute(steps[..n]), steps[n], run);
    }
  }

  /** A run that is over ended in exactly one of four ways: it emitted its one terminal event, a stop
      of its session cancelled it, its wait raised, or the emission of its event raised. */
  lemma RunsEndOneWay(steps: seq<Step>, run: RunId)
    requires run in Execute(steps).runs && Execute(steps).runs[run].phase.Finished?
    ensures
      var st := Execute(steps);
      var told := Count(st.emitted, Ended(run, true)) + Count(st.emitted, Ended(run, false));
      var killed := run in st.killedBy;
      var raised := Took(steps, WaitRaises(run));
      var unsent := Took(steps, EmitRaises(run));
      told == One(told > 0) && One(told > 0) + One(killed) + One(raised) + One(unsent) == 1
  {
    EveryRunEndsOnce(steps);
    RaisesAreTaken(steps, run);
    var st := Execute(steps);
    assert EndsCounted(st, run) && KillExplained(st, run);
    var end := st.runs[run].phase.end;
    assert EndedBy(st, run, end);
  }

  /** What a run may be, given whether its wait has returned with a result or with a failure, and
      whether its end has been emitted. */
  predicate Explained(st: State, run: RunId, succeeded: bool, failed: bool, sent: bool) {
    && !(succeeded && failed)
    && (succeeded || failed || sent ==> run in st.runs)
    && (run in st.runs ==>
          match st.runs[run].phase
          case Waiting => !succeeded && !failed && !sent
          case Cancelling => !sent
          case Emitting(ok) => (if ok then succeeded else failed) && !sent
          case Finished(Natural(ok), _) => (if ok then succeeded else failed) && sent
          case Finished(Unsent(ok), _) => (if ok then succeeded else failed) && !sent
          case Finished(Killed, _) => !sent
          case Finished(Crashed, _) => !succeeded && !failed && !sent)
  }

  lemma StepExplains(st: State, step: Step, run: RunId, succeeded: bool, failed: bool, sent: bool)
    requires Explained(st, run, succeeded, failed, sent)
    requires forall session :: EntriesAgree(st, session)
    ensures Explained(Next(st, step), run,
                      succeeded || (step == WaitReturns(run, true) && Enabled(st, step)),
                      failed || (step == WaitReturns(run, false) && Enabled(st, step)),
                      sent || (step == EmitsEnd(run) && Enabled(st, step)))
  {
    if step.BeginStop? {
      assert EntriesAgree(st, step.session);
    }
  }

  lemma {:induction false} RunsAreExplained(steps: seq<Step>, run: RunId)
    ensures Explained(Execute(steps), run, Took(steps, WaitReturns(run, true)), Took(steps, WaitReturns(run, false)),
                      Took(steps, EmitsEnd(run)))
  {
    if steps != [] {
      var n := |steps| - 1;
      RunsAreExplained(steps[..n], run);
      EveryRunEndsOnce(steps[..n]);
      StepExplains(Execute(steps[..n]), steps[n], run, Took(steps[..n], WaitReturns(run, true)),
                   Took(steps[..n], WaitReturns(run, false)), Took(steps[..n], EmitsEnd(run)));
    }
  }

  /** Over every schedule: a run is reported completed, or failed, exactly if its process was waited for
      with that outcome and the report went out. No failure is reported as a success. */
  lemma EndsAreTruthful(steps: seq<Step>, run: RunId, ok: bool)
    ensures Ended(run, ok) in Execute(steps).emitted
            <==> Took(steps, WaitReturns(run, ok)) && Took(steps, EmitsEnd(run))
  {
    RunsAreExplained(steps, run);
    EveryRunEndsOnce(steps);
    assert EndsCounted(Execute(steps), run);
    assert Ended(run, ok) in Execute(steps).emitted <==> Count(Execute(steps).emitted, Ended(run, ok)) > 0;
  }

  /** From a handler at rest, a start whose process is waited for and whose end is emitted tells of the
      start and of that end, and of nothing else. */
  lemma StartIsSeenThrough(st: State, session: Id, run: RunId, ok: bool)
    requires st.busy.Idle? && run !in st.runs
    ensures
      var st2 := Next(Next(st, BeginStart(session)), FinishStart(run));
      var st4 := Next(Next(st2, WaitReturns(run, ok)), EmitsEnd(run));
      && Waits(st2, run, session) && st2.busy.Idle? && run in st2.entries.tasks
      && st2.entries.processes == st.entries.processes[session := run]
      && st2.entries.sessionTasks == st.entries.sessionTasks[session := run]
      && EndedBy(st4, run, Natural(ok)) && st4.emitted == st.emitted + [Started(run), Ended(run, ok)]
  {
    assert st.emitted + [Started(run)] + [Ended(run, ok)] == st.emitted + [Started(run), Ended(run, ok)];
  }

  lemma StopKillsRun(st: State, session: Id, run: RunId)
    requires st.busy.Idle? && Waits(st, run, session)
    requires session in st.entries.processes && session in st.entries.sessionTasks
    requires st.entries.sessionTasks[session] == run
    ensures
      var st3 := Next(Next(Next(st, BeginStop(session)), CancelTakes(run)), CallsBack(run));
      && st3.busy == AwaitingTask(session, run, |st.stopped|) && st3.stopped == st.stopped + [session]
      && st3.killedBy == st.killedBy[run := |st.stopped|] && st3.emitted == st.emitted
      && st3.runs == st.runs[run := Run(session, Finished(Killed, true))]
      && st3.entries.tasks == st.entries.tasks - {run}
  {
    var st1 := Next(st, BeginStop(session));
    assert st1.runs == st.runs[run := Run(session, Cancelling)];
    var st2 := Next(st1, CancelTakes(run));
    assert st2.runs == st.runs[run := Run(session, Finished(Killed, false))];
  }

  lemma StopGoesOn(st: State, session: Id, run: RunId, stop: nat)
    requires st.busy == AwaitingTask(session, run, stop) && run in st.runs && Over(st.runs[run])
    ensures
      var st' := Next(Next(Next(st, StopResumes), Terminated), StopEmits);
      st' == st.(busy := Idle, emitted := st.emitted + [StopDone(session, stop)])
  {
  }

  /** From a handler at rest, a stop of a filed run kills it, waits for its callbacks and tells of itself. */
  lemma StopIsSeenThrough(st: State, session: Id, run: RunId)
    requires st.busy.Idle? && Waits(st, run, session)
    requires session in st.entries.processes && session in st.entries.sessionTasks
    requires st.entries.sessionTasks[session] == run
    ensures
      var stop := |st.stopped|;
      var st3 := Next(Next(Next(st, BeginStop(session)), CancelTakes(run)), CallsBack(run));
      var st6 := Next(Next(Next(st3, StopResumes), Terminated), StopEmits);
      && EndedBy(st6, run, Killed) && run !in st6.entries.tasks
      && st6.busy.Idle? && st6.stopped == st.stopped + [session]
      && run in st6.killedBy && st6.killedBy[run] == stop
      && st6.emitted == st.emitted + [StopDone(session, stop)]
  {
    StopKillsRun(st, session, run);
    StopGoesOn(Next(Next(Next(st, BeginStop(session)), CancelTakes(run)), CallsBack(run)), session, run, |st.stopped|);
  }

  /** A handler that leaves in the middle is at rest again and has told nothing; a stop in hand is then one
      that is never told of. */
  lemma LeavingTellsNothing(st: State)
    requires !st.busy.Idle? && !st.busy.AwaitingTask?
    ensures
      var st' := Next(st, HandlerLeaves);
      && st'.busy.Idle? && st'.emitted == st.emitted && st'.runs == st.runs && st'.entries == st.entries
      && forall stop :: stop in st'.abandoned <==> stop in st.abandoned || StopInHand(st) == Some(stop)
  {
  }

  const CRASH: seq<Step> := [BeginStart("s"), FinishStart(1), WaitRaises(1)]

  /** The shortest schedule in which a run is over without an event and without a stop. */
  lemma CrashEndsUntold()
    ensures
      var st := Execute(CRASH);
      && EndedBy(st, 1, Crashed) && st.emitted == [Started(1)] && st.stopped == [] && st.killedBy == map[]
  {
    assert CRASH[..2] == [BeginStart("s"), FinishStart(1)];
    assert CRASH[..2][..1] == [BeginStart("s")];
    assert CRASH[..2][..1][..0] == [];
    assert Execute([BeginStart("s")]) == START.(busy := Busy.Starting("s"));
  }

  // ---------------------------------------------------------------- the balance

  function NumStarted(emitted: seq<Emission>): nat {
    if emitted == [] then 0 else NumStarted(emitted[..|emitted| - 1]) + One(emitted[|emitted| - 1].Started?)
  }

  function NumEnded(emitted: seq<Emission>, ok: bool): nat {
    if emitted == [] then 0
    else
      var last := emitted[|emitted| - 1];
      NumEnded(emitted[..|emitted| - 1], ok) + One(last.Ended? && last.ok == ok)
  }

  /** What has become of a run. Broken: the wait for its process raised. Muted: its terminal event
      could not be emitted. */
  datatype Fate = InFlight | Announced | Cancelled | Broken | Muted

  function FateOf(r: Run): Fate {
    match r.phase
    case Finished(Natural(_), _) => Announced
    case Finished(Killed, _) => Cancelled
    case Finished(Crashed, _) => Broken
    case Finished(Unsent(_), _) => Muted
    case _ => InFlight
  }

  function WithFate(runs: map<RunId, Run>, fate: Fate): set<RunId> {
    set r | r in runs && FateOf(runs[r]) == fate
  }

  predicate Balanced(runs: map<RunId, Run>, emitted: seq<Emission>) {
    NumStarted(emitted) == NumEnded(emitted, true) + NumEnded(emitted, false) + Unannounced(runs)
  }

  /** How many runs have told nothing of an end. */
  function Unannounced(runs: map<RunId, Run>): nat {
    |WithFate(runs, Cancelled)| + |WithFate(runs, Broken)| + |WithFate(runs, Muted)| + |WithFate(runs, InFlight)|
  }

  lemma SizeWithout(s: set<RunId>, run: RunId)
    ensures |s - {run}| == |s| - One(run in s)
  {
    if run in s {
      assert s == s - {run} + {run};
    } else {
      assert s == s - {run};
    }
  }

  lemma OthersKeepTheirFate(runs: map<RunId, Run>, run: RunId, r: Run, fate: Fate)
    ensures WithFate(runs[run := r], fate) - {run} == WithFate(runs, fate) - {run}
  {
    var runs' := runs[run := r];
    assert forall k | k != run :: k in runs' <==> k in runs;
    assert forall k | k != run && k in runs :: runs'[k] == runs[k];
  }

  /** What writing one run does to the number with a given fate. */
  lemma FateCounts(runs: map<RunId, Run>, run: RunId, r: Run, fate: Fate)
    ensures |WithFate(runs[run := r], fate)|
            == |WithFate(runs, fate)| - One(run in WithFate(runs, fate)) + One(FateOf(r) == fate)
  {
    OthersKeepTheirFate(runs, run, r, fate);
    SizeWithout(WithFate(runs, fate), run);
    SizeWithout(WithFate(runs[run := r], fate), run);
    assert run in WithFate(runs[run := r], fate) <==> FateOf(r) == fate;
  }

  lemma RunMoves(runs: map<RunId, Run>, run: RunId, r: Run)
    ensures Unannounced(runs[run := r])
            == Unannounced(runs) - One(run in runs && FateOf(runs[run]) != Announced) + One(FateOf(r) != Announced)
  {
    FateCounts(runs, run, r, Cancelled);
    FateCounts(runs, run, r, Broken);
    FateCounts(runs, run, r, Muted);
    FateCounts(runs, run, r, InFlight);
  }

  lemma EmissionCounts(emitted: seq<Emission>, e: Emission)
    ensures NumStarted(emitted + [e]) == NumStarted(emitted) + One(e.Started?)
    ensures forall ok :: NumEnded(emitted + [e], ok) == NumEnded(emitted, ok) + One(e.Ended? && e.ok == ok)
  {
    assert (emitted + [e])[..|emitted|] == emitted;
  }

  lemma StartBalances(runs: map<RunId, Run>, emitted: seq<Emission>, run: RunId, r: Run)
    requires Balanced(runs, emitted) && run !in runs && !r.phase.Finished?
    ensures Balanced(runs[run := r], emitted + [Started(run)])
  {
    RunMoves(runs, run, r);
    EmissionCounts(emitted, Started(run));
  }

  lemma EndBalances(runs: map<RunId, Run>, emitted: seq<Emission>, run: RunId, r: Run, ok: bool)
    requires Balanced(runs, emitted) && run in runs && !runs[run].phase.Finished?
    requires r.phase.Finished? && r.phase.end == Natural(ok)
    ensures Balanced(runs[run := r], emitted + [Ended(run, ok)])
  {
    RunMoves(runs, run, r);
    EmissionCounts(emitted, Ended(run, ok));
  }

  lemma SilentEndBalances(runs: map<RunId, Run>, emitted: seq<Emission>, run: RunId, r: Run)
    requires Balanced(runs, emitted) && run in runs && !runs[run].phase.Finished?
    requires r.phase.Finished? && !r.phase.end.Natural?
    ensures Balanced(runs[run := r], emitted)
  {
    RunMoves(runs, run, r);
  }

  /** A run that is only moved along keeps the balance. */
  lemma MoveBalances(runs: map<RunId, Run>, emitted: seq<Emission>, run: RunId, r: Run)
    requires Balanced(runs, emitted) && run in runs && r.phase.Finished? == runs[run].phase.Finished?
    requires r.phase.Finished? ==> r.phase.end == runs[run].phase.end
    ensures Balanced(runs[run := r], emitted)
  {
    RunMoves(runs, run, r);
  }

  lemma StopBalances(st: State, session: Id)
    requires Balanced(st.runs, st.emitted)
    ensures Balanced(StopBegun(st, session).runs, StopBegun(st, session).emitted)
  {
    var st' := StopBegun(st, session);
    if st'.runs != st.runs {
      var run := st.entries.sessionTasks[session];
      MoveBalances(st.runs, st.emitted, run, st.runs[run].(phase := Cancelling));
    }
  }

  lemma QuietBalances(runs: map<RunId, Run>, emitted: seq<Emission>, e: Emission)
    requires Balanced(runs, emitted) && e.StopDone?
    ensures Balanced(runs, emitted + [e])
  {
    EmissionCounts(emitted, e);
  }

  lemma RunStepBalances(st: State, step: Step)
    requires Balanced(st.runs, st.emitted) && Enabled(st, step)
    requires step.WaitReturns? || step.WaitRaises? || step.EmitRaises? || step.CancelTakes? || step.CallsBack?
    ensures Balanced(Effect(st, step).runs, Effect(st, step).emitted)
  {
    var r := st.runs[step.run];
    if step.WaitReturns? {
      MoveBalances(st.runs, st.emitted, step.run, r.(phase := Emitting(step.ok)));
    } else if step.CallsBack? {
      MoveBalances(st.runs, st.emitted, step.run, r.(phase := Finished(r.phase.end, true)));
    } else {
      SilentEndBalances(st.runs, st.emitted, step.run, Effect(st, step).runs[step.run]);
    }
  }

  lemma EmittingStepBalances(st: State, step: Step)
    requires Balanced(st.runs, st.emitted) && Enabled(st, step)
    requires step.FinishStart? || step.EmitsEnd? || step.StopEmits?
    ensures Balanced(Effect(st, step).runs, Effect(st, step).emitted)
  {
    match step
    case FinishStart(run) => StartBalances(st.runs, st.emitted, run, Run(st.busy.session, Waiting));
    case EmitsEnd(run) =>
      var ok := st.runs[run].phase.ok;
      EndBalances(st.runs, st.emitted, run, st.runs[run].(phase := Finished(Natural(ok), false)), ok);
    case StopEmits => QuietBalances(st.runs, st.emitted, StopDone(st.busy.session, st.busy.stop));
  }

  lemma StepKeepsBalance(st: State, step: Step)
    requires Balanced(st.runs, st.emitted)
    ensures Balanced(Next(st, step).runs, Next(st, step).emitted)
  {
    if Enabled(st, step) {
      if step.FinishStart? || step.EmitsEnd? || step.StopEmits? {
        EmittingStepBalances(st, step);
      } else if step.WaitReturns? || step.WaitRaises? || step.EmitRaises? || step.CancelTakes? || step.CallsBack? {
        RunStepBalances(st, step);
      } else if step.BeginStop? {
        StopBalances(st, step.session);
      }
    }
  }

  /** Starts handled = completed + failed + cancelled + those whose wait or last emission raised
      + those still in flight, at every moment. */
  lemma {:induction false} StartsAreConserved(steps: seq<Step>)
    ensures Balanced(Execute(steps).runs, Execute(steps).emitted)
  {
    if steps != [] {
      StartsAreConserved(steps[..|steps| - 1]);
      StepKeepsBalance(Execute(steps[..|steps| - 1]), steps[|steps| - 1]);
    }
  }

  /** Without those that raised the balance is exact only if nothing raised. */
  lemma NothingRaisedExactly(steps: seq<Step>)
    ensures
      var st := Execute(steps);
      NumStarted(st.emitted) == NumEnded(st.emitted, true) + NumEnded(st.emitted, false)
                                + |WithFate(st.runs, Cancelled)| + |WithFate(st.runs, InFlight)|
      <==> forall run :: !Took(steps, WaitRaises(run)) && !Took(steps, EmitRaises(run))
  {
    StartsAreConserved(steps);
    var st := Execute(steps);
    forall run ensures run in WithFate(st.runs, Broken) <==> Took(steps, WaitRaises(run))
      ensures run in WithFate(st.runs, Muted) <==> Took(steps, EmitRaises(run))
    {
      RaisesAreTaken(steps, run);
    }
    if forall run :: !Took(steps, WaitRaises(run)) && !Took(steps, EmitRaises(run)) {
      assert WithFate(st.runs, Broken) == {} && WithFate(st.runs, Muted) == {};
    } else {
      var run :| Took(steps, WaitRaises(run)) || Took(steps, EmitRaises(run));
      assert run in WithFate(st.runs, Broken) || run in WithFate(st.runs, Muted);
      assert WithFate(st.runs, Broken) != {} || WithFate(st.runs, Muted) != {};
    }
  }

  predicate TaskHeld(st: State, run: RunId) {
    run in st.entries.tasks <==> run in st.runs && !Over(st.runs[run])
  }

  lemma StepKeepsTask(st: State, step: Step, run: RunId)
    requires TaskHeld(st, run)
    ensures TaskHeld(Next(st, step), run)
  {
  }

  /** The handler holds on to exactly the tasks that are not over. */
  lemma {:induction false} TasksAreTheLiveRuns(steps: seq<Step>, run: RunId)
    ensures TaskHeld(Execute(steps), run)
  {
    if steps != [] {
      TasksAreTheLiveRuns(steps[..|steps| - 1], run);
      StepKeepsTask(Execute(steps[..|steps| - 1]), steps[|steps| - 1], run);
    }
  }

  // ---------------------------------------------------------------- after a stop

  /** A waiting run that a stop of its session would not cancel: one of its entries is gone. */
  ghost predicate Stray(st: State, session: Id) {
    exists run :: Waits(st, run, session)
                  && !(session in st.entries.processes && session in st.entries.sessionTasks
                       && st.entries.sessionTasks[session] == run)
  }

  ghost predicate SomeWait(st: State, session: Id) {
    exists run :: Waits(st, run, session)
  }

  lemma StopLeavesStrays(st: State, session: Id)
    requires EntriesAgree(st, session)
    ensures SomeWait(StopBegun(st, session), session) <==> Stray(st, session)
  {
    var st' := StopBegun(st, session);
    if run :| Waits(st, run, session) && !(session in st.entries.processes && session in st.entries.sessionTasks
                                           && st.entries.sessionTasks[session] == run) {
      assert Waits(st', run, session);
    }
    if run :| Waits(st', run, session) {
      assert Waits(st, run, session);
    }
  }

  /** A stop leaves a run of its session waiting exactly when the session has a stray run. */
  lemma StopLeavesExactlyStrays(steps: seq<Step>, session: Id)
    requires Execute(steps).busy.Idle?
    ensures SomeWait(Next(Execute(steps), BeginStop(session)), session) <==> Stray(Execute(steps), session)
  {
    EveryRunEndsOnce(steps);
    StopLeavesStrays(Execute(steps), session);
  }

  /** While a stop is in hand nothing starts waiting. */
  lemma WaitersOnlyLeaveDuringStop(st: State, step: Step, session: Id)
    requires StopInHand(st).Some? && SomeWait(Next(st, step), session)
    ensures SomeWait(st, session)
  {
    var run :| Waits(Next(st, step), run, session);
    assert Waits(st, run, session);
  }

  /** A run is over once its task is done and the callbacks have run. */
  predicate Over(r: Run) {
    r.phase.Finished? && r.phase.calledBack
  }

  /** The start is of a session whose earlier runs are all over. */
  predicate CleanStart(st: State, step: Step) {
    step.FinishStart? && Enabled(st, step) ==>
      forall r | r in st.runs && st.runs[r].session == st.busy.session :: Over(st.runs[r])
  }

  /** The weaker guard: the session has no task entry. */
  predicate UnfiledStart(st: State, step: Step) {
    step.FinishStart? && Enabled(st, step) ==> st.busy.session !in st.entries.sessionTasks
  }

  predicate CleanStarts(steps: seq<Step>) {
    steps != [] ==>
      CleanStarts(steps[..|steps| - 1]) && CleanStart(Execute(steps[..|steps| - 1]), steps[|steps| - 1])
  }

  predicate UnfiledStarts(steps: seq<Step>) {
    steps != [] ==>
      UnfiledStarts(steps[..|steps| - 1]) && UnfiledStart(Execute(steps[..|steps| - 1]), steps[|steps| - 1])
  }

  ghost predicate OneLiveRun(st: State) {
    forall a, b | a in st.runs && b in st.runs && st.runs[a].session == st.runs[b].session ::
      !Over(st.runs[a]) && !Over(st.runs[b]) ==> a == b
  }

  predicate Filed(st: State, run: RunId) {
    run in st.runs && st.runs[run].phase.Waiting? ==>
      var session := st.runs[run].session;
      && session in st.entries.processes && st.entries.processes[session] == run
      && session in st.entries.sessionTasks && st.entries.sessionTasks[session] == run
  }

  lemma StepKeepsOneLive(st: State, step: Step)
    requires OneLiveRun(st) && CleanStart(st, step)
    ensures OneLiveRun(Next(st, step))
  {
  }

  lemma StepKeepsFiled(st: State, step: Step, run: RunId)
    requires OneLiveRun(st) && CleanStart(st, step) && Filed(st, run) && forall session :: EntriesAgree(st, session)
    ensures Filed(Next(st, step), run)
  {
    if step.BeginStop? {
      assert EntriesAgree(st, step.session);
    }
  }

  lemma {:induction false} CleanStartsFileEveryWaiter(steps: seq<Step>)
    requires CleanStarts(steps)
    ensures OneLiveRun(Execute(steps)) && forall run :: Filed(Execute(steps), run)
  {
    if steps != [] {
      var front, step := steps[..|steps| - 1], steps[|steps| - 1];
      CleanStartsFileEveryWaiter(front);
      EveryRunEndsOnce(front);
      StepKeepsOneLive(Execute(front), step);
      forall run ensures Filed(Execute(steps), run) {
        StepKeepsFiled(Execute(front), step, run);
      }
    }
  }

  ghost predicate StopsClear(st: State) {
    StopInHand(st).Some? ==> !SomeWait(st, st.busy.session)
  }

  /** If no session is started before its earlier runs are over, then from the moment a stop has
      taken the entries until it has emitted, no run of its session is waiting. */
  lemma {:induction false} CleanStartsMakeStopsClear(steps: seq<Step>)
    requires CleanStarts(steps)
    ensures StopsClear(Execute(steps))
    ensures StopInHand(Execute(steps)).Some? ==>
              !SomeWait(Next(Execute(steps), StopEmits), Execute(steps).busy.session)
  {
    if steps != [] {
      var front, step := steps[..|steps| - 1], steps[|steps| - 1];
      CleanStartsMakeStopsClear(front);
      CleanStartsFileEveryWaiter(front);
      var st := Execute(front);
      if step.BeginStop? && st.busy.Idle? {
        StopLeavesExactlyStrays(front, step.session);
        if run :| Waits(st, run, step.session) {
          assert Filed(st, run);
        }
        assert forall run :: Filed(st, run);
      } else if StopInHand(st).Some? && SomeWait(Execute(steps), st.busy.session) {
        WaitersOnlyLeaveDuringStop(st, step, st.busy.session);
      }
      if StopInHand(Execute(steps)).Some? && SomeWait(Next(Execute(steps), StopEmits), Execute(steps).busy.session) {
        WaitersOnlyLeaveDuringStop(Execute(steps), StopEmits, Execute(steps).busy.session);
      }
    }
  }

  // ---------------------------------------------------------------- the weaker guard is not enough

  /** A run that is still emitting its end loses its task entry to a first stop; the session is
      started again; the first run's callback then unfiles the second run's task. */
  function RaceStep(n: nat): Step {
    if n == 0 || n == 5 then BeginStart("s")
    else if n == 1 then FinishStart(1)
    else if n == 2 then WaitReturns(1, true)
    else if n == 3 || n == 9 then BeginStop("s")
    else if n == 6 then FinishStart(2)
    else if n == 7 then EmitsEnd(1)
    else if n == 8 then CallsBack(1)
    else if n == 10 then Terminated
    else StopEmits
  }

  function Race(n: nat): seq<Step> {
    if n == 0 then [] else Race(n - 1) + [RaceStep(n - 1)]
  }

  ghost predicate RaceReaches(n: nat, st: State) {
    Execute(Race(n)) == st && UnfiledStarts(Race(n))
  }

  /** Where the schedule stands after so many steps. */
  const RACE2 := State(Entries(map["s" := 1], map["s" := 1], {1}), map[1 := Run("s", Waiting)],
                       Idle, [], map[], {}, [Started(1)])
  const RACE3 := RACE2.(entries := Entries(map[], map["s" := 1], {1}), runs := map[1 := Run("s", Emitting(true))])
  const RACE4 := RACE3.(entries := Entries(map[], map[], {1}), busy := EmittingStop("s", 0), stopped := ["s"])
  const RACE6 := RACE4.(busy := Busy.Starting("s"), emitted := [Started(1), StopDone("s", 0)])
  const RACE7 := RACE6.(entries := Entries(map["s" := 2], map["s" := 2], {1, 2}),
                        runs := map[1 := Run("s", Emitting(true)), 2 := Run("s", Waiting)],
                        busy := Idle, emitted := [Started(1), StopDone("s", 0), Started(2)])
  const RACE8 := RACE7.(runs := map[1 := Run("s", Finished(Natural(true), false)), 2 := Run("s", Waiting)],
                        emitted := [Started(1), StopDone("s", 0), Started(2), Ended(1, true)])
  const RACE9 := RACE8.(entries := Entries(map["s" := 2], map[], {2}),
                        runs := map[1 := Run("s", Finished(Natural(true), true)), 2 := Run("s", Waiting)])
  const RACE10 := RACE9.(entries := Entries(map[], map[], {2}), busy := Terminating("s", 1), stopped := ["s", "s"])
  const RACE11 := RACE10.(busy := EmittingStop("s", 1))
  const RACE12 := RACE11.(busy := Idle, emitted := RACE9.emitted + [StopDone("s", 1)])

  lemma RaceStarts()
    ensures Next(START.(busy := Busy.Starting("s")), FinishStart(1)) == RACE2
    ensures Next(RACE6, FinishStart(2)) == RACE7
  {
  }

  lemma RaceStops()
    ensures Next(RACE2, WaitReturns(1, true)) == RACE3 && Next(RACE3, BeginStop("s")) == RACE4
  {
  }

  lemma RaceEnds()
    ensures Next(RACE7, EmitsEnd(1)) == RACE8
  {
  }

  lemma RaceUnfiles()
    ensures Next(RACE8, CallsBack(1)) == RACE9
  {
  }

  lemma RaceStrays()
    ensures Next(RACE9, BeginStop("s")) == RACE10
    ensures Next(RACE10, Terminated) == RACE11 && Next(RACE11, StopEmits) == RACE12
  {
  }

  lemma RaceGoesOn(n: nat, st: State, st': State)
    requires RaceReaches(n, st) && UnfiledStart(st, RaceStep(n)) && st' == Next(st, RaceStep(n))
    ensures RaceReaches(n + 1, st')
  {
    assert Race(n + 1)[..|Race(n)|] == Race(n);
  }

  lemma RaceToFirstStart()
    ensures RaceReaches(2, RACE2)
  {
    RaceStarts();
    RaceGoesOn(0, START, START.(busy := Busy.Starting("s")));
    RaceGoesOn(1, START.(busy := Busy.Starting("s")), RACE2);
  }

  lemma RaceToFirstStop()
    ensures RaceReaches(4, RACE4)
  {
    RaceToFirstStart();
    RaceStops();
    RaceGoesOn(2, RACE2, RACE3);
    RaceGoesOn(3, RACE3, RACE4);
  }

  lemma RaceToSecondStart()
    ensures RaceReaches(6, RACE6)
  {
    RaceToFirstStop();
    var idle := RACE4.(busy := Idle, emitted := [Started(1), StopDone("s", 0)]);
    RaceGoesOn(4, RACE4, idle);
    RaceGoesOn(5, idle, RACE6);
  }

  lemma RaceToRestart()
    ensures RaceReaches(7, RACE7)
  {
    RaceToSecondStart();
    RaceStarts();
    RaceGoesOn(6, RACE6, RACE7);
  }

  lemma RaceToUnfiling()
    ensures RaceReaches(9, RACE9)
  {
    RaceToRestart();
    RaceEnds();
    RaceGoesOn(7, RACE7, RACE8);
    RaceUnfiles();
    RaceGoesOn(8, RACE8, RACE9);
  }

  lemma RaceToSecondStop()
    ensures RaceReaches(12, RACE12)
  {
    RaceToUnfiling();
    RaceStrays();
    RaceGoesOn(9, RACE9, RACE10);
    RaceGoesOn(10, RACE10, RACE11);
    RaceGoesOn(11, RACE11, RACE12);
  }

  /** In this schedule no session is started while it has a task entry, yet its second stop, which
      has emitted its stopped event, leaves run 2 waiting. */
  lemma UnfiledStartsAreNotEnough()
    ensures UnfiledStarts(Race(12)) && RaceStep(9) == BeginStop("s") && RaceStep(11) == StopEmits
    ensures
      var st := Execute(Race(12));
      && st.busy.Idle? && st.emitted == RACE9.emitted + [StopDone("s", 1)]
      && Waits(st, 2, "s")
  {
    RaceToSecondStop();
  }
}
