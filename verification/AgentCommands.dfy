/** The devcontainer agent's command handler as it runs: its dictionaries rewritten in place by the
    handler, by the runs and by their done callbacks, each method being the code between two awaits. */
module AgentCommands {
  import opened Vocabulary
  import opened AgentHandler
  import opened RunConservation

  /** `runs` and `busy` are the event loop's: every task made, and where the handler is suspended.
      The last four are histories; `stopped` numbers the stops. */
  class AgentCommandHandler {
    var processes: map<Id, RunId>
    var sessionTasks: map<Id, RunId>
    var tasks: set<RunId>
    var runs: map<RunId, Run>
    var busy: Busy
    var emitted: seq<Emission>
    var stopped: seq<Id>
    ghost var killedBy: map<RunId, nat>
    ghost var abandoned: set<nat>

    ghost function View(): State
      reads this
    {
      State(Entries(processes, sessionTasks, tasks), runs, busy, stopped, killedBy, abandoned, emitted)
    }

    /** Every run is accounted for, and the handler holds exactly the tasks that are not over. */
    ghost predicate Valid()
      reads this
    {
      RunConservation.Inv(View()) && forall run :: TaskHeld(View(), run)
    }

    constructor ()
      ensures Valid() && View() == AgentHandler.START
    {
      processes, sessionTasks, tasks, runs, busy, emitted := map[], map[], {}, map[], Idle, [];
      stopped, killedBy, abandoned := [], map[], {};
    }

    // -------------------------------------------------------------- start

    /** Up to the emission of the started event. */
    method BeginStart(session: Id)
      requires Valid() && busy.Idle?
      modifies this`busy
      ensures Valid() && View() == Effect(old(View()), AgentHandler.BeginStart(session))
      ensures busy == Busy.Starting(session)
    {
      StepKeepsValid(View(), AgentHandler.BeginStart(session));
      busy := Busy.Starting(session);
    }

    /** Once it is emitted: the run waits, and a stop right now would cancel it and no other. */
    method FinishStart(run: RunId)
      requires Valid() && busy.Starting? && run !in runs
      modifies this
      ensures Valid() && View() == Effect(old(View()), AgentHandler.FinishStart(run))
      ensures Waits(View(), run, old(busy).session) && Filed(View(), run)
      ensures StopBegun(View(), old(busy).session).killedBy == killedBy[run := |stopped|]
      ensures runs == old(runs)[run := Run(old(busy).session, Waiting)] && tasks == old(tasks) + {run}
      ensures emitted == old(emitted) + [Started(run)] && busy.Idle? && stopped == old(stopped)
      ensures forall s | s != old(busy).session ::
                && (s in processes <==> s in old(processes)) && (s in processes ==> processes[s] == old(processes)[s])
                && (s in sessionTasks <==> s in old(sessionTasks))
                && (s in sessionTasks ==> sessionTasks[s] == old(sessionTasks)[s])
    {
      StepKeepsValid(View(), AgentHandler.FinishStart(run));
      var session := busy.session;
      processes := processes[session := run];
      tasks := tasks + {run};
      sessionTasks := sessionTasks[session := run];
      runs := runs[run := Run(session, Waiting)];
      emitted := emitted + [Started(run)];
      busy := Idle;
    }

    // -------------------------------------------------------------- a run

    /** The wait for the process is over, by a result or by an exception; `finally` forgets the
        process either way, but only a result is told of. */
    method OnWaitOver(run: RunId, result: Option<bool>)
      requires Valid() && InPhase(View(), run, Waiting)
      modifies this`processes, this`runs
      ensures Valid() && run in runs && runs[run].session !in processes
      ensures View() == Effect(old(View()), if result.Some? then WaitReturns(run, result.value) else WaitRaises(run))
      ensures EndedBy(View(), run, Crashed) <==> result.None?
      ensures result.Some? ==> runs == old(runs)[run := Run(old(runs)[run].session, Emitting(result.value))]
      ensures result.None? ==> runs == old(runs)[run := Run(old(runs)[run].session, Finished(Crashed, false))]
      ensures processes == old(processes) - {runs[run].session}
    {
      StepKeepsValid(View(), if result.Some? then WaitReturns(run, result.value) else WaitRaises(run));
      processes := processes - {runs[run].session};
      var phase := if result.Some? then Emitting(result.value) else Finished(Crashed, false);
      runs := runs[run := runs[run].(phase := phase)];
    }

    method OnEndEmitted(run: RunId, raised: bool)
      requires Valid() && run in runs && runs[run].phase.Emitting?
      modifies this`runs, this`emitted
      ensures Valid() && View() == Effect(old(View()), if raised then EmitRaises(run) else EmitsEnd(run))
      ensures emitted == old(emitted) + if raised then [] else [Ended(run, old(runs)[run].phase.ok)]
      ensures var end := if raised then Unsent(old(runs)[run].phase.ok) else Natural(old(runs)[run].phase.ok);
              runs == old(runs)[run := Run(old(runs)[run].session, Finished(end, false))]
    {
      StepKeepsValid(View(), if raised then EmitRaises(run) else EmitsEnd(run));
      var ok := runs[run].phase.ok;
      if !raised {
        emitted := emitted + [Ended(run, ok)];
      }
      runs := runs[run := runs[run].(phase := Finished(if raised then Unsent(ok) else Natural(ok), false))];
    }

    /** The done callbacks. They unfile whatever task is filed under the session: a run of it that is
        still waiting is then beyond the reach of a stop. */
    method OnDone(run: RunId)
      requires Valid() && run in runs && runs[run].phase.Finished? && !runs[run].phase.calledBack
      modifies this`tasks, this`sessionTasks, this`runs
      ensures Valid() && View() == Effect(old(View()), CallsBack(run))
      ensures run !in tasks && Over(runs[run])
      ensures tasks == old(tasks) - {run} && sessionTasks == old(sessionTasks) - {old(runs)[run].session}
      ensures runs == old(runs)[run := Run(old(runs)[run].session, Finished(old(runs)[run].phase.end, true))]
      ensures SomeWait(old(View()), runs[run].session) ==> Stray(View(), runs[run].session)
    {
      ghost var before := View();
      StepKeepsValid(View(), CallsBack(run));
      var session := runs[run].session;
      tasks := tasks - {run};
      sessionTasks := sessionTasks - {session};
      runs := runs[run := runs[run].(phase := Finished(runs[run].phase.end, true))];
      if other :| Waits(before, other, session) {
        assert Waits(View(), other, session);
      }
    }

    // -------------------------------------------------------------- stop

    /** Both entries are taken. The filed run is cancelled if it is filed as process and as task; a
        run of the session goes on waiting exactly if it was stray, and no other session is touched. */
    method BeginStop(session: Id)
      requires Valid() && busy.Idle?
      modifies this
      ensures Valid() && View() == Effect(old(View()), AgentHandler.BeginStop(session))
      ensures session !in processes && session !in sessionTasks
      ensures SomeWait(View(), session) <==> Stray(old(View()), session)
      ensures runs.Keys == old(runs).Keys
      ensures forall r | r in runs :: runs[r] == old(runs)[r] || Waits(old(View()), r, session)
      ensures processes == old(processes) - {session} && sessionTasks == old(sessionTasks) - {session}
      ensures stopped == old(stopped) + [session] && tasks == old(tasks) && emitted == old(emitted)
      ensures session !in old(processes) ==> runs == old(runs) && busy == EmittingStop(session, |old(stopped)|)
      ensures session in old(processes) && session in old(sessionTasks) ==>
                var run := old(sessionTasks)[session];
                runs == old(runs)[run := Run(session, Cancelling)] && busy == AwaitingTask(session, run, |old(stopped)|)
      ensures session in old(processes) && session !in old(sessionTasks) ==>
                runs == old(runs) && busy == Terminating(session, |old(stopped)|)
    {
      ghost var before := View();
      assert EntriesAgree(before, session);
      StopLeavesStrays(before, session);
      StepKeepsValid(before, AgentHandler.BeginStop(session));
      var process := if session in processes then Some(processes[session]) else None;
      var task := if session in sessionTasks then Some(sessionTasks[session]) else None;
      processes := processes - {session};
      sessionTasks := sessionTasks - {session};
      var stop := |stopped|;
      stopped := stopped + [session];
      if process.None? {
        busy := EmittingStop(session, stop);
        return;
      }
      if task.Some? && !runs[task.value].phase.Finished? {
        runs := runs[task.value := runs[task.value].(phase := Cancelling)];
        killedBy := killedBy[task.value := stop];
        busy := AwaitingTask(session, task.value, stop);
      } else {
        busy := Terminating(session, stop);
      }
    }

    /** The cancellation reaches the run. */
    method OnCancelled(run: RunId)
      requires Valid() && InPhase(View(), run, Cancelling)
      modifies this`processes, this`runs
      ensures Valid() && View() == Effect(old(View()), CancelTakes(run))
      ensures run in killedBy && killedBy[run] < |stopped| && stopped[killedBy[run]] == runs[run].session
      ensures runs == old(runs)[run := Run(old(runs)[run].session, Finished(Killed, false))]
      ensures processes == old(processes) - {runs[run].session}
    {
      assert KillExplained(View(), run);
      StepKeepsValid(View(), CancelTakes(run));
      processes := processes - {runs[run].session};
      runs := runs[run := runs[run].(phase := Finished(Killed, false))];
    }

    /** The cancelled task is done; the stop goes on to terminate its process. */
    method OnTaskDone()
      requires Valid() && Enabled(View(), StopResumes)
      modifies this`busy
      ensures Valid() && View() == Effect(old(View()), StopResumes)
      ensures busy == Terminating(old(busy).session, old(busy).stop) && Over(runs[old(busy).run])
    {
      StepKeepsValid(View(), StopResumes);
      busy := Terminating(busy.session, busy.stop);
    }

    method OnTerminated()
      requires Valid() && busy.Terminating?
      modifies this`busy
      ensures Valid() && View() == Effect(old(View()), Terminated)
      ensures busy == EmittingStop(old(busy).session, old(busy).stop)
    {
      StepKeepsValid(View(), Terminated);
      busy := EmittingStop(busy.session, busy.stop);
    }

    /** The stopped event is out: the stop's first and only one. */
    method OnStopEmitted()
      requires Valid() && busy.EmittingStop?
      modifies this`busy, this`emitted
      ensures Valid() && View() == Effect(old(View()), StopEmits)
      ensures |stopped| > 0 && StopCounted(View(), |stopped| - 1)
      ensures Count(emitted, StopDone(stopped[|stopped| - 1], |stopped| - 1)) == 1
      ensures emitted == old(emitted) + [StopDone(old(busy).session, old(busy).stop)] && busy.Idle?
    {
      assert BusyOk(View());
      StepKeepsValid(View(), StopEmits);
      emitted := emitted + [StopDone(busy.session, busy.stop)];
      busy := Idle;
      assert StopCounted(View(), |stopped| - 1);
    }

    /** An emission or termination raised, or the connection ended: a stop in hand is abandoned. */
    method OnHandlerLeft()
      requires Valid() && Enabled(View(), HandlerLeaves)
      modifies this`busy, this`abandoned
      ensures Valid() && busy.Idle? && View() == Effect(old(View()), HandlerLeaves)
    {
      StepKeepsValid(View(), HandlerLeaves);
      if StopInHand(View()).Some? {
        abandoned := abandoned + {StopInHand(View()).value};
      }
      busy := Idle;
    }
  }

  lemma StepKeepsValid(st: State, step: Step)
    requires RunConservation.Inv(st) && forall run :: TaskHeld(st, run)
    ensures RunConservation.Inv(Next(st, step)) && forall run :: TaskHeld(Next(st, step), run)
  {
    StepKeepsEntries(st, step);
    StepKeepsEnds(st, step);
    StepKeepsKills(st, step);
    StepKeepsStops(st, step);
    forall run ensures TaskHeld(Next(st, step), run) {
      StepKeepsTask(st, step, run);
    }
  }
}
