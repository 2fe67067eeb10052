/** The host worker's devcontainer commands: what each emits, and what that makes of the status. */
module Lifecycle {
  import opened Vocabulary
  import opened Tables
  import opened Reducer
  import opened Intake
  import opened Routes

  function HostEvent(kind: EventType, devcontainerId: Option<Id>): RuntimeEvent {
    RuntimeEvent("", devcontainerId, None, kind, HostRuntimeWorker, None, "")
  }

  /** What the devcontainer tool does when it is called. */
  datatype AdapterResult = Succeeds | Fails | Raises

  /** A connection that is lost lets no further emission through: the next one raises. A lost
      connection also cancels the handler while it waits for the tool, which is then as if it raised. */
  class DevcontainerCommandHandler {
    var emitted: seq<RuntimeEvent>

    constructor ()
      ensures emitted == []
    {
      emitted := [];
    }

    method Emit(kind: EventType, devcontainerId: Option<Id>, sends: bool) returns (raised: bool)
      modifies this
      ensures raised == !sends
      ensures emitted == if sends then old(emitted) + [HostEvent(kind, devcontainerId)] else old(emitted)
    {
      raised := !sends;
      if sends {
        emitted := emitted + [HostEvent(kind, devcontainerId)];
      }
    }

    /** `sends` is how many emissions go through. What is told is all of this command's devcontainer: that
        it is on its way, then where the tool left it; or only that it failed, for want of a path. */
    method Handle(command: Command, adapter: AdapterResult, sends: nat) returns (raised: bool)
      modifies this
      ensures emitted == old(emitted) + Trace(command, adapter, sends)
      ensures raised <==> LeavesEarly(command, adapter, sends)
      ensures
        var told := emitted[|old(emitted)|..];
        var starts := command.kind.StartDevcontainer?;
        var given := if command.payload.Some? then command.payload.value.localPath else None;
        var path := given.Some? && given.value != "";
        var named := command.devcontainerId.Some? && command.devcontainerId.value != "";
        var wanted: nat := if !starts && !command.kind.StopDevcontainer? then 0
                           else if !path then (if named then 1 else 0)
                           else if adapter.Raises? then 1 else 2;
        && old(emitted) <= emitted
        && |told| == (if wanted < sends then wanted else sends)
        && (forall e | e in told :: e.source.HostRuntimeWorker? && e.agentSessionId.None?
                                    && e.devcontainerId == command.devcontainerId)
        && (told != [] && !path ==> told[0].eventType.DevcontainerFailed?)
        && (told != [] && path ==>
              told[0].eventType == if starts then DevcontainerStarting else DevcontainerStopping)
        && (|told| == 2 && adapter.Fails? ==> told[1].eventType.DevcontainerFailed?)
        && (|told| == 2 && adapter.Succeeds? ==>
              told[1].eventType == if starts then DevcontainerStarted else DevcontainerStopped)
        && (raised <==> |told| < wanted || (wanted > 0 && path && adapter.Raises?))
    {
      raised := false;
      match command.kind
      case StartDevcontainer =>
        raised := Dispatch(command, adapter, sends, DevcontainerStarting, DevcontainerStarted);
      case StopDevcontainer =>
        raised := Dispatch(command, adapter, sends, DevcontainerStopping, DevcontainerStopped);
      case _ =>
    }

    method Dispatch(command: Command, adapter: AdapterResult, sends: nat, pre: EventType, success: EventType)
      returns (raised: bool)
      modifies this
      ensures emitted == old(emitted) + FirstOf(DispatchTrace(command, adapter, pre, success), sends)
      ensures raised <==> |DispatchTrace(command, adapter, pre, success)| > sends
                          || (Truthy(LocalPath(command)) && adapter.Raises?)
    {
      if !Truthy(LocalPath(command)) {
        raised := false;
        if Truthy(command.devcontainerId) {
          raised := Emit(DevcontainerFailed, command.devcontainerId, sends > 0);
        }
        return;
      }
      raised := Emit(pre, command.devcontainerId, sends > 0);
      if raised || adapter.Raises? {
        return true;
      }
      var end := if adapter.Succeeds? then success else DevcontainerFailed;
      raised := Emit(end, command.devcontainerId, sends > 1);
    }
  }

  function LocalPath(command: Command): Option<string> {
    if command.payload.Some? then command.payload.value.localPath else None
  }

  predicate IsLifecycle(command: Command) {
    command.kind.StartDevcontainer? || command.kind.StopDevcontainer?
  }

  function FirstOf(events: seq<RuntimeEvent>, n: nat): seq<RuntimeEvent> {
    if |events| <= n then events else events[..n]
  }

  /** What would be emitted if every emission went through. */
  function DispatchTrace(command: Command, adapter: AdapterResult, pre: EventType, success: EventType)
    : seq<RuntimeEvent>
  {
    var d := command.devcontainerId;
    if Truthy(LocalPath(command)) then
      match adapter
      case Succeeds => [HostEvent(pre, d), HostEvent(success, d)]
      case Fails => [HostEvent(pre, d), HostEvent(DevcontainerFailed, d)]
      case Raises => [HostEvent(pre, d)]
    else if Truthy(d) then [HostEvent(DevcontainerFailed, d)]
    else []
  }

  function FullTrace(command: Command, adapter: AdapterResult): seq<RuntimeEvent> {
    match command.kind
    case StartDevcontainer => DispatchTrace(command, adapter, DevcontainerStarting, DevcontainerStarted)
    case StopDevcontainer => DispatchTrace(command, adapter, DevcontainerStopping, DevcontainerStopped)
    case _ => []
  }

  function Trace(command: Command, adapter: AdapterResult, sends: nat): seq<RuntimeEvent> {
    FirstOf(FullTrace(command, adapter), sends)
  }

  predicate LeavesEarly(command: Command, adapter: AdapterResult, sends: nat) {
    |FullTrace(command, adapter)| > sends
    || (IsLifecycle(command) && Truthy(LocalPath(command)) && adapter.Raises?)
  }

  // ---------------------------------------------------------------- projected in order

  /** A command handled, to its end or not: what the tool did, how many emissions went through, and
      the stamps its (at most two) events get. */
  datatype Handled = Handled(command: Command, adapter: AdapterResult, sends: nat, stamps: seq<Stamps>)

  function TraceOf(h: Handled): seq<RuntimeEvent> {
    Trace(h.command, h.adapter, h.sends)
  }

  function ReceiveAll(db: Db, events: seq<RuntimeEvent>, stamps: seq<Stamps>): Db
    requires |events| <= |stamps|
    decreases |events|
  {
    if events == [] then db else ReceiveAll(AfterIntake(db, events[0], stamps[0]), events[1..], stamps[1..])
  }

  function AfterCommand(db: Db, h: Handled): Db {
    var events := TraceOf(h);
    if |events| <= |h.stamps| then ReceiveAll(db, events, h.stamps) else db
  }

  function AfterCommands(db: Db, work: seq<Handled>): Db {
    if work == [] then db else AfterCommand(AfterCommands(db, work[..|work| - 1]), work[|work| - 1])
  }

  predicate Stamped(work: seq<Handled>) {
    forall h | h in work :: |h.stamps| >= 2
  }

  predicate InTransit(status: DevcontainerStatus) {
    status.Starting? || status.Stopping?
  }

  /** Something of the command got through about this devcontainer. */
  predicate Touches(h: Handled, devcontainer: Id) {
    h.command.devcontainerId == Some(devcontainer) && TraceOf(h) != []
  }

  /** The handler left between the pre-event and the end: the tool raised or was cut off, or the last
      emission did not go through. */
  predicate CutShort(h: Handled) {
    && IsLifecycle(h.command) && Truthy(LocalPath(h.command))
    && h.sends > 0 && (h.adapter.Raises? || h.sends == 1)
  }

  /** The status a touching command leaves its devcontainer in. */
  function Leaves(h: Handled): DevcontainerStatus {
    if !Truthy(LocalPath(h.command)) then Error
    else if CutShort(h) then
      if h.command.kind.StartDevcontainer? then DevcontainerStatus.Starting else Stopping
    else if h.adapter.Fails? then Error
    else if h.command.kind.StartDevcontainer? then DevcontainerStatus.Running
    else DevcontainerStatus.Stopped
  }

  function LastTouch(work: seq<Handled>, devcontainer: Id): Option<Handled> {
    if work == [] then None
    else if Touches(work[|work| - 1], devcontainer) then Some(work[|work| - 1])
    else LastTouch(work[..|work| - 1], devcontainer)
  }

  lemma HostEventSetsStatus(db: Db, kind: EventType, d: Option<Id>, s: Stamps, id: Id)
    requires DevcontainerNews(kind).Some? && id in db.devcontainers
    ensures
      var db' := AfterIntake(db, HostEvent(kind, d), s);
      && db'.devcontainers.Keys == db.devcontainers.Keys
      && db'.devcontainers[id].status
         == if d == Some(id) then DevcontainerNews(kind).value else db.devcontainers[id].status
  {
    var e := Recorded(HostEvent(kind, d), s);
    assert Reduce(e).Success? && Reduce(e).value == ProjectionUpdates(devcontainerStatus := DevcontainerNews(kind));
  }

  lemma ReceiveOneOrTwo(db: Db, events: seq<RuntimeEvent>, stamps: seq<Stamps>)
    requires 1 <= |events| <= 2 <= |stamps|
    ensures
      var db1 := AfterIntake(db, events[0], stamps[0]);
      ReceiveAll(db, events, stamps) == if |events| == 1 then db1 else AfterIntake(db1, events[1], stamps[1])
  {
    var db1 := AfterIntake(db, events[0], stamps[0]);
    assert ReceiveAll(db, events, stamps) == ReceiveAll(db1, events[1..], stamps[1..]);
    if |events| == 2 {
      assert ReceiveAll(db1, events[1..], stamps[1..]) == AfterIntake(db1, events[1], stamps[1]);
    }
  }

  lemma CommandSettles(db: Db, h: Handled, id: Id)
    requires id in db.devcontainers && |h.stamps| >= 2
    ensures id in AfterCommand(db, h).devcontainers
    ensures AfterCommand(db, h).devcontainers[id].status
            == if Touches(h, id) then Leaves(h) else db.devcontainers[id].status
  {
    var events := TraceOf(h);
    if events != [] {
      TraceSettles(h);
      ReceiveOneOrTwo(db, events, h.stamps);
      EventsSetStatus(db, h, id);
    }
  }

  /** The last event through is about the command's devcontainer and says what the command leaves. */
  lemma TraceSettles(h: Handled)
    requires TraceOf(h) != []
    ensures |TraceOf(h)| <= 2
    ensures forall e | e in TraceOf(h) ::
              DevcontainerNews(e.eventType).Some? && e == HostEvent(e.eventType, h.command.devcontainerId)
    ensures DevcontainerNews(TraceOf(h)[|TraceOf(h)| - 1].eventType) == Some(Leaves(h))
  {
  }

  lemma EventsSetStatus(db: Db, h: Handled, id: Id)
    requires id in db.devcontainers && TraceOf(h) != [] && |h.stamps| >= 2
    ensures id in AfterCommand(db, h).devcontainers
    ensures AfterCommand(db, h).devcontainers[id].status
            == if h.command.devcontainerId == Some(id) then Leaves(h) else db.devcontainers[id].status
  {
    var events, d := TraceOf(h), h.command.devcontainerId;
    TraceSettles(h);
    ReceiveOneOrTwo(db, events, h.stamps);
    assert events[0] in events;
    HostEventSetsStatus(db, events[0].eventType, d, h.stamps[0], id);
    if |events| == 2 {
      assert events[1] in events;
      HostEventSetsStatus(AfterIntake(db, events[0], h.stamps[0]), events[1].eventType, d, h.stamps[1], id);
    }
  }

  /** After any sequence of commands, handled to their ends or not and projected in order, each
      devcontainer has the status its last touching command left it in, or its old one. */
  lemma {:induction false} StatusFollowsLastTouch(db: Db, work: seq<Handled>, id: Id)
    requires id in db.devcontainers && Stamped(work)
    ensures id in AfterCommands(db, work).devcontainers
    ensures AfterCommands(db, work).devcontainers[id].status
            == if LastTouch(work, id).Some? then Leaves(LastTouch(work, id).value) else db.devcontainers[id].status
  {
    if work != [] {
      var front := work[..|work| - 1];
      assert forall h | h in front :: h in work;
      StatusFollowsLastTouch(db, front, id);
      CommandSettles(AfterCommands(db, front), work[|work| - 1], id);
    }
  }

  lemma {:induction false} LastTouchTouches(work: seq<Handled>, id: Id)
    ensures LastTouch(work, id).Some? ==> LastTouch(work, id).value in work && Touches(LastTouch(work, id).value, id)
  {
    if work != [] {
      LastTouchTouches(work[..|work| - 1], id);
    }
  }

  /** A devcontainer is left starting or stopping exactly if its last touching command was cut short,
      or none touched it and it was so before. */
  lemma StatusSettlesExactly(db: Db, work: seq<Handled>, id: Id)
    requires id in db.devcontainers && Stamped(work)
    ensures id in AfterCommands(db, work).devcontainers
    ensures
      var last := LastTouch(work, id);
      InTransit(AfterCommands(db, work).devcontainers[id].status)
      <==> if last.Some? then CutShort(last.value) else InTransit(db.devcontainers[id].status)
  {
    StatusFollowsLastTouch(db, work, id);
    LastTouchTouches(work, id);
  }

  /** Commands that the tool answers and whose events all get through never leave it so. */
  lemma StatusSettles(db: Db, work: seq<Handled>, id: Id)
    requires id in db.devcontainers && Stamped(work)
    requires forall h | h in work :: !LeavesEarly(h.command, h.adapter, h.sends)
    ensures id in AfterCommands(db, work).devcontainers
    ensures InTransit(AfterCommands(db, work).devcontainers[id].status) ==>
              LastTouch(work, id).None?
              && AfterCommands(db, work).devcontainers[id].status == db.devcontainers[id].status
  {
    StatusFollowsLastTouch(db, work, id);
    StatusSettlesExactly(db, work, id);
    LastTouchTouches(work, id);
  }

  // ---------------------------------------------------------------- the lifecycle routes

  /** One of the two routes takes a devcontainer further exactly if it is not starting or stopping. */
  lemma SomeRouteIsOpen(db: Db, d: Id)
    requires d in db.devcontainers
    ensures StartDevcontainerRoute(db, d, true).Success? || StopDevcontainerRoute(db, d, true).Success?
            <==> !InTransit(db.devcontainers[d].status)
  {
  }

  /** A start that is cut short leaves a devcontainer that neither route takes any further. */
  lemma CutStartSticks(db: Db, d: Id, adapter: AdapterResult, sends: nat, stamps: seq<Stamps>)
    requires StartDevcontainerRoute(db, d, true).Success? && |stamps| >= 2 && db.devcontainers[d].localPath != ""
    requires sends > 0 && (adapter.Raises? || sends == 1)
    ensures
      var h := Handled(StartDevcontainerRoute(db, d, true).value.sent.value, adapter, sends, stamps);
      var db' := AfterCommand(db, h);
      && CutShort(h)
      && d in db'.devcontainers && db'.devcontainers[d].status.Starting?
      && StartDevcontainerRoute(db', d, true) == Failure(InvalidDevcontainerState)
      && StopDevcontainerRoute(db', d, true) == Failure(InvalidDevcontainerState)
  {
    var h := Handled(StartDevcontainerRoute(db, d, true).value.sent.value, adapter, sends, stamps);
    CommandSettles(db, h, d);
  }
}
