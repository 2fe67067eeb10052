/** Slot ownership over any number of concurrent serve loops, one per accepted socket. */
module SlotOwnership {
  import opened Vocabulary
  import opened Registry
  import opened Serve

  datatype Loop = Loop(endpoint: Endpoint, phase: Phase)

  /** `news` are the runtime broadcasts, `taken` the events handed to intake, with their socket. */
  datatype State = State(
    worker: Slots,
    agents: Slots,
    loops: map<SocketId, Loop>,
    news: seq<SseEvent>,
    taken: seq<(SocketId, RuntimeEvent)>)

  const START := State(NO_SLOTS, NO_SLOTS, map[], [], [])

  datatype Step =
    | Accepts(ws: SocketId, endpoint: Endpoint)
    | Receives(ws: SocketId, message: Message)
    | Disconnects(ws: SocketId)
    | RequestsTranscript(id: Id, devcontainer: Id)

  function SlotsOf(st: State, endpoint: Endpoint): Slots {
    if endpoint.Worker? then st.worker else st.agents
  }

  function WithSlots(st: State, endpoint: Endpoint, slots: Slots): State {
    if endpoint.Worker? then st.(worker := slots) else st.(agents := slots)
  }

  predicate Open(st: State, ws: SocketId) {
    ws in st.loops && !st.loops[ws].phase.Closed?
  }

  function Registers(st: State, ws: SocketId, source: Source, devcontainerId: Option<Id>): State
    requires Open(st, ws)
  {
    var loop := st.loops[ws];
    if loop.phase.Claimed? then st
    else
      var slots := SlotsOf(st, loop.endpoint);
      var phase := PhaseAfterRegistration(slots, loop.endpoint, source, devcontainerId);
      var st' := st.(loops := st.loops[ws := loop.(phase := phase)]);
      if phase.Claimed? then
        WithSlots(st', loop.endpoint, Claim(slots, phase.key, ws))
        .(news := st.news + [ConnectionNews(loop.endpoint, phase.key)])
      else st'
  }

  function Hears(st: State, ws: SocketId, m: Message): State
    requires Open(st, ws)
  {
    var loop := st.loops[ws];
    match m
    case Ignored => st
    case Registered(source, devcontainerId) => Registers(st, ws, source, devcontainerId)
    case TranscriptResponse(id, turns) =>
      if loop.phase.Claimed? && loop.endpoint.Agent? then st.(agents := Resolve(st.agents, id, turns)) else st
    case Event(e) => if loop.phase.Claimed? then st.(taken := st.taken + [(ws, e)]) else st
  }

  function Leaves(st: State, ws: SocketId): State
    requires Open(st, ws)
  {
    var loop := st.loops[ws];
    match loop.phase
    case Claimed(key) =>
      WithSlots(st, loop.endpoint, Unregister(SlotsOf(st, loop.endpoint), key, ws))
      .(loops := st.loops[ws := loop.(phase := Closed(Some(key), None))],
        news := st.news + [ConnectionNews(loop.endpoint, key)])
    case _ => st.(loops := st.loops[ws := loop.(phase := Closed(None, None))])
  }

  /** Steps that cannot be taken change nothing. Sockets are distinct: none is accepted twice. */
  function Next(st: State, step: Step): State {
    match step
    case Accepts(ws, endpoint) =>
      if ws in st.loops then st else st.(loops := st.loops[ws := Loop(endpoint, Unregistered)])
    case Receives(ws, m) => if Open(st, ws) then Hears(st, ws, m) else st
    case Disconnects(ws) => if Open(st, ws) then Leaves(st, ws) else st
    case RequestsTranscript(id, d) =>
      if d in st.agents.connections && id !in st.agents.futures
      then st.(agents := OpenRequest(st.agents, id, st.agents.connections[d])) else st
  }

  function Execute(steps: seq<Step>): State {
    if steps == [] then START else Next(Execute(steps[..|steps| - 1]), steps[|steps| - 1])
  }

  // ---------------------------------------------------------------- ownership

  predicate Owns(st: State, ws: SocketId, endpoint: Endpoint, key: Id) {
    ws in st.loops && st.loops[ws] == Loop(endpoint, Claimed(key))
  }

  predicate HasClaimed(loop: Loop) {
    loop.phase.Claimed? || HasFreed(loop)
  }

  predicate HasFreed(loop: Loop) {
    loop.phase.Closed? && loop.phase.freed.Some?
  }

  function EverClaimed(loops: map<SocketId, Loop>): set<SocketId> {
    set ws | ws in loops && HasClaimed(loops[ws])
  }

  function ClaimedAndClosed(loops: map<SocketId, Loop>): set<SocketId> {
    set ws | ws in loops && HasFreed(loops[ws])
  }

  ghost predicate SlotsMatchLoops(st: State) {
    forall ws, endpoint, key :: Holds(SlotsOf(st, endpoint), key, ws) <==> Owns(st, ws, endpoint, key)
  }

  ghost predicate Inv(st: State) {
    SlotsMatchLoops(st) && |st.news| == |EverClaimed(st.loops)| + |ClaimedAndClosed(st.loops)|
  }

  function One(b: bool): nat {
    if b then 1 else 0
  }

  /** A step leaves all loops and the news alone, or moves one loop that has not freed a slot, with
      one piece of news if it claims now and one if it frees now. */
  ghost predicate MovesOneLoop(st: State, st': State, ws: SocketId) {
    && ws in st'.loops && st'.loops == st.loops[ws := st'.loops[ws]]
    && (ws in st.loops ==> !HasFreed(st.loops[ws]))
    && (ws in st.loops && HasClaimed(st.loops[ws]) ==> HasClaimed(st'.loops[ws]))
    && |st'.news| == |st.news| + One(HasFreed(st'.loops[ws]))
                     + One(HasClaimed(st'.loops[ws]) && !(ws in st.loops && HasClaimed(st.loops[ws])))
  }

  lemma StepMovesOneLoop(st: State, step: Step)
    ensures (Next(st, step).loops == st.loops && Next(st, step).news == st.news)
            || (!step.RequestsTranscript? && MovesOneLoop(st, Next(st, step), step.ws))
  {
  }

  lemma MovingCountsNews(st: State, st': State, ws: SocketId)
    requires |st.news| == |EverClaimed(st.loops)| + |ClaimedAndClosed(st.loops)|
    requires MovesOneLoop(st, st', ws)
    ensures |st'.news| == |EverClaimed(st'.loops)| + |ClaimedAndClosed(st'.loops)|
  {
    if HasFreed(st'.loops[ws]) {
      assert ClaimedAndClosed(st'.loops) == ClaimedAndClosed(st.loops) + {ws};
    } else {
      assert ClaimedAndClosed(st'.loops) == ClaimedAndClosed(st.loops);
    }
    if HasClaimed(st'.loops[ws]) {
      assert EverClaimed(st'.loops) == EverClaimed(st.loops) + {ws};
    } else {
      assert EverClaimed(st'.loops) == EverClaimed(st.loops);
    }
  }

  lemma StepKeepsSlots(st: State, step: Step)
    requires SlotsMatchLoops(st)
    ensures SlotsMatchLoops(Next(st, step))
  {
    var st' := Next(st, step);
    forall ws, endpoint, key
      ensures Holds(SlotsOf(st', endpoint), key, ws) <==> Owns(st', ws, endpoint, key)
    {
      assert Holds(SlotsOf(st, endpoint), key, ws) <==> Owns(st, ws, endpoint, key);
      if step.Disconnects? || step.Receives? {
        assert Holds(SlotsOf(st, endpoint), key, step.ws) <==> Owns(st, step.ws, endpoint, key);
      }
    }
  }

  /** In every reachable state a slot maps to a socket exactly when that socket's loop is live and
      claimed it, and runtime broadcasts number one per claim plus one per claimed loop that ended. */
  lemma {:induction false} SlotsAreOwned(steps: seq<Step>)
    ensures Inv(Execute(steps))
  {
    if steps != [] {
      var front := steps[..|steps| - 1];
      SlotsAreOwned(front);
      StepKeepsSlots(Execute(front), steps[|steps| - 1]);
      StepMovesOneLoop(Execute(front), steps[|steps| - 1]);
      if Execute(steps).loops != Execute(front).loops || Execute(steps).news != Execute(front).news {
        MovingCountsNews(Execute(front), Execute(steps), steps[|steps| - 1].ws);
      }
    }
  }

  /** A registration on a free slot claims it, and says so once; any other changes no slot, says nothing,
      and ends the loop with its code. */
  lemma RegistrationIsAnswered(st: State, ws: SocketId, source: Source, devcontainerId: Option<Id>)
    requires Open(st, ws) && st.loops[ws].phase.Unregistered?
    ensures
      var st' := Next(st, Receives(ws, Registered(source, devcontainerId)));
      var endpoint := st.loops[ws].endpoint;
      var named := source.DevcontainerRuntimeAgent? && devcontainerId.Some? && devcontainerId.value != "";
      var key := if endpoint.Worker? then "worker" else if named then devcontainerId.value else "";
      if endpoint.Agent? && !named then
        st' == st.(loops := st.loops[ws := Loop(endpoint, Closed(None, Some(4400)))])
      else if key in SlotsOf(st, endpoint).connections then
        st' == st.(loops := st.loops[ws := Loop(endpoint, Closed(None, Some(4409)))])
      else
        && Owns(st', ws, endpoint, key) && Holds(SlotsOf(st', endpoint), key, ws)
        && st'.news == st.news + [SseEvent(Runtime, if endpoint.Worker? then [] else [key])]
        && st'.taken == st.taken
        && forall other | other != ws && other in st.loops :: other in st'.loops && st'.loops[other] == st.loops[other]
  {
  }

  /** Once claimed, a loop is heard until it disconnects: of its events every one is taken in, and of any
      other socket's none. */
  lemma EventsAreTakenExactly(st: State, ws: SocketId, e: RuntimeEvent)
    ensures Next(st, Receives(ws, Event(e))).taken
            == st.taken + if exists endpoint, key :: Owns(st, ws, endpoint, key) then [(ws, e)] else []
  {
    if Open(st, ws) && st.loops[ws].phase.Claimed? {
      assert Owns(st, ws, st.loops[ws].endpoint, st.loops[ws].phase.key);
    }
  }

  /** A transcript asked of a connected agent is answered by the reply of a loop that holds an agent's slot,
      and by no other. */
  lemma RepliesAreHeardFromAgents(st: State, id: Id, d: Id, ws: SocketId, turns: Turns)
    requires d in st.agents.connections && id !in st.agents.futures
    ensures
      var st1 := Next(st, RequestsTranscript(id, d));
      var st2 := Next(st1, Receives(ws, TranscriptResponse(id, turns)));
      && IsPending(st1.agents, id) && id in st1.agents.inflight && st1.agents.inflight[id] == st.agents.connections[d]
      && id in st2.agents.futures
      && st2.agents.futures[id] == if exists key :: Owns(st, ws, Agent, key) then Value(turns) else Future.Pending
  {
    if Open(st, ws) && st.loops[ws].phase.Claimed? && st.loops[ws].endpoint.Agent? {
      assert Owns(st, ws, Agent, st.loops[ws].phase.key);
    }
  }

  /** From acceptance to intake, and back to a free slot: an agent that registers on a free slot is heard,
      its disconnect is announced and frees the slot for the next one. */
  lemma AgentComesAndGoes(st: State, ws: SocketId, d: Id, e: RuntimeEvent)
    requires ws !in st.loops && d != "" && d !in st.agents.connections
    ensures
      var st1 := Next(Next(st, Accepts(ws, Agent)), Receives(ws, Registered(DevcontainerRuntimeAgent, Some(d))));
      var st2 := Next(st1, Receives(ws, Event(e)));
      var st3 := Next(st2, Disconnects(ws));
      && Holds(st1.agents, d, ws)
      && st2.taken == st.taken + [(ws, e)]
      && d !in st3.agents.connections
      && st3.news == st.news + [SseEvent(Runtime, [d]), SseEvent(Runtime, [d])]
  {
    var st0 := Next(st, Accepts(ws, Agent));
    RegistrationIsAnswered(st0, ws, DevcontainerRuntimeAgent, Some(d));
    EventsAreTakenExactly(Next(st0, Receives(ws, Registered(DevcontainerRuntimeAgent, Some(d)))), ws, e);
  }

  /** A slot is lost only by the disconnect of the loop that claimed it, and an event is taken in
      only from a loop that holds its slot: rejected and unregistered loops do neither. */
  lemma OnlyOwnersActOnSlots(steps: seq<Step>, step: Step, endpoint: Endpoint, key: Id, ws: SocketId)
    ensures
      var st, st' := Execute(steps), Next(Execute(steps), step);
      && (Holds(SlotsOf(st, endpoint), key, ws) && !Holds(SlotsOf(st', endpoint), key, ws) ==>
            step == Disconnects(ws) && Owns(st, ws, endpoint, key))
      && (st'.taken != st.taken ==>
            step.Receives? && step.message.Event? && st'.taken == st.taken + [(step.ws, step.message.event)]
            && exists e, k :: Owns(st, step.ws, e, k) && Holds(SlotsOf(st, e), k, step.ws))
  {
    SlotsAreOwned(steps);
    var st, st' := Execute(steps), Next(Execute(steps), step);
    assert Holds(SlotsOf(st, endpoint), key, ws) <==> Owns(st, ws, endpoint, key);
    StepKeepsSlots(st, step);
    assert Holds(SlotsOf(st', endpoint), key, ws) <==> Owns(st', ws, endpoint, key);
    if st'.taken != st.taken {
      var loop := st.loops[step.ws];
      assert Owns(st, step.ws, loop.endpoint, loop.phase.key);
    }
  }
}
