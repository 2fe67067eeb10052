/** Transcript requests under every interleaving of claims, drops, requests, replies and timeouts.
    One step is the code between two awaits. */
module TranscriptRpc {
  import opened Vocabulary
  import opened Registry

  datatype Reply = Delivered(turns: Turns) | ConnectionDropped | TimedOut | SendFailed

  /** A caller is suspended while it sends its request and while it waits for the future. */
  datatype Phase = Sending | Waiting | Done(reply: Reply)

  datatype Caller = Caller(devcontainer: Id, socket: SocketId, phase: Phase)

  datatype State = State(slots: Slots, callers: map<Id, Caller>)

  const START := State(NO_SLOTS, map[])

  datatype Step =
    | Registers(key: Id, ws: SocketId)
    | Unregisters(key: Id, ws: SocketId)
    | Requests(devcontainer: Id, id: Id)
    | Sent(id: Id)
    | SendFails(id: Id)
    | Replies(id: Id, turns: Turns)
    | Wakes(id: Id)
    | TimesOut(id: Id)

  predicate Suspended(st: State, id: Id) {
    id in st.callers && !st.callers[id].phase.Done?
  }

  predicate InPhase(st: State, id: Id, phase: Phase) {
    id in st.callers && st.callers[id].phase == phase
  }

  /** A request without a connection raises at once; request ids are fresh. A wait may time out even
      when its future has just been settled. */
  predicate Enabled(st: State, step: Step) {
    match step
    case Registers(_, _) => true
    case Unregisters(_, _) => true
    case Requests(d, id) => d in st.slots.connections && id !in st.slots.futures && id !in st.callers
    case Sent(id) => InPhase(st, id, Sending)
    case SendFails(id) => InPhase(st, id, Sending)
    case Replies(_, _) => true
    case Wakes(id) => InPhase(st, id, Waiting) && id in st.slots.futures
                      && (st.slots.futures[id].Value? || st.slots.futures[id].Dropped?)
    case TimesOut(id) => InPhase(st, id, Waiting)
  }

  function Finish(st: State, id: Id, reply: Reply, gaveUp: bool): State
    requires id in st.callers
  {
    State(CloseRequest(st.slots, id, gaveUp), st.callers[id := st.callers[id].(phase := Done(reply))])
  }

  function Effect(st: State, step: Step): State
    requires Enabled(st, step)
  {
    match step
    case Registers(key, ws) => st.(slots := Claim(st.slots, key, ws))
    case Unregisters(key, ws) => st.(slots := Unregister(st.slots, key, ws))
    case Requests(d, id) =>
      var ws := st.slots.connections[d];
      State(OpenRequest(st.slots, id, ws), st.callers[id := Caller(d, ws, Sending)])
    case Sent(id) => st.(callers := st.callers[id := st.callers[id].(phase := Waiting)])
    case SendFails(id) => Finish(st, id, SendFailed, false)
    case Replies(id, turns) => st.(slots := Resolve(st.slots, id, turns))
    case Wakes(id) =>
      var future := st.slots.futures[id];
      Finish(st, id, if future.Value? then Delivered(future.turns) else ConnectionDropped, false)
    case TimesOut(id) => Finish(st, id, TimedOut, true)
  }

  /** A step that cannot be taken changes nothing, so every sequence of steps is a run. */
  function Next(st: State, step: Step): State {
    if Enabled(st, step) then Effect(st, step) else st
  }

  function Execute(steps: seq<Step>): State {
    if steps == [] then START else Next(Execute(steps[..|steps| - 1]), steps[|steps| - 1])
  }

  // ---------------------------------------------------------------- no orphans, no leaks

  /** Whoever is suspended has a settled future, or a pending one whose in-flight entry names a
      socket still registered under the caller's devcontainer. */
  predicate NotOrphaned(st: State, id: Id) {
    Suspended(st, id) ==>
      && id in st.slots.futures
      && (st.slots.futures[id].Pending? ==>
            && id in st.slots.inflight
            && st.slots.inflight[id] == st.callers[id].socket
            && Holds(st.slots, st.callers[id].devcontainer, st.callers[id].socket))
  }

  ghost predicate Inv(st: State) {
    && (forall id | id in st.callers :: NotOrphaned(st, id))
    && (forall id | id in st.slots.inflight :: Suspended(st, id) && st.slots.inflight[id] == st.callers[id].socket)
    && (forall id | id in st.slots.inflight :: id in st.slots.futures)
  }

  lemma StepKeepsInv(st: State, step: Step)
    requires Inv(st)
    ensures Inv(Next(st, step))
  {
    var st' := Next(st, step);
    forall id | id in st'.callers ensures NotOrphaned(st', id) {
      assert id in st.callers ==> NotOrphaned(st, id);
    }
  }

  /** In every reachable state no caller is orphaned, and every in-flight entry belongs to a
      suspended caller on that socket. */
  lemma {:induction false} NoOrphans(steps: seq<Step>)
    ensures Inv(Execute(steps))
  {
    if steps != [] {
      NoOrphans(steps[..|steps| - 1]);
      StepKeepsInv(Execute(steps[..|steps| - 1]), steps[|steps| - 1]);
    }
  }

  // ---------------------------------------------------------------- settled once, by the first reply

  /** A settled future never changes again. */
  lemma SettlesOnce(st: State, step: Step, id: Id)
    requires Inv(st)
    requires id in st.slots.futures && !st.slots.futures[id].Pending?
    ensures id in Next(st, step).slots.futures
    ensures Next(st, step).slots.futures[id] == st.slots.futures[id]
  {
  }

  /** The i-th step is a reply carrying this id while the request is pending and in flight. */
  ghost predicate CountingReply(steps: seq<Step>, i: nat, id: Id)
    requires i < |steps|
  {
    Counts(Execute(steps[..i]), steps[i], id)
  }

  ghost predicate ValueExplained(steps: seq<Step>, id: Id) {
    var futures := Execute(steps).slots.futures;
    && (forall i: nat, j: nat | i < |steps| && j < |steps| ::
          CountingReply(steps, i, id) && CountingReply(steps, j, id) ==> i == j)
    && (forall i: nat | i < |steps| && CountingReply(steps, i, id) ::
          id in futures && futures[id] == Value(steps[i].turns))
    && (id in futures && futures[id].Value? ==> exists i: nat :: i < |steps| && CountingReply(steps, i, id))
  }

  predicate Counts(st: State, step: Step, id: Id) {
    step.Replies? && step.id == id && id in st.slots.inflight && IsPending(st.slots, id)
  }

  predicate HasValue(st: State, id: Id) {
    id in st.slots.futures && st.slots.futures[id].Value?
  }

  lemma ValueStep(st: State, step: Step, id: Id)
    requires Inv(st)
    ensures HasValue(Next(st, step), id) <==> HasValue(st, id) || Counts(st, step, id)
    ensures HasValue(st, id) ==> Next(st, step).slots.futures[id] == st.slots.futures[id]
    ensures Counts(st, step, id) ==> Next(st, step).slots.futures[id] == Value(step.turns)
  {
  }

  /** The first step whose reply counted. */
  function CountedAt(steps: seq<Step>, id: Id): Option<nat> {
    if steps == [] then None
    else
      var n := |steps| - 1;
      if CountedAt(steps[..n], id).Some? then CountedAt(steps[..n], id)
      else if Counts(Execute(steps[..n]), steps[n], id) then Some(n)
      else None
  }

  lemma {:induction false} ValueFollowsCount(steps: seq<Step>, id: Id)
    ensures HasValue(Execute(steps), id) <==> CountedAt(steps, id).Some?
    ensures var k := CountedAt(steps, id);
            k.Some? ==> k.value < |steps| && steps[k.value].Replies?
                        && Execute(steps).slots.futures[id] == Value(steps[k.value].turns)
  {
    if steps != [] {
      var n := |steps| - 1;
      ValueFollowsCount(steps[..n], id);
      NoOrphans(steps[..n]);
      ValueStep(Execute(steps[..n]), steps[n], id);
    }
  }

  /** Only one reply ever counts: the one that was counted. */
  lemma {:induction false} CountingIsCounted(steps: seq<Step>, i: nat, id: Id)
    requires i < |steps|
    ensures CountingReply(steps, i, id) <==> CountedAt(steps, id) == Some(i)
  {
    var n := |steps| - 1;
    ValueFollowsCount(steps[..n], id);
    if i < n {
      assert steps[..n][..i] == steps[..i];
      CountingIsCounted(steps[..n], i, id);
    }
  }

  /** A future holds a value exactly when some reply counted; only one ever does, and the value is
      that reply's. */
  lemma ValueIsFirstReply(steps: seq<Step>, id: Id)
    ensures ValueExplained(steps, id)
  {
    ValueFollowsCount(steps, id);
    forall i: nat | i < |steps| ensures CountingReply(steps, i, id) <==> CountedAt(steps, id) == Some(i) {
      CountingIsCounted(steps, i, id);
    }
  }

  /** What a caller was handed is what its future holds. */
  lemma {:induction false} DeliveryIsTheFuturesValue(steps: seq<Step>, id: Id)
    requires id in Execute(steps).callers && Execute(steps).callers[id].phase.Done?
    requires Execute(steps).callers[id].phase.reply.Delivered?
    ensures id in Execute(steps).slots.futures
    ensures Execute(steps).slots.futures[id] == Value(Execute(steps).callers[id].phase.reply.turns)
  {
    var front := steps[..|steps| - 1];
    NoOrphans(front);
    var st, step := Execute(front), steps[|steps| - 1];
    if id in st.callers && st.callers[id].phase.Done? {
      DeliveryIsTheFuturesValue(front, id);
      SettlesOnce(st, step, id);
    }
  }

  // ---------------------------------------------------------------- what a caller gets

  /** The step drops the socket that the pending request went out on. */
  predicate Drops(st: State, step: Step, id: Id) {
    step.Unregisters? && id in st.slots.inflight && st.slots.inflight[id] == step.ws && IsPending(st.slots, id)
  }

  predicate WasDropped(steps: seq<Step>, id: Id) {
    steps != [] &&
    var front, step := steps[..|steps| - 1], steps[|steps| - 1];
    (WasDropped(front, id) || Drops(Execute(front), step, id))
  }

  predicate Took(steps: seq<Step>, step: Step) {
    steps != [] &&
    var front, last := steps[..|steps| - 1], steps[|steps| - 1];
    (Took(front, step) || (last == step && Enabled(Execute(front), last)))
  }

  predicate FutureDropped(st: State, id: Id) {
    id in st.slots.futures && st.slots.futures[id].Dropped?
  }

  predicate Got(st: State, id: Id, reply: Reply) {
    InPhase(st, id, Done(reply))
  }

  lemma StepDrops(st: State, step: Step, id: Id)
    requires Inv(st)
    ensures FutureDropped(Next(st, step), id) <==> FutureDropped(st, id) || Drops(st, step, id)
    ensures Got(Next(st, step), id, TimedOut) <==> Got(st, id, TimedOut) || (step == TimesOut(id) && Enabled(st, step))
    ensures Got(Next(st, step), id, SendFailed)
            <==> Got(st, id, SendFailed) || (step == SendFails(id) && Enabled(st, step))
    ensures Got(st, id, ConnectionDropped) ==> Got(Next(st, step), id, ConnectionDropped)
    ensures Got(Next(st, step), id, ConnectionDropped) && !Got(st, id, ConnectionDropped) ==> FutureDropped(st, id)
  {
  }

  /** In every interleaving: a caller is told that its connection dropped only if the very socket that
      carried its request was unregistered before a reply counted; it times out, or fails to send, exactly
      if it did. */
  lemma {:induction false} OutcomesAreExplained(steps: seq<Step>, id: Id)
    ensures FutureDropped(Execute(steps), id) <==> WasDropped(steps, id)
    ensures Got(Execute(steps), id, ConnectionDropped) ==> WasDropped(steps, id) && CountedAt(steps, id).None?
    ensures Got(Execute(steps), id, TimedOut) <==> Took(steps, TimesOut(id))
    ensures Got(Execute(steps), id, SendFailed) <==> Took(steps, SendFails(id))
  {
    if steps != [] {
      var front := steps[..|steps| - 1];
      OutcomesAreExplained(front, id);
      NoOrphans(front);
      StepDrops(Execute(front), steps[|steps| - 1], id);
    }
    ValueFollowsCount(steps, id);
  }

  /** The request is out and its caller waits. */
  predicate Awaits(st: State, d: Id, ws: SocketId, id: Id) {
    && id in st.callers && st.callers[id] == Caller(d, ws, Waiting)
    && IsPending(st.slots, id) && id in st.slots.inflight && st.slots.inflight[id] == ws && Holds(st.slots, d, ws)
  }

  lemma RequestGoesOut(st: State, d: Id, ws: SocketId, id: Id)
    requires d !in st.slots.connections && id !in st.slots.futures && id !in st.callers
    ensures
      var asked := Next(Next(st, Registers(d, ws)), Requests(d, id));
      && Awaits(Next(asked, Sent(id)), d, ws, id)
      && Got(Next(asked, SendFails(id)), id, SendFailed) && id !in Next(asked, SendFails(id)).slots.inflight
  {
  }

  /** It is answered by its reply, by the drop of its socket, or by the timeout, and leaves nothing in
      flight. */
  lemma RequestIsAnswered(st: State, d: Id, ws: SocketId, id: Id, turns: Turns)
    requires Awaits(st, d, ws, id)
    ensures
      var answered := Next(Next(st, Replies(id, turns)), Wakes(id));
      Got(answered, id, Delivered(turns)) && id !in answered.slots.inflight
    ensures
      var dropped := Next(Next(st, Unregisters(d, ws)), Wakes(id));
      Got(dropped, id, ConnectionDropped) && id !in dropped.slots.inflight && d !in dropped.slots.connections
    ensures
      var late := Next(st, TimesOut(id));
      Got(late, id, TimedOut) && id !in late.slots.inflight && late.slots.futures[id].Cancelled?
  {
  }
}
