/** The runtime connection registry: single-claim slots and the in-flight transcript requests. */
module Registry {
  import opened Vocabulary

  type SocketId = nat
  type Turns = seq<string>

  const WORKER_SLOT: Id := "worker"

  datatype Endpoint = Worker | Agent

  datatype Future = Pending | Value(turns: Turns) | Dropped | Cancelled

  datatype Frame =
    | CommandFrame(to: SocketId, command: Command)
    | TranscriptRequest(to: SocketId, requestId: Id, session: Id)

  /** `inflight` holds a request's socket while its entry exists; `futures` every future ever made. */
  datatype Slots = Slots(connections: map<Id, SocketId>, inflight: map<Id, SocketId>, futures: map<Id, Future>)

  const NO_SLOTS := Slots(map[], map[], map[])

  predicate Holds(r: Slots, key: Id, ws: SocketId) {
    key in r.connections && r.connections[key] == ws
  }

  function Claim(r: Slots, key: Id, ws: SocketId): Slots {
    if key in r.connections then r else r.(connections := r.connections[key := ws])
  }

  function Release(r: Slots, key: Id, ws: SocketId): Slots {
    if Holds(r, key, ws) then r.(connections := r.connections - {key}) else r
  }

  predicate IsPending(r: Slots, id: Id) {
    id in r.futures && r.futures[id].Pending?
  }

  predicate DropFails(r: Slots, id: Id, ws: SocketId) {
    id in r.inflight && r.inflight[id] == ws && IsPending(r, id)
  }

  /** Of the requests in `ids`, fail those pending on a dropped socket. */
  function FailSome(r: Slots, ids: set<Id>, ws: SocketId): Slots {
    r.(inflight := map id | id in r.inflight && !(id in ids && DropFails(r, id, ws)) :: r.inflight[id],
       futures := map id | id in r.futures :: if id in ids && DropFails(r, id, ws) then Dropped else r.futures[id])
  }

  function FailInflight(r: Slots, ws: SocketId): Slots {
    FailSome(r, r.inflight.Keys, ws)
  }

  function FailOne(r: Slots, id: Id, ws: SocketId): Slots {
    if DropFails(r, id, ws) then r.(inflight := r.inflight - {id}, futures := r.futures[id := Dropped]) else r
  }

  lemma FailNone(r: Slots, ws: SocketId)
    ensures FailSome(r, {}, ws) == r
  {
  }

  lemma FailOneMore(r: Slots, ids: set<Id>, id: Id, ws: SocketId)
    requires id !in ids
    ensures FailSome(r, ids + {id}, ws) == FailOne(FailSome(r, ids, ws), id, ws)
  {
    var sofar := FailSome(r, ids, ws);
    assert DropFails(sofar, id, ws) == DropFails(r, id, ws);
  }

  function Unregister(r: Slots, key: Id, ws: SocketId): Slots {
    FailInflight(Release(r, key, ws), ws)
  }

  function Resolve(r: Slots, id: Id, turns: Turns): Slots {
    if id in r.inflight && IsPending(r, id) then r.(futures := r.futures[id := Value(turns)]) else r
  }

  function OpenRequest(r: Slots, id: Id, ws: SocketId): Slots {
    r.(inflight := r.inflight[id := ws], futures := r.futures[id := Future.Pending])
  }

  /** The `finally` of a request; `wait_for` cancels a future it gave up on. */
  function CloseRequest(r: Slots, id: Id, gaveUp: bool): Slots {
    r.(inflight := r.inflight - {id},
       futures := if gaveUp && IsPending(r, id) then r.futures[id := Cancelled] else r.futures)
  }

  class ConnectionRegistry {
    const endpoint: Endpoint
    var connections: map<Id, SocketId>
    var inflight: map<Id, SocketId>
    var futures: map<Id, Future>
    var sent: seq<Frame>

    function View(): Slots
      reads this
    {
      Slots(connections, inflight, futures)
    }

    constructor (endpoint: Endpoint)
      ensures View() == NO_SLOTS && sent == [] && this.endpoint == endpoint
    {
      this.endpoint := endpoint;
      connections, inflight, futures, sent := map[], map[], map[], [];
    }

    predicate IsConnected(key: Id)
      reads this
    {
      key in connections
    }

    method Register(key: Id, ws: SocketId) returns (claimed: bool)
      modifies this`connections
      ensures View() == Claim(old(View()), key, ws)
      ensures claimed <==> key !in old(connections)
      ensures claimed ==> Holds(View(), key, ws)
      ensures connections == if claimed then old(connections)[key := ws] else old(connections)
    {
      claimed := key !in connections;
      if claimed {
        connections := connections[key := ws];
      }
    }

    /** The worker registry has no requests in flight, so failing them is a no-op there. */
    method UnregisterSocket(key: Id, ws: SocketId)
      modifies this`connections, this`inflight, this`futures
      ensures View() == Unregister(old(View()), key, ws)
      ensures !Holds(View(), key, ws)
      ensures connections == if key in old(connections) && old(connections)[key] == ws then old(connections) - {key}
                             else old(connections)
      ensures FailsExactlyPending(ws)
    {
      if key in connections && connections[key] == ws {
        connections := connections - {key};
      }
      FailInflightFor(ws);
    }

    /** The pending requests on the socket are dropped and forgotten; every other is as it was. */
    twostate predicate FailsExactlyPending(ws: SocketId)
      reads this
    {
      && futures.Keys == old(futures).Keys
      && (forall id :: id in inflight <==>
                       id in old(inflight)
                       && !(old(inflight)[id] == ws && id in old(futures) && old(futures)[id] == Future.Pending))
      && (forall id | id in inflight :: inflight[id] == old(inflight)[id])
      && (forall id | id in futures ::
            futures[id] == if id in old(inflight) && old(inflight)[id] == ws && old(futures)[id] == Future.Pending
                           then Dropped else old(futures)[id])
    }

    method FailInflightFor(ws: SocketId)
      modifies this`inflight, this`futures
      ensures View() == FailInflight(old(View()), ws)
      ensures FailsExactlyPending(ws)
    {
      ghost var before := View();
      ghost var done: set<Id> := {};
      var todo := inflight.Keys;
      FailNone(before, ws);
      while todo != {}
        invariant done !! todo && done + todo == before.inflight.Keys
        invariant View() == FailSome(before, done, ws)
        decreases |todo|
      {
        var id :| id in todo;
        FailOneMore(before, done, id, ws);
        FailEntry(id, ws);
        done, todo := done + {id}, todo - {id};
      }
      assert done == before.inflight.Keys;
    }

    method FailEntry(id: Id, ws: SocketId)
      modifies this`inflight, this`futures
      ensures View() == FailOne(old(View()), id, ws)
    {
      if id in inflight && inflight[id] == ws && id in futures && futures[id].Pending? {
        futures := futures[id := Dropped];
        inflight := inflight - {id};
      }
    }

    function SlotFor(command: Command): Id {
      match endpoint
      case Worker => WORKER_SLOT
      case Agent => if command.devcontainerId.Some? then command.devcontainerId.value else ""
    }

    /** The worker has one slot; an agent's is its devcontainer's. */
    method SendCommand(command: Command) returns (ok: bool)
      modifies this`sent
      ensures ok <==> SlotFor(command) in connections
      ensures sent == if ok then old(sent) + [CommandFrame(connections[SlotFor(command)], command)] else old(sent)
      ensures endpoint.Worker? ==>
                (ok <==> "worker" in connections)
                && (ok ==> sent == old(sent) + [CommandFrame(connections["worker"], command)])
      ensures endpoint.Agent? && command.devcontainerId.Some? ==>
                var d := command.devcontainerId.value;
                && (ok <==> d in connections)
                && (ok ==> sent == old(sent) + [CommandFrame(connections[d], command)])
    {
      var slot := SlotFor(command);
      ok := slot in connections;
      if ok {
        sent := sent + [CommandFrame(connections[slot], command)];
      }
    }

    /** `request_transcript` up to its wait. */
    method BeginTranscript(devcontainer: Id, session: Id, id: Id) returns (ok: bool)
      modifies this`inflight, this`futures, this`sent
      ensures ok <==> devcontainer in connections
      ensures View() == if ok then OpenRequest(old(View()), id, connections[devcontainer]) else old(View())
      ensures sent == if ok then old(sent) + [TranscriptRequest(connections[devcontainer], id, session)] else old(sent)
      ensures ok ==> futures == old(futures)[id := Future.Pending]
                     && inflight == old(inflight)[id := connections[devcontainer]]
      ensures !ok ==> futures == old(futures) && inflight == old(inflight)
    {
      ok := devcontainer in connections;
      if ok {
        var ws := connections[devcontainer];
        futures := futures[id := Future.Pending];
        inflight := inflight[id := ws];
        sent := sent + [TranscriptRequest(ws, id, session)];
      }
    }

    method EndTranscript(id: Id, gaveUp: bool)
      modifies this`inflight, this`futures
      ensures View() == CloseRequest(old(View()), id, gaveUp)
      ensures inflight == old(inflight) - {id}
      ensures gaveUp && id in old(futures) && old(futures)[id] == Future.Pending ==>
                futures == old(futures)[id := Cancelled]
      ensures !(gaveUp && id in old(futures) && old(futures)[id] == Future.Pending) ==> futures == old(futures)
    {
      if gaveUp && id in futures && futures[id].Pending? {
        futures := futures[id := Cancelled];
      }
      inflight := inflight - {id};
    }

    method ResolveTranscript(id: Id, turns: Turns)
      modifies this`futures
      ensures View() == Resolve(old(View()), id, turns)
      ensures id in inflight && id in old(futures) && old(futures)[id] == Future.Pending ==>
                futures == old(futures)[id := Value(turns)]
      ensures !(id in inflight && id in old(futures) && old(futures)[id] == Future.Pending) ==> futures == old(futures)
    {
      if id in inflight && id in futures && futures[id].Pending? {
        futures := futures[id := Value(turns)];
      }
    }
  }
}
