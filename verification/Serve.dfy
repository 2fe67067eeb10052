/** The serve loop of the two runtime channels: claim a slot, take events in, free the slot. */
module Serve {
  import opened Vocabulary
  import opened Tables
  import opened Intake
  import opened Registry
  import B = Broadcaster
  import Routes
  import S = Store

  /** What a received text frame turns out to be; malformed ones and unknown types are Ignored. */
  datatype Message =
    | Ignored
    | Registered(source: Source, devcontainerId: Option<Id>)
    | TranscriptResponse(requestId: Id, turns: Turns)
    | Event(event: RuntimeEvent)

  const AGENT_MISSING_ID: nat := 4400
  const ALREADY_CONNECTED: nat := 4409

  /** The slot a registration asks for, or the code it is turned away with. */
  function SlotAsked(endpoint: Endpoint, source: Source, devcontainerId: Option<Id>): Result<Id, nat> {
    match endpoint
    case Worker => Success(WORKER_SLOT)
    case Agent =>
      if source.DevcontainerRuntimeAgent? && Truthy(devcontainerId) then Success(devcontainerId.value)
      else Failure(AGENT_MISSING_ID)
  }

  function ConnectionNews(endpoint: Endpoint, key: Id): SseEvent {
    SseEvent(Runtime, if endpoint.Agent? then [key] else [])
  }

  datatype Phase = Unregistered | Claimed(key: Id) | Closed(freed: Option<Id>, code: Option<nat>)

  /** What a registration makes of an unregistered loop, given the slots as it finds them. */
  function PhaseAfterRegistration(slots: Slots, endpoint: Endpoint, source: Source, devcontainerId: Option<Id>): Phase {
    var asked := SlotAsked(endpoint, source, devcontainerId);
    if asked.Failure? then Closed(None, Some(asked.error))
    else if asked.value in slots.connections then Closed(None, Some(ALREADY_CONNECTED))
    else Claimed(asked.value)
  }

  class ServeLoop {
    const endpoint: Endpoint
    const ws: SocketId
    const registry: ConnectionRegistry
    const broadcaster: B.Broadcaster
    var phase: Phase

    constructor (endpoint: Endpoint, ws: SocketId, registry: ConnectionRegistry, broadcaster: B.Broadcaster)
      ensures this.endpoint == endpoint && this.ws == ws && this.registry == registry
      ensures this.broadcaster == broadcaster && phase == Unregistered
    {
      this.endpoint, this.ws, this.registry, this.broadcaster := endpoint, ws, registry, broadcaster;
      phase := Unregistered;
    }

    /** A `runtime_registered` message; a second one is ignored. */
    method OnRegistered(source: Source, devcontainerId: Option<Id>)
      requires broadcaster.Valid() && !phase.Closed?
      modifies this`phase, registry`connections, broadcaster.queues
      ensures old(phase).Claimed? ==>
                phase == old(phase) && registry.View() == old(registry.View())
                && forall q | q in broadcaster.queues :: q.items == old(q.items)
      ensures old(phase).Unregistered? ==>
                phase == PhaseAfterRegistration(old(registry.View()), endpoint, source, devcontainerId)
      ensures old(phase).Unregistered? && endpoint.Worker? ==>
                phase == if "worker" in old(registry.connections) then Closed(None, Some(4409)) else Claimed("worker")
      ensures old(phase).Unregistered? && endpoint.Agent? ==>
                phase == if !source.DevcontainerRuntimeAgent? || devcontainerId.None? || devcontainerId.value == ""
                         then Closed(None, Some(4400))
                         else if devcontainerId.value in old(registry.connections) then Closed(None, Some(4409))
                         else Claimed(devcontainerId.value)
      ensures old(phase).Unregistered? && phase.Claimed? ==>
                && registry.connections == old(registry.connections)[phase.key := ws]
                && forall q | q in broadcaster.queues ::
                  q.items == old(q.items) + [SseEvent(Runtime, if endpoint.Worker? then [] else [phase.key])]
      ensures old(phase).Unregistered? && phase.Claimed? ==>
                registry.View() == Claim(old(registry.View()), phase.key, ws)
                && forall q | q in broadcaster.queues :: q.items == old(q.items) + [ConnectionNews(endpoint, phase.key)]
      ensures old(phase).Unregistered? && !phase.Claimed? ==>
                registry.View() == old(registry.View())
                && forall q | q in broadcaster.queues :: q.items == old(q.items)
    {
      if phase.Claimed? {
        return;
      }
      var asked := SlotAsked(endpoint, source, devcontainerId);
      if asked.Failure? {
        phase := Closed(None, Some(asked.error));
        return;
      }
      var claimed := registry.Register(asked.value, ws);
      if !claimed {
        phase := Closed(None, Some(ALREADY_CONNECTED));
        return;
      }
      broadcaster.Publish(ConnectionNews(endpoint, asked.value));
      phase := Claimed(asked.value);
    }

    method OnTranscriptResponse(requestId: Id, turns: Turns)
      requires !phase.Closed?
      modifies registry`futures
      ensures registry.View() == if phase.Claimed? && endpoint.Agent?
                                 then Resolve(old(registry.View()), requestId, turns)
                                 else old(registry.View())
    {
      if phase.Claimed? && endpoint.Agent? {
        registry.ResolveTranscript(requestId, turns);
      }
    }

    /** An unregistered runtime is not listened to; a failing intake is logged and swallowed. */
    method OnEvent(e: RuntimeEvent, s: Stamps, db: S.Connection) returns (linked: Option<Id>)
      requires !phase.Closed? && broadcaster.Valid()
      requires db.View() == db.committed && s.approvalId !in db.approvals
      modifies db, set q | q in broadcaster.queues
      ensures phase.Unregistered? ==>
                db.View() == db.committed == old(db.View())
                && forall q | q in broadcaster.queues :: q.items == old(q.items)
      ensures phase.Claimed? && ForeignKeys(old(db.View())) && Acceptable(old(db.View()), e) ==>
                db.log == old(db.log) + [e.(id := s.eventId, createdAt := s.eventAt)]
      ensures phase.Claimed? ==>
                db.View() == db.committed == AfterIntake(old(db.View()), e, s.(linked := linked))
                && db.View() == Routes.Step(old(db.View()), Routes.Receive(e, s.(linked := linked)))
                && forall q | q in broadcaster.queues ::
                  q.items == old(q.items) + Published(old(db.View()), e, s.(linked := linked))
    {
      linked := None;
      if phase.Claimed? {
        var _, found := db.PersistRuntimeEvent(e, s, broadcaster);
        linked := found;
        if ForeignKeys(old(db.View())) {
          IntakeSucceedsExactly(old(db.View()), e, s.(linked := found));
        }
      }
    }

    /** The `finally` clause, on a disconnect. */
    method OnDisconnect()
      requires broadcaster.Valid() && !phase.Closed?
      modifies this`phase, registry`connections, registry`inflight, registry`futures, broadcaster.queues
      ensures old(phase).Unregistered? ==>
                phase == Closed(None, None) && registry.View() == old(registry.View())
                && forall q | q in broadcaster.queues :: q.items == old(q.items)
      ensures old(phase).Claimed? ==>
                phase == Closed(Some(old(phase).key), None)
                && registry.View() == Unregister(old(registry.View()), old(phase).key, ws)
                && forall q | q in broadcaster.queues ::
                  q.items == old(q.items) + [ConnectionNews(endpoint, old(phase).key)]
      ensures old(phase).Claimed? ==>
                var key := old(phase).key;
                && registry.connections == (if key in old(registry.connections) && old(registry.connections)[key] == ws
                                            then old(registry.connections) - {key} else old(registry.connections))
                && (forall id | id in registry.inflight && registry.inflight[id] == ws ::
                      !(id in registry.futures && registry.futures[id] == Future.Pending))
                && forall q | q in broadcaster.queues ::
                  q.items == old(q.items) + [SseEvent(Runtime, if endpoint.Worker? then [] else [key])]
    {
      if phase.Claimed? {
        var key := phase.key;
        registry.UnregisterSocket(key, ws);
        broadcaster.Publish(ConnectionNews(endpoint, key));
        phase := Closed(Some(key), None);
      } else {
        phase := Closed(None, None);
      }
    }
  }
}
