/** Fan-out of invalidations to the mailboxes of subscribed browser streams, and the stream that
    drains one mailbox. */
module Broadcaster {
  import opened Vocabulary

  class Mailbox {
    var items: seq<SseEvent>

    constructor ()
      ensures items == []
    {
      items := [];
    }

    method Put(e: SseEvent)
      modifies this
      ensures items == old(items) + [e]
    {
      items := items + [e];
    }

    method GetNowait() returns (e: Option<SseEvent>)
      modifies this
      ensures old(items) == [] ==> e == None && items == []
      ensures old(items) != [] ==> e == Some(old(items)[0]) && items == old(items)[1..]
    {
      if items == [] {
        e := None;
      } else {
        e := Some(items[0]);
        items := items[1..];
      }
    }
  }

  class Broadcaster {
    var queues: seq<Mailbox>

    /** No mailbox is subscribed twice, so one publish reaches it once. */
    ghost predicate Valid()
      reads this
    {
      forall i, j :: 0 <= i < j < |queues| ==> queues[i] != queues[j]
    }

    constructor ()
      ensures Valid() && queues == []
    {
      queues := [];
    }

    method Subscribe() returns (q: Mailbox)
      requires Valid()
      modifies this
      ensures Valid() && fresh(q) && q.items == [] && queues == old(queues) + [q]
    {
      q := new Mailbox();
      queues := queues + [q];
    }

    method Unsubscribe(q: Mailbox)
      requires Valid()
      modifies this
      ensures Valid()
      ensures q !in queues
      ensures forall other :: other != q ==> (other in queues <==> other in old(queues))
      ensures q !in old(queues) ==> queues == old(queues)
    {
      var i := 0;
      while i < |queues|
        invariant 0 <= i <= |queues|
        invariant queues == old(queues)
        invariant q !in queues[..i]
      {
        if queues[i] == q {
          var before := queues;
          queues := queues[..i] + queues[i + 1..];
          assert forall k :: 0 <= k < |queues| ==> queues[k] == before[if k < i then k else k + 1];
          forall other | other != q && other in before ensures other in queues {
            var k :| 0 <= k < |before| && before[k] == other;
            assert queues[if k < i then k else k - 1] == other;
          }
          return;
        }
        i := i + 1;
      }
    }

    method Publish(e: SseEvent)
      requires Valid()
      modifies queues
      ensures forall q | q in queues :: q.items == old(q.items) + [e]
    {
      var i := 0;
      while i < |queues|
        invariant 0 <= i <= |queues|
        invariant forall k | 0 <= k < i :: queues[k].items == old(queues[k].items) + [e]
        invariant forall k | i <= k < |queues| :: queues[k].items == old(queues[k].items)
      {
        queues[i].Put(e);
        i := i + 1;
      }
    }

    method PublishAll(events: seq<SseEvent>)
      requires Valid()
      modifies queues
      ensures forall q | q in queues :: q.items == old(q.items) + events
    {
      var i := 0;
      while i < |events|
        invariant 0 <= i <= |events|
        invariant forall q | q in queues :: q.items == old(q.items) + events[..i]
      {
        Publish(events[i]);
        assert events[..i + 1] == events[..i] + [events[i]];
        i := i + 1;
      }
      assert events[..i] == events;
    }
  }

  /** One run of the SSE generator. `sent` is what it has yielded to the browser. */
  class SseStream {
    const broadcaster: Broadcaster
    const maxEvents: Option<int>
    var mailbox: Mailbox?
    var sent: seq<SseEvent>

    ghost predicate Valid()
      reads this, broadcaster
    {
      && broadcaster.Valid()
      && (mailbox != null ==> mailbox in broadcaster.queues)
      && (maxEvents.Some? && mailbox != null ==> |sent| < maxEvents.value)
    }

    /** With a limit of zero or less there is nothing to emit, so nothing is subscribed. */
    constructor (broadcaster: Broadcaster, maxEvents: Option<int>)
      requires broadcaster.Valid()
      modifies broadcaster
      ensures Valid() && this.broadcaster == broadcaster && this.maxEvents == maxEvents && sent == []
      ensures mailbox == null <==> maxEvents.Some? && maxEvents.value <= 0
      ensures mailbox == null ==> broadcaster.queues == old(broadcaster.queues)
      ensures mailbox != null ==> fresh(mailbox) && mailbox.items == []
                                  && broadcaster.queues == old(broadcaster.queues) + [mailbox]
    {
      this.broadcaster := broadcaster;
      this.maxEvents := maxEvents;
      this.mailbox := null;
      this.sent := [];
      new;
      if !(maxEvents.Some? && maxEvents.value <= 0) {
        mailbox := broadcaster.Subscribe();
      }
    }

    /** One turn of the loop: leave if the browser is gone, else yield the next event if any. */
    method Poll(disconnected: bool)
      requires Valid() && mailbox != null
      modifies this, broadcaster, mailbox
      ensures Valid()
      ensures disconnected || old(mailbox.items) == [] ==> sent == old(sent)
      ensures !disconnected && old(mailbox.items) != [] ==>
                sent == old(sent) + [old(mailbox.items)[0]] && old(mailbox).items == old(mailbox.items)[1..]
      ensures mailbox == null <==> disconnected || (maxEvents.Some? && |sent| >= maxEvents.value)
      ensures mailbox == null ==> old(mailbox) !in broadcaster.queues
      ensures mailbox != null ==> mailbox == old(mailbox) && broadcaster.queues == old(broadcaster.queues)
    {
      if disconnected {
        Close();
        return;
      }
      var e := mailbox.GetNowait();
      if e.Some? {
        sent := sent + [e.value];
        if maxEvents.Some? && |sent| >= maxEvents.value {
          Close();
        }
      }
    }

    /** The `finally` clause. */
    method Close()
      requires broadcaster.Valid() && mailbox != null
      modifies this`mailbox, broadcaster
      ensures Valid() && mailbox == null && old(mailbox) !in broadcaster.queues
    {
      broadcaster.Unsubscribe(mailbox);
      mailbox := null;
    }
  }
}
