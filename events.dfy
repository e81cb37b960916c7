/**
 * The event fan-out of events.go: a registry of bounded subscriber queues
 * (clientSet) and the single actor (Events.run) that owns it.
 *
 * Go channels are modelled as Queue objects with an explicit `closed` flag;
 * the goroutine that runs `run` is modelled as one method per message kind,
 * called one at a time.
 */
module Events {
  import opened Wrappers

  /** Capacity of every subscriber queue that Listen creates (EVENTS_BUFFER). */
  const EventsBuffer: nat := 100

  /** The last element of `log`, or `empty` when the log is empty. */
  function Latest<E>(empty: E, log: seq<E>): E
  {
    if log == [] then empty else log[|log| - 1]
  }

  /**
   * A buffered Go channel `chan Event` of fixed capacity.
   * `items` is the buffer; the ghost `sent` is everything ever enqueued and
   * `taken` how much of it the consumer has received.
   */
  class Queue<E> {
    const capacity: nat
    var items: seq<E>
    var closed: bool
    ghost var sent: seq<E>
    ghost var taken: nat

    ghost predicate Valid()
      reads this
    {
      taken <= |sent| && items == sent[taken..] && |items| <= capacity
    }

    /** `make(chan Event, capacity)` */
    constructor (capacity: nat)
      ensures Valid() && this.capacity == capacity
      ensures items == [] && !closed && sent == [] && taken == 0
    {
      this.capacity := capacity;
      items, closed := [], false;
      sent, taken := [], 0;
    }

    /**
     * `select { case q <- e: default: }`: enqueue when there is room, else
     * report that the queue is full. Sending on a closed channel panics.
     */
    method TrySend(e: E) returns (ok: bool)
      requires Valid() && !closed
      modifies this
      ensures Valid() && !closed && taken == old(taken)
      ensures ok <==> |old(items)| < capacity
      ensures ok ==> items == old(items) + [e] && sent == old(sent) + [e]
      ensures !ok ==> items == old(items) && sent == old(sent)
    {
      ok := |items| < capacity;
      if ok {
        items := items + [e];
        sent := sent + [e];
      }
    }

    /** `close(q)`: closing a channel twice panics. */
    method Close()
      requires Valid() && !closed
      modifies this
      ensures Valid() && closed
      ensures items == old(items) && sent == old(sent) && taken == old(taken)
    {
      closed := true;
    }

    /**
     * The consumer's `<-q` when it does not block: the oldest buffered item,
     * or None once the queue is closed and drained.
     */
    method Receive() returns (r: Option<E>)
      requires Valid() && (items != [] || closed)
      modifies this
      ensures Valid() && closed == old(closed) && sent == old(sent)
      ensures old(items) != [] ==> r == Some(old(items)[0]) && items == old(items)[1..] && taken == old(taken) + 1
      ensures old(items) == [] ==> r == None && items == [] && taken == old(taken)
    {
      if items != [] {
        r := Some(items[0]);
        items := items[1..];
        taken := taken + 1;
      } else {
        r := None;
      }
    }
  }

  /** `clientSet`: the set of registered subscriber queues. */
  class ClientSet<E> {
    var members: set<Queue<E>>

    /** Every member is open and within its capacity. */
    ghost predicate Valid()
      reads this, members
    {
      forall q :: q in members ==> q.Valid() && !q.closed
    }

    constructor ()
      ensures Valid() && members == {}
    {
      members := {};
    }

    /** Adds `q`; the set is keyed by queue, so adding it twice keeps one membership. */
    method Register(q: Queue<E>)
      requires Valid() && q.Valid() && !q.closed
      modifies this
      ensures Valid() && members == old(members) + {q}
    {
      members := members + {q};
    }

    /** Removes `q` if present; the queue itself is neither closed nor touched. */
    method Unregister(q: Queue<E>)
      requires Valid()
      modifies this
      ensures Valid() && members == old(members) - {q}
      ensures unchanged(q)
    {
      members := members - {q};
    }

    /** Closes `q` and removes it; a later Unregister of `q` changes nothing. */
    method Drop(q: Queue<E>)
      requires Valid() && q in members
      modifies this, q
      ensures Valid() && members == old(members) - {q}
      ensures q.Valid() && q.closed
      ensures q.items == old(q.items) && q.sent == old(q.sent) && q.taken == old(q.taken)
    {
      q.Close();
      members := members - {q};
    }

    /** Non-blocking delivery to one member; a full member alone is dropped. */
    method Send(q: Queue<E>, e: E) returns (delivered: bool)
      requires Valid() && q in members
      modifies this, q
      ensures Valid() && q.Valid() && q.taken == old(q.taken)
      ensures delivered <==> |old(q.items)| < q.capacity
      ensures delivered ==> members == old(members) && !q.closed
                            && q.items == old(q.items) + [e] && q.sent == old(q.sent) + [e]
      ensures !delivered ==> members == old(members) - {q} && q.closed
                             && q.items == old(q.items) && q.sent == old(q.sent)
    {
      delivered := q.TrySend(e);
      if !delivered {
        Drop(q);
      }
    }

    /**
     * Sends `e` to every member. A member keeps its membership exactly when
     * it had room, and then ends with `e` as its last item; a full member is
     * closed with its contents unchanged. No queue is added.
     */
    method Publish(e: E)
      requires Valid()
      modifies this, members
      ensures Valid() && members <= old(members)
      ensures forall q :: q in old(members) ==>
        q.Valid() && q.taken == old(q.taken) &&
        (q in members <==> |old(q.items)| < q.capacity) &&
        (q in members ==> q.items == old(q.items) + [e] && q.sent == old(q.sent) + [e]) &&
        (q !in members ==> q.closed && q.items == old(q.items) && q.sent == old(q.sent))
    {
      ghost var before := members;
      var pending := members;
      while pending != {}
        invariant Valid()
        invariant pending <= members <= before
        invariant forall q :: q in pending ==> unchanged(q)
        invariant forall q :: q in before - pending ==>
          q.Valid() && q.taken == old(q.taken) &&
          (q in members <==> |old(q.items)| < q.capacity) &&
          (q in members ==> q.items == old(q.items) + [e] && q.sent == old(q.sent) + [e]) &&
          (q !in members ==> q.closed && q.items == old(q.items) && q.sent == old(q.sent))
        decreases pending
      {
        var q :| q in pending;
        var delivered := Send(q, e);
        pending := pending - {q};
      }
    }

    /** Drops every member: all are closed, contents unchanged, and the set ends empty. */
    method Close()
      requires Valid()
      modifies this, members
      ensures Valid() && members == {}
      ensures forall q :: q in old(members) ==>
        q.Valid() && q.closed && q.items == old(q.items) && q.sent == old(q.sent) && q.taken == old(q.taken)
    {
      ghost var before := members;
      while members != {}
        invariant Valid() && members <= before
        invariant forall q :: q in members ==> unchanged(q)
        invariant forall q :: q in before - members ==>
          q.Valid() && q.closed && q.items == old(q.items) && q.sent == old(q.sent) && q.taken == old(q.taken)
        decreases members
      {
        var q :| q in members;
        Drop(q);
      }
    }
  }

  /**
   * `Events` together with the state of its `run` goroutine: the registry,
   * the last published event `state`, and whether the loop still runs.
   * Ghost `published` is every event handled so far and `joined[q]` how many
   * had been handled when `q` registered.
   */
  class Events<E> {
    const clients: ClientSet<E>
    const empty: E
    var state: E
    var running: bool
    ghost var published: seq<E>
    ghost var joined: map<Queue<E>, nat>

    /**
     * `state` is the last published event (or `empty`); once the loop has
     * stopped no client is left; and every member has been sent exactly the
     * snapshot current when it joined followed by every event published
     * since, in publish order.
     */
    ghost predicate Valid()
      reads this, clients, clients.members
    {
      && clients.Valid()
      && state == Latest(empty, published)
      && (!running ==> clients.members == {})
      && forall q :: q in clients.members ==>
           q in joined && joined[q] <= |published| &&
           q.sent == [Latest(empty, published[..joined[q]])] + published[joined[q]..]
    }

    /** `MakeEvents`: a running loop with no clients and the empty state. */
    constructor (empty: E)
      ensures Valid() && fresh(clients)
      ensures running && state == empty && published == [] && clients.members == {}
    {
      this.empty := empty;
      clients := new ClientSet();
      state := empty;
      running := true;
      published := [];
      joined := map[];
    }

    /**
     * A register message: the fresh queue becomes a member and gets the
     * current state as its first item (it is dropped at once only if it has
     * no room at all).
     */
    method HandleRegister(q: Queue<E>)
      requires Valid() && running
      requires q.Valid() && !q.closed && q.sent == []
      modifies this, clients, q
      ensures Valid() && running && state == old(state) && published == old(published)
      ensures q.Valid() && q.taken == old(q.taken)
      ensures 0 < q.capacity ==>
        clients.members == old(clients.members) + {q} && !q.closed && q.items == [state]
      ensures q.capacity == 0 ==>
        clients.members == old(clients.members) && q.closed && q.items == []
    {
      clients.Register(q);
      joined := joined[q := |published|];
      assert published[..|published|] == published;
      var delivered := clients.Send(q, state);
    }

    /** An unregister message: idempotent removal; the queue is left as it is. */
    method HandleUnregister(q: Queue<E>)
      requires Valid() && running
      modifies clients
      ensures Valid() && clients.members == old(clients.members) - {q}
      ensures unchanged(q)
    {
      clients.Unregister(q);
    }

    /**
     * An event message: publish to every client, then remember the event as
     * the new state.
     */
    method HandleEvent(e: E)
      requires Valid() && running
      modifies this, clients, clients.members
      ensures Valid() && running && state == e && published == old(published) + [e]
      ensures clients.members <= old(clients.members)
      ensures forall q :: q in old(clients.members) ==>
        q.Valid() &&
        (q in clients.members <==> |old(q.items)| < q.capacity) &&
        (q in clients.members ==> q.items == old(q.items) + [e]) &&
        (q !in clients.members ==> q.closed && q.items == old(q.items))
    {
      clients.Publish(e);
      ghost var log := published;
      published := published + [e];
      state := e;
      forall q | q in clients.members
        ensures q.sent == [Latest(empty, published[..joined[q]])] + published[joined[q]..]
      {
        assert published[..joined[q]] == log[..joined[q]];
        assert published[joined[q]..] == log[joined[q]..] + [e];
      }
    }

    /**
     * The event source is closed: every remaining client is dropped and the
     * loop stops.
     */
    method HandleSourceClosed()
      requires Valid() && running
      modifies this, clients, clients.members
      ensures Valid() && !running && clients.members == {}
      ensures state == old(state) && published == old(published)
      ensures forall q :: q in old(clients.members) ==> q.Valid() && q.closed && q.items == old(q.items)
    {
      clients.Close();
      running := false;
    }

    /**
     * `listen`: a fresh queue of capacity EventsBuffer, registered, holding
     * the current state as its only item. Sending on the closed register
     * channel after shutdown panics, hence `running`.
     */
    method Listen() returns (q: Queue<E>)
      requires Valid() && running
      modifies this, clients
      ensures fresh(q) && q.Valid() && q.capacity == EventsBuffer
      ensures Valid() && running && state == old(state) && published == old(published)
      ensures clients.members == old(clients.members) + {q}
      ensures !q.closed && q.items == [state]
    {
      q := new Queue(EventsBuffer);
      HandleRegister(q);
    }

    /** `stop`: an unregister message; panics after shutdown, hence `running`. */
    method Stop(q: Queue<E>)
      requires Valid() && running
      modifies clients
      ensures Valid() && clients.members == old(clients.members) - {q}
      ensures unchanged(q)
    {
      HandleUnregister(q);
    }
  }

  /**
   * A subscriber that does not read, with a queue of capacity 2: the
   * snapshot takes the first slot, so the second event overflows the queue
   * and drops it, and a later event reaches nobody.
   */
  method SlowSubscriberScenario(s0: int, e1: int, e2: int, e3: int)
  {
    var events := new Events(s0);
    var slow := new Queue(2);
    events.HandleRegister(slow);
    assert slow.items == [s0];
    events.HandleEvent(e1);
    assert slow.items == [s0, e1];
    events.HandleEvent(e2);
    assert slow.closed && slow.items == [s0, e1];
    events.HandleEvent(e3);
    assert events.clients.members == {} && events.state == e3;
  }

  /**
   * A subscriber that joins late starts from the last event, reads in
   * publish order, and after shutdown drains its queue and sees the end.
   */
  method LateSubscriberScenario(events: Events<int>, e4: int)
    requires events.Valid() && events.running && events.clients.members == {}
    modifies events, events.clients
  {
    var s := events.state;
    var late := new Queue(2);
    events.HandleRegister(late);
    events.HandleEvent(e4);
    assert late.items == [s, e4];
    var first := late.Receive();
    assert first == Some(s);
    events.HandleSourceClosed();
    var second := late.Receive();
    assert second == Some(e4);
    var end := late.Receive();
    assert end == None;
  }
}
