/**
 * The listener-and-correlation core shared by every link: four ordered
 * listener registries, the closed flag, the per-thread id reservation and the
 * process-wide message counter.
 */
module ListenerLink {
  import opened Wrappers
  import opened Events
  import opened Registry
  import opened Correlation

  /**
   * The process-wide message counter: one object shared by every link of the
   * process. `Issued` holds every id it has handed out.
   */
  class MessageCounter {
    var value: int
    ghost var Issued: set<int>

    ghost predicate Valid()
      reads this
    {
      value >= 0 && forall id :: id in Issued ==> 1 <= id <= value
    }

    constructor ()
      ensures Valid() && value == 0 && Issued == {}
    {
      value := 0;
      Issued := {};
    }

    /** `nextId`: pre-increments the counter, so no id is ever handed out twice. */
    method NextId() returns (id: int)
      requires Valid()
      modifies this
      ensures Valid()
      ensures id == old(value) + 1 && value == id
      ensures id !in old(Issued) && Issued == old(Issued) + {id}
    {
      value := value + 1;
      id := value;
      Issued := Issued + {id};
    }
  }

  /**
   * A link's listener bookkeeping. `transportCalls` records, oldest first, the
   * requests to start or stop reporting a pin that the link has made on its
   * transport.
   */
  class AbstractListenerLink {
    var eventListeners: seq<EventListener>
    var connectionListeners: seq<ConnectionListener>
    var rplyListeners: seq<RplyListener>
    var customListeners: seq<CustomListener>
    var closed: bool
    var localIdForRequest: map<ThreadId, Option<int>>
    const counter: MessageCounter
    ghost var transportCalls: seq<TransportCall>

    /** The correlator as a value: the shared counter and this link's reservations. */
    ghost function CorrelationState(): Correlator
      reads this, counter
    {
      Correlator(counter.value, localIdForRequest)
    }

    constructor (counter: MessageCounter)
      ensures this.counter == counter
      ensures eventListeners == [] && connectionListeners == []
      ensures rplyListeners == [] && customListeners == []
      ensures !closed && localIdForRequest == map[] && transportCalls == []
    {
      this.counter := counter;
      eventListeners, connectionListeners := [], [];
      rplyListeners, customListeners := [], [];
      closed := false;
      localIdForRequest := map[];
      transportCalls := [];
    }

    /**
     * `addMessageIdIfNeeded`: the command is returned as it is when no reply
     * listener is registered; otherwise the calling thread's reservation is
     * consumed, or a fresh id taken, and the command goes out tagged.
     */
    method AddMessageIdIfNeeded<T>(t: ThreadId, delegateTo: T) returns (r: Outgoing<T>)
      requires counter.Valid()
      modifies this`localIdForRequest, counter
      ensures counter.Valid()
      ensures (CorrelationState(), r)
              == Correlation.AddMessageIdIfNeeded(old(CorrelationState()), rplyListeners != [], t, delegateTo)
      ensures r.Tagged? && Reserved(old(localIdForRequest), t).None? ==> r.id !in old(counter.Issued)
      ensures counter.Issued == old(counter.Issued)
              + (if r.Tagged? && Reserved(old(localIdForRequest), t).None? then {r.id} else {})
    {
      r := Untagged(delegateTo);
      if rplyListeners != [] {
        var id := Reserved(localIdForRequest, t);
        localIdForRequest := localIdForRequest[t := None];
        var tag: int;
        if id.None? {
          tag := counter.NextId();
        } else {
          tag := id.value;
        }
        r := Tagged(delegateTo, tag);
      }
    }

    /** `nextLocalId`: reserves a fresh id for the calling thread's next command and returns it. */
    method NextLocalId(t: ThreadId) returns (id: int)
      requires counter.Valid()
      modifies this`localIdForRequest, counter
      ensures counter.Valid()
      ensures (CorrelationState(), id) == Correlation.NextLocalId(old(CorrelationState()), t)
      ensures id !in old(counter.Issued)
      ensures counter.Issued == old(counter.Issued) + {id}
    {
      id := counter.NextId();
      localIdForRequest := localIdForRequest[t := Some(id)];
    }

    /**
     * `addListener`: appends `l`; on an open link a pin-filtered listener also
     * asks the transport to start reporting its pin, on every addition, even
     * when the pin is already watched.
     */
    method AddListener(l: EventListener)
      modifies this`eventListeners, this`transportCalls
      ensures eventListeners == old(eventListeners) + [l]
      ensures transportCalls == old(transportCalls) +
                if !closed && l.Filtered? then [StartListening(l.pin)] else []
    {
      if !closed && l.Filtered? {
        transportCalls := transportCalls + [StartListening(l.pin)];
      }
      eventListeners := eventListeners + [l];
    }

    /**
     * `removeListener`: removes the first occurrence of `l`; on an open link,
     * when `l` is pin-filtered and no remaining listener watches its pin, asks
     * the transport to stop reporting that pin.
     */
    method RemoveListener(l: EventListener)
      modifies this`eventListeners, this`transportCalls
      ensures eventListeners == RemoveFirst(old(eventListeners), l)
      ensures transportCalls == old(transportCalls) + StopCallFor(l, eventListeners, closed)
    {
      eventListeners := RemoveFirst(eventListeners, l);
      if !closed && l.Filtered? {
        var watched := HasListenerForPin(l.pin);
        if !watched {
          transportCalls := transportCalls + [StopListening(l.pin)];
        }
      }
    }

    method AddRplyListener(l: RplyListener)
      modifies this`rplyListeners
      ensures rplyListeners == old(rplyListeners) + [l]
    {
      rplyListeners := rplyListeners + [l];
    }

    method RemoveRplyListener(l: RplyListener)
      modifies this`rplyListeners
      ensures rplyListeners == RemoveFirst(old(rplyListeners), l)
    {
      rplyListeners := RemoveFirst(rplyListeners, l);
    }

    method AddCustomListener(l: CustomListener)
      modifies this`customListeners
      ensures customListeners == old(customListeners) + [l]
    {
      customListeners := customListeners + [l];
    }

    method RemoveCustomListener(l: CustomListener)
      modifies this`customListeners
      ensures customListeners == RemoveFirst(old(customListeners), l)
    {
      customListeners := RemoveFirst(customListeners, l);
    }

    method AddConnectionListener(l: ConnectionListener)
      modifies this`connectionListeners
      ensures connectionListeners == old(connectionListeners) + [l]
    {
      connectionListeners := connectionListeners + [l];
    }

    method RemoveConnectionListener(l: ConnectionListener)
      modifies this`connectionListeners
      ensures connectionListeners == RemoveFirst(old(connectionListeners), l)
    {
      connectionListeners := RemoveFirst(connectionListeners, l);
    }

    /** Both `fireStateChanged` overloads (analog and digital events). */
    method FireStateChanged(event: PinValueChangedEvent, callback: (EventListener, PinValueChangedEvent) -> CallbackResult)
      returns (log: seq<Delivery<EventListener, PinValueChangedEvent>>, error: bool)
      ensures DeliveredInOrder(log, eventListeners, event, callback)
      ensures error <==> SomeError(eventListeners, event, callback)
      ensures !error ==> |log| == |eventListeners|
    {
      log, error := Dispatch(eventListeners, event, callback);
    }

    method FireReplyReceived(event: RplyEvent, callback: (RplyListener, RplyEvent) -> CallbackResult)
      returns (log: seq<Delivery<RplyListener, RplyEvent>>, error: bool)
      ensures DeliveredInOrder(log, rplyListeners, event, callback)
      ensures error <==> SomeError(rplyListeners, event, callback)
      ensures !error ==> |log| == |rplyListeners|
    {
      log, error := Dispatch(rplyListeners, event, callback);
    }

    method FireCustomReceived(event: CustomEvent, callback: (CustomListener, CustomEvent) -> CallbackResult)
      returns (log: seq<Delivery<CustomListener, CustomEvent>>, error: bool)
      ensures DeliveredInOrder(log, customListeners, event, callback)
      ensures error <==> SomeError(customListeners, event, callback)
      ensures !error ==> |log| == |customListeners|
    {
      log, error := Dispatch(customListeners, event, callback);
    }

    method FireConnectionLost(callback: (ConnectionListener, ConnectionEvent) -> CallbackResult)
      returns (log: seq<Delivery<ConnectionListener, ConnectionEvent>>, error: bool)
      ensures DeliveredInOrder(log, connectionListeners, ConnectionLost, callback)
      ensures error <==> SomeError(connectionListeners, ConnectionLost, callback)
      ensures !error ==> |log| == |connectionListeners|
    {
      log, error := Dispatch(connectionListeners, ConnectionLost, callback);
    }

    method FireReconnected(callback: (ConnectionListener, ConnectionEvent) -> CallbackResult)
      returns (log: seq<Delivery<ConnectionListener, ConnectionEvent>>, error: bool)
      ensures DeliveredInOrder(log, connectionListeners, Reconnected, callback)
      ensures error <==> SomeError(connectionListeners, Reconnected, callback)
      ensures !error ==> |log| == |connectionListeners|
    {
      log, error := Dispatch(connectionListeners, Reconnected, callback);
    }

    /** `hasListenerForPin`: scans the registry for a pin-filtered listener on `pin`. */
    method HasListenerForPin(pin: Pin) returns (found: bool)
      ensures found == Watched(eventListeners, pin)
    {
      for i := 0 to |eventListeners|
        invariant forall k :: 0 <= k < i ==> !(eventListeners[k].Filtered? && eventListeners[k].pin == pin)
      {
        if eventListeners[i].Filtered? && eventListeners[i].pin == pin {
          return true;
        }
      }
      return false;
    }

    /**
     * `deregisterAllEventListeners`: calls `removeListener` for each listener
     * of a snapshot of the registry taken on entry.
     */
    method DeregisterAllEventListeners()
      modifies this`eventListeners, this`transportCalls
      ensures eventListeners == []
      ensures transportCalls == old(transportCalls) + DeregisterTrace(old(eventListeners), old(eventListeners), closed)
    {
      var snapshot := eventListeners;
      ghost var total := old(transportCalls) + DeregisterTrace(snapshot, snapshot, closed);
      var i := 0;
      while i < |snapshot|
        invariant 0 <= i <= |snapshot|
        invariant multiset(eventListeners) == multiset(snapshot[i..])
        invariant total == transportCalls + DeregisterTrace(snapshot[i..], eventListeners, closed)
      {
        DeregisterTraceStep(total, transportCalls, snapshot, i, eventListeners, closed);
        RemoveListener(snapshot[i]);
        i := i + 1;
      }
      assert eventListeners == [] by {
        assert snapshot[i..] == [];
        assert |multiset(eventListeners)| == 0;
      }
    }

    /** `close`: marks the link closed; the registries are left as they are. */
    method Close()
      modifies this`closed
      ensures closed
    {
      closed := true;
    }
  }
}
