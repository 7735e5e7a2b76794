/**
 * Pins, listeners and the events delivered to them, and the one dispatch loop
 * that every `fire*` operation of a link runs over a snapshot of its registry.
 */
module Events {

  /** A pin: analog or digital, with its numeric address. Equal iff kind and address match. */
  datatype Pin = Analog(num: nat) | Digital(num: nat)

  /** The identity of a listener object; registries compare listeners by identity. */
  type ListenerId = nat

  /**
   * A state-change listener. `Filtered` stands for a filtering adapter that is
   * bound to one pin; `Plain` for any other listener.
   */
  datatype EventListener = Plain(id: ListenerId) | Filtered(id: ListenerId, pin: Pin)

  datatype RplyListener = RplyListener(id: ListenerId)

  datatype CustomListener = CustomListener(id: ListenerId)

  datatype ConnectionListener = ConnectionListener(id: ListenerId)

  /** A change of pin value: an analog reading or a digital level. */
  datatype PinValueChangedEvent =
    | AnalogPinValueChanged(pin: Pin, analogValue: int)
    | DigitalPinValueChanged(pin: Pin, digitalValue: bool)

  /** A reply from the device to the request that carried the correlation id `id`. */
  datatype RplyEvent = RplyEvent(ok: bool, id: int)

  /** A message of a protocol extension, passed through unparsed. */
  datatype CustomEvent = CustomEvent(message: string)

  /** The two callbacks of a connection listener. */
  datatype ConnectionEvent = ConnectionLost | Reconnected

  /**
   * How a listener's callback ends: it returns, it throws an `Exception`
   * (caught by the dispatch loop), or it throws an `Error` (not caught).
   */
  datatype CallbackResult = Returned | ThrewException | ThrewError

  /** One callback invocation: which listener got which event, and how the callback ended. */
  datatype Delivery<L, E> = Delivery(listener: L, event: E, result: CallbackResult)

  /**
   * `log` records that the listeners of `snapshot` were invoked with `event`
   * once each, in registry order, for as long as none threw an `Error`: an
   * `Exception` does not keep the next listener from being invoked, and the
   * loop ends right after the first listener that throws an `Error`.
   */
  ghost predicate DeliveredInOrder<L, E>(log: seq<Delivery<L, E>>, snapshot: seq<L>, event: E, callback: (L, E) -> CallbackResult)
  {
    && |log| <= |snapshot|
    && (forall k :: 0 <= k < |log| ==> log[k] == Delivery(snapshot[k], event, callback(snapshot[k], event)))
    && (forall k :: 0 <= k < |log| - 1 ==> log[k].result != ThrewError)
    && (|log| < |snapshot| ==> 0 < |log| && log[|log| - 1].result == ThrewError)
  }

  /** Some listener of `snapshot` throws an `Error` when invoked with `event`. */
  ghost predicate SomeError<L, E>(snapshot: seq<L>, event: E, callback: (L, E) -> CallbackResult)
  {
    exists k :: 0 <= k < |snapshot| && callback(snapshot[k], event) == ThrewError
  }

  /**
   * Invokes each listener of `snapshot` with `event`; `callback` says how the
   * listener's callback ends. An `Exception` is caught and the loop goes on
   * with the next listener; an `Error` leaves the loop and propagates to the
   * caller, reported as `error`. Without an `Error`, every listener is reached.
   */
  method Dispatch<L, E>(snapshot: seq<L>, event: E, callback: (L, E) -> CallbackResult)
    returns (log: seq<Delivery<L, E>>, error: bool)
    ensures DeliveredInOrder(log, snapshot, event, callback)
    ensures error <==> SomeError(snapshot, event, callback)
    ensures error <==> 0 < |log| && log[|log| - 1].result == ThrewError
    ensures !error ==> |log| == |snapshot|
  {
    log := [];
    var i := 0;
    while i < |snapshot|
      invariant i <= |snapshot| && |log| == i
      invariant forall k :: 0 <= k < i ==> log[k] == Delivery(snapshot[k], event, callback(snapshot[k], event))
      invariant forall k :: 0 <= k < i ==> log[k].result != ThrewError
    {
      var result := callback(snapshot[i], event);
      log := log + [Delivery(snapshot[i], event, result)];
      if result == ThrewError {
        return log, true;
      }
      i := i + 1;
    }
    return log, false;
  }
}
