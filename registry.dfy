/**
 * Operations on the ordered listener registries of a link, and the transport
 * activation (start/stop watching a pin) that adding and removing a
 * pin-filtered state-change listener entails.
 */
module Registry {
  import opened Events

  /** The position of the first occurrence of `x` in `s`. */
  function FirstIndex<T(==)>(s: seq<T>, x: T): (i: nat)
    requires x in s
    ensures i < |s| && s[i] == x
  {
    if s[0] == x then 0 else FirstIndex(s[1..], x) + 1
  }

  /** No occurrence of `x` comes before `FirstIndex(s, x)`. */
  lemma {:induction false} FirstIndexIsFirst<T>(s: seq<T>, x: T, k: nat)
    requires x in s && k < FirstIndex(s, x)
    ensures s[k] != x
  {
    if k > 0 {
      FirstIndexIsFirst(s[1..], x, k - 1);
    }
  }

  /**
   * A registry's `remove(listener)`: deletes the first occurrence of `x` and
   * leaves the list as it was when `x` is not in it.
   */
  function RemoveFirst<T(==)>(s: seq<T>, x: T): (r: seq<T>)
    ensures x !in s ==> r == s
    ensures x in s ==> |r| == |s| - 1
  {
    if s == [] then []
    else
      assert s == [s[0]] + s[1..];
      if s[0] == x then s[1..]
      else [s[0]] + RemoveFirst(s[1..], x)
  }

  /** The occurrence `RemoveFirst` deletes is the first one; the order of the others is kept. */
  lemma {:induction false} RemoveFirstDeletesFirstOccurrence<T>(s: seq<T>, x: T)
    requires x in s
    ensures RemoveFirst(s, x) == s[..FirstIndex(s, x)] + s[FirstIndex(s, x) + 1..]
  {
    var i := FirstIndex(s, x);
    if s[0] == x {
      assert i == 0 && s[..0] + s[1..] == s[1..];
    } else {
      var t := s[1..];
      var j := FirstIndex(t, x);
      assert i == j + 1;
      RemoveFirstDeletesFirstOccurrence(t, x);
      assert RemoveFirst(s, x) == [s[0]] + RemoveFirst(t, x);
      DeleteBehindHead(s, j);
    }
  }

  /** `RemoveFirst` takes away one occurrence of `x` and keeps every other element. */
  lemma {:induction false} RemoveFirstMultiset<T>(s: seq<T>, x: T)
    ensures multiset(RemoveFirst(s, x)) == multiset(s) - multiset{x}
  {
    if x in s {
      var i := FirstIndex(s, x);
      var front, back := s[..i], s[i + 1..];
      assert multiset(s) == multiset(front) + multiset{x} + multiset(back) by {
        assert s == front + [x] + back;
      }
      assert multiset(RemoveFirst(s, x)) == multiset(front) + multiset(back) by {
        RemoveFirstDeletesFirstOccurrence(s, x);
      }
    }
  }

  /** Deleting position `j + 1` of `s` is keeping its head and deleting position `j` of its tail. */
  lemma DeleteBehindHead<T>(s: seq<T>, j: nat)
    requires j + 1 < |s|
    ensures s[..j + 1] + s[j + 2..] == [s[0]] + (s[1..][..j] + s[1..][j + 1..])
  {
  }

  /** Some pin-filtered listener in `listeners` watches `pin`. */
  predicate Watched(listeners: seq<EventListener>, pin: Pin)
  {
    exists l :: l in listeners && l.Filtered? && l.pin == pin
  }

  /** A call the link makes on its transport to switch the reporting of a pin on or off. */
  datatype TransportCall = StartListening(pin: Pin) | StopListening(pin: Pin)

  /**
   * The transport calls of removing `l`, given the registry `remaining` after
   * the removal: stop watching `l`'s pin when the link is open, `l` is
   * pin-filtered and no listener left watches that pin.
   */
  function StopCallFor(l: EventListener, remaining: seq<EventListener>, closed: bool): seq<TransportCall>
  {
    if !closed && l.Filtered? && !Watched(remaining, l.pin) then [StopListening(l.pin)] else []
  }

  /**
   * The transport calls of removing, one after the other, each listener of
   * `todo` from the registry `current`.
   */
  ghost function DeregisterTrace(todo: seq<EventListener>, current: seq<EventListener>, closed: bool): seq<TransportCall>
    decreases |todo|
  {
    if todo == [] then []
    else
      var rest := RemoveFirst(current, todo[0]);
      StopCallFor(todo[0], rest, closed) + DeregisterTrace(todo[1..], rest, closed)
  }

  /**
   * Removing every listener of the registry, one at a time (`todo` holds the
   * same listeners as `current`), stops watching each pin exactly once if
   * some listener watched it and the link is open, never otherwise, and never
   * starts watching anything.
   */
  lemma {:induction false} DeregisterStopsEachPinOnce(todo: seq<EventListener>, current: seq<EventListener>, closed: bool, pin: Pin)
    requires multiset(todo) == multiset(current)
    ensures multiset(DeregisterTrace(todo, current, closed))[StopListening(pin)]
            == if !closed && Watched(current, pin) then 1 else 0
    ensures StartListening(pin) !in DeregisterTrace(todo, current, closed)
    decreases |todo|
  {
    if todo == [] {
      assert current == [] by { assert |multiset(current)| == 0; }
    } else {
      var l := todo[0];
      var rest := RemoveFirst(current, l);
      var now := StopCallFor(l, rest, closed);
      var later := DeregisterTrace(todo[1..], rest, closed);
      assert DeregisterTrace(todo, current, closed) == now + later;
      assert multiset(now + later) == multiset(now) + multiset(later);
      RemovalKeepsSameListeners(todo, current);
      DeregisterStopsEachPinOnce(todo[1..], rest, closed, pin);
      StopCallCount(l, current, closed, pin);
    }
  }

  /** After removing the head of `todo` from `current`, the two still hold the same listeners. */
  lemma RemovalKeepsSameListeners(todo: seq<EventListener>, current: seq<EventListener>)
    requires todo != [] && multiset(todo) == multiset(current)
    ensures todo[0] in current
    ensures multiset(todo[1..]) == multiset(RemoveFirst(current, todo[0]))
  {
    assert todo[0] in multiset(todo);
    RemoveFirstMultiset(current, todo[0]);
    assert todo == [todo[0]] + todo[1..];
  }

  /**
   * One step of deregistering: if `done` calls have been made and the trace
   * of removing the snapshot's listeners from position `i` on is still to
   * come, then after removing the `i`-th one and making its stop call the
   * same total remains, and the rest of the snapshot and the registry still
   * hold the same listeners.
   */
  lemma DeregisterTraceStep(total: seq<TransportCall>, done: seq<TransportCall>, snapshot: seq<EventListener>, i: nat,
                            current: seq<EventListener>, closed: bool)
    requires i < |snapshot| && multiset(snapshot[i..]) == multiset(current)
    requires total == done + DeregisterTrace(snapshot[i..], current, closed)
    ensures var rest := RemoveFirst(current, snapshot[i]);
      && multiset(snapshot[i + 1..]) == multiset(rest)
      && total == (done + StopCallFor(snapshot[i], rest, closed)) + DeregisterTrace(snapshot[i + 1..], rest, closed)
  {
    assert snapshot[i..][0] == snapshot[i] && snapshot[i..][1..] == snapshot[i + 1..];
    RemovalKeepsSameListeners(snapshot[i..], current);
  }

  /**
   * Removing a listener that is not registered leaves the registry as it is,
   * yet on an open link a pin-filtered one still stops its pin when no
   * registered listener watches that pin.
   */
  lemma RemovingAbsentListenerStopsUnwatchedPin(l: EventListener, current: seq<EventListener>, closed: bool)
    requires l !in current
    ensures RemoveFirst(current, l) == current
    ensures StopCallFor(l, RemoveFirst(current, l), closed)
            == (if !closed && l.Filtered? && !Watched(current, l.pin) then [StopListening(l.pin)] else [])
  {
  }

  /**
   * Removing `l` (an element of `current`) stops watching `pin` exactly when
   * `pin` was watched before the removal and is no longer watched after it.
   */
  lemma StopCallCount(l: EventListener, current: seq<EventListener>, closed: bool, pin: Pin)
    requires l in current
    ensures var rest := RemoveFirst(current, l);
      && multiset(StopCallFor(l, rest, closed))[StopListening(pin)]
         + (if !closed && Watched(rest, pin) then 1 else 0)
         == (if !closed && Watched(current, pin) then 1 else 0)
      && StartListening(pin) !in StopCallFor(l, rest, closed)
  {
  }

  /** On a closed link, removing listeners never touches the transport. */
  lemma {:induction false} ClosedDeregisterIsSilent(todo: seq<EventListener>, current: seq<EventListener>)
    ensures DeregisterTrace(todo, current, true) == []
    decreases |todo|
  {
    if todo != [] {
      ClosedDeregisterIsSilent(todo[1..], RemoveFirst(current, todo[0]));
    }
  }
}
