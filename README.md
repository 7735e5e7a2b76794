# Ardulink link core in Dafny

This project models two pieces of Ardulink, a Java client library that drives a
microcontroller over a line protocol.

**The listener and correlation core of every link (`AbstractListenerLink`).**
A link keeps four ordered listener registries: state-change, reply, custom and
connection listeners. Each `fire*` operation delivers an event to every
listener of its registry, in registration order, over a snapshot of the
registry. A listener that throws an `Exception` does not stop delivery to the
listeners after it; one that throws an `Error` ends the delivery, and the
`Error` propagates to the caller of `fire*`. Adding a pin-filtered state-change listener to an open link asks the
transport to start reporting that pin. Removing one asks it to stop, but only
when no remaining listener watches the pin. Outgoing commands are tagged with a
message id only while at least one reply listener is registered. The id is the
one the calling thread reserved with `nextLocalId`, or else a fresh one taken
from a process-wide counter.

- `events.dfy` (module `Events`): pins, listeners, events and the one
  dispatch loop all `fire*` operations share.
- `registry.dfy` (module `Registry`): first-occurrence removal, "some
  listener watches this pin", the transport calls of removal and of
  deregistering everything, and the lemmas about them.
- `correlation.dfy` (module `Correlation`): the correlator as a value and
  its two operations, with the lemmas about reservations and about ids never
  repeating.
- `listener_link.dfy` (module `ListenerLink`): the shared `MessageCounter`
  object and the `AbstractListenerLink` class. Its methods update the
  registries, the closed flag and the per-thread reservations in place. Each
  method is specified by the functions of the modules above.

**The MQTT link configuration (`MqttLinkConfig`)** is in `mqtt_link_config.dfy`
(module `Mqtt`). It covers the defaults, the setters with their null rules, and
`normalize`, which keeps the topic ending in "/".

Four behaviours of the code worth noting:
- `addListener` asks the transport to start reporting the pin on every
  addition of a filtered listener, even when the pin is already watched. There
  is no single activation per pin.
- `addMessageIdIfNeeded` without reply listeners leaves the thread's
  reservation in place. A later call with reply listeners still uses it.
- `close` only sets the closed flag. It neither empties the registries nor
  stops any pin.
- `removeListener` with a pin-filtered listener that is not registered (never
  added, or already removed) leaves the registry as it is, yet on an open link
  it still asks the transport to stop reporting that pin when no registered
  listener watches it.

Listener identity is modelled as a number per listener object (`ListenerId`).
Registries compare listeners as values. The lists remove with `equals`, so this
stands for reference equality on the assumption that no listener class
overrides `equals`. The calling thread is an explicit `ThreadId` parameter. The
thread-local slot is a `map<ThreadId, Option<int>>`, and a missing key reads as
unset. The transport's `startListening`/`stopListening` are abstract in this
class. They are recorded as a ghost log, `transportCalls`. A listener's
callback is abstracted as a function that says, for a given event, whether it
returns, throws an `Exception` or throws an `Error`. Each `fire*` method returns the log of deliveries it made.

## Model

| member | source | states |
|---|---|---|
| Events.Dispatch | ardulink-core-base/src/main/java/org/ardulink/core/AbstractListenerLink.java:152-212 | the listeners of the snapshot are invoked once each with the event, in registry order; an `Exception` does not stop the ones after it; the loop ends right after the first listener that throws an `Error`, and the `Error` is reported exactly when some listener throws one; without one every listener is reached |
| Registry.RemoveFirst | ardulink-core-base/src/main/java/org/ardulink/core/AbstractListenerLink.java:118 | removal leaves the list unchanged when the listener is absent, and otherwise makes it exactly one shorter |
| Registry.FirstIndexIsFirst | ardulink-core-base/src/main/java/org/ardulink/core/AbstractListenerLink.java:118 | no occurrence of the listener lies before the position removal deletes |
| Registry.RemoveFirstDeletesFirstOccurrence | ardulink-core-base/src/main/java/org/ardulink/core/AbstractListenerLink.java:118 | removal deletes the first occurrence and keeps the order of all other listeners |
| Registry.RemoveFirstMultiset | ardulink-core-base/src/main/java/org/ardulink/core/AbstractListenerLink.java:118 | removal takes away exactly one occurrence of the listener and keeps every other listener |
| Registry.RemovalKeepsSameListeners | ardulink-core-base/src/main/java/org/ardulink/core/AbstractListenerLink.java:237-241 | while deregistering, the snapshot's rest and the registry hold the same listeners after each removal |
| Registry.DeregisterTraceStep | ardulink-core-base/src/main/java/org/ardulink/core/AbstractListenerLink.java:237-241 | removing the next snapshot listener makes that removal's stop call and leaves the remaining trace and the same listeners on both sides |
| Registry.StopCallCount | ardulink-core-base/src/main/java/org/ardulink/core/AbstractListenerLink.java:117-126 | removing a registered listener stops a pin exactly when the pin was watched before it and is no longer watched after it, and it never starts a pin |
| Registry.RemovingAbsentListenerStopsUnwatchedPin | ardulink-core-base/src/main/java/org/ardulink/core/AbstractListenerLink.java:117-124 | removing a listener that is not registered leaves the registry unchanged, and on an open link a pin-filtered one still stops its pin exactly when no registered listener watches it |
| Registry.DeregisterStopsEachPinOnce | ardulink-core-base/src/main/java/org/ardulink/core/AbstractListenerLink.java:237-241 | deregistering all listeners of an open link stops each watched pin exactly once, stops no unwatched pin and starts nothing; on a closed link it stops nothing |
| Registry.ClosedDeregisterIsSilent | ardulink-core-base/src/main/java/org/ardulink/core/AbstractListenerLink.java:117-126 | on a closed link, removals make no transport calls |
| Correlation.NextLocalId | ardulink-core-base/src/main/java/org/ardulink/core/AbstractListenerLink.java:97-101 | reserving returns the counter plus one, advances the counter to it and stores it for the calling thread only |
| Correlation.AddMessageIdIfNeeded | ardulink-core-base/src/main/java/org/ardulink/core/AbstractListenerLink.java:72-91 | with no reply listener the command and the state are unchanged; otherwise the command is tagged with the reserved id (counter unchanged) or with counter plus one (counter advanced), and the thread's slot is left empty, other threads untouched |
| Correlation.ReservedIdTagsNextCommand | ardulink-core-base/src/main/java/org/ardulink/core/AbstractListenerLink.java:79-87 | after reserving k, the same thread's next command is tagged with exactly k, the counter does not move and the reservation is used up |
| Correlation.ReservationIsThreadScoped | ardulink-core-base/src/main/java/org/ardulink/core/AbstractListenerLink.java:58 | a command sent from another thread that has no reservation of its own takes a fresh id and leaves the first thread's reservation in place |
| Correlation.StepKeepsFresh | ardulink-core-base/src/main/java/org/ardulink/core/AbstractListenerLink.java:63-101 | each reserve, send, or id taken by another link keeps the counter past all used ids and keeps reservations unused and distinct |
| Correlation.TagsNeverRepeat | ardulink-core-base/src/main/java/org/ardulink/core/AbstractListenerLink.java:63-101 | over any sequence of reservations, sends on any threads and ids taken by other links, tagged ids are pairwise distinct, avoid all earlier ids and avoid every id another link takes from the shared counter during the same calls |
| Correlation.NewLinkTagsNeverRepeat | ardulink-core-base/src/main/java/org/ardulink/core/AbstractListenerLink.java:56-58 | a new link never tags two commands with the same id, nor one with an id another link took meanwhile, whatever the process counter's value |
| ListenerLink.MessageCounter.constructor | ardulink-core-base/src/main/java/org/ardulink/core/AbstractListenerLink.java:56 | the counter starts at zero with no id handed out |
| ListenerLink.MessageCounter.NextId | ardulink-core-base/src/main/java/org/ardulink/core/AbstractListenerLink.java:63-65 | returns the previous value plus one, stores it, and the id was never handed out before |
| ListenerLink.AbstractListenerLink.constructor | ardulink-core-base/src/main/java/org/ardulink/core/AbstractListenerLink.java:49-58 | a new link has four empty registries, is open, has no reservations and has made no transport calls |
| ListenerLink.AbstractListenerLink.AddMessageIdIfNeeded | ardulink-core-base/src/main/java/org/ardulink/core/AbstractListenerLink.java:72-91 | the new reservations, counter and returned command are those of the correlator function; a freshly taken id was never handed out before and is added to the ids handed out, which otherwise stay as they were |
| ListenerLink.AbstractListenerLink.NextLocalId | ardulink-core-base/src/main/java/org/ardulink/core/AbstractListenerLink.java:97-101 | the new reservations, counter and returned id are those of the correlator function, and the id is new to the process and is added to the ids handed out |
| ListenerLink.AbstractListenerLink.AddListener | ardulink-core-base/src/main/java/org/ardulink/core/AbstractListenerLink.java:103-115 | appends the listener; on an open link a filtered listener adds a start call for its pin on every addition |
| ListenerLink.AbstractListenerLink.RemoveListener | ardulink-core-base/src/main/java/org/ardulink/core/AbstractListenerLink.java:117-126 | removes the first occurrence; a stop call for the pin only when open, filtered and no remaining listener watches the pin |
| ListenerLink.AbstractListenerLink.AddRplyListener | ardulink-core-base/src/main/java/org/ardulink/core/AbstractListenerLink.java:128-132 | appends to the reply registry and changes nothing else |
| ListenerLink.AbstractListenerLink.RemoveRplyListener | ardulink-core-base/src/main/java/org/ardulink/core/AbstractListenerLink.java:134-138 | removes the first occurrence from the reply registry and changes nothing else |
| ListenerLink.AbstractListenerLink.AddCustomListener | ardulink-core-base/src/main/java/org/ardulink/core/AbstractListenerLink.java:140-144 | appends to the custom registry and changes nothing else |
| ListenerLink.AbstractListenerLink.RemoveCustomListener | ardulink-core-base/src/main/java/org/ardulink/core/AbstractListenerLink.java:146-150 | removes the first occurrence from the custom registry and changes nothing else |
| ListenerLink.AbstractListenerLink.FireStateChanged | ardulink-core-base/src/main/java/org/ardulink/core/AbstractListenerLink.java:152-170 | the state-change listeners get the event once each, in order, up to and including the first that throws an `Error`; an `Exception` does not stop the later listeners; without an `Error` every listener is reached, and the `Error` is reported exactly when some listener throws one |
| ListenerLink.AbstractListenerLink.FireReplyReceived | ardulink-core-base/src/main/java/org/ardulink/core/AbstractListenerLink.java:172-180 | the reply listeners get the reply once each, in order, up to and including the first that throws an `Error`; an `Exception` does not stop the later listeners; without an `Error` every listener is reached, and the `Error` is reported exactly when some listener throws one |
| ListenerLink.AbstractListenerLink.FireCustomReceived | ardulink-core-base/src/main/java/org/ardulink/core/AbstractListenerLink.java:182-190 | the custom listeners get the event once each, in order, up to and including the first that throws an `Error`; an `Exception` does not stop the later listeners; without an `Error` every listener is reached, and the `Error` is reported exactly when some listener throws one |
| ListenerLink.AbstractListenerLink.FireConnectionLost | ardulink-core-base/src/main/java/org/ardulink/core/AbstractListenerLink.java:192-201 | the connection listeners are told of the loss once each, in order, up to and including the first that throws an `Error`; an `Exception` does not stop the later listeners; without an `Error` every listener is reached, and the `Error` is reported exactly when some listener throws one |
| ListenerLink.AbstractListenerLink.FireReconnected | ardulink-core-base/src/main/java/org/ardulink/core/AbstractListenerLink.java:203-212 | the connection listeners are told of the reconnection once each, in order, up to and including the first that throws an `Error`; an `Exception` does not stop the later listeners; without an `Error` every listener is reached, and the `Error` is reported exactly when some listener throws one |
| ListenerLink.AbstractListenerLink.HasListenerForPin | ardulink-core-base/src/main/java/org/ardulink/core/AbstractListenerLink.java:214-223 | true exactly when some pin-filtered listener in the registry is bound to the pin |
| ListenerLink.AbstractListenerLink.AddConnectionListener | ardulink-core-base/src/main/java/org/ardulink/core/AbstractListenerLink.java:226-229 | appends to the connection registry and changes nothing else |
| ListenerLink.AbstractListenerLink.RemoveConnectionListener | ardulink-core-base/src/main/java/org/ardulink/core/AbstractListenerLink.java:231-235 | removes the first occurrence from the connection registry and changes nothing else |
| ListenerLink.AbstractListenerLink.DeregisterAllEventListeners | ardulink-core-base/src/main/java/org/ardulink/core/AbstractListenerLink.java:237-241 | the state-change registry ends empty, and the transport calls are those of removing each listener of the entry snapshot in turn |
| ListenerLink.AbstractListenerLink.Close | ardulink-core-base/src/main/java/org/ardulink/core/AbstractListenerLink.java:243-246 | the link is closed and nothing else changes |
| Mqtt.Normalize | ardulink-core-mqtt/src/main/java/org/ardulink/core/mqtt/MqttLinkConfig.java:88-90 | the result ends with "/", extends the topic by at most one character, and equals the topic exactly when the topic already ends with "/" |
| Mqtt.NormalizeAppendsOneSlash | ardulink-core-mqtt/src/main/java/org/ardulink/core/mqtt/MqttLinkConfig.java:89 | a topic without a trailing "/" gets exactly one "/" appended |
| Mqtt.NormalizeIdempotent | ardulink-core-mqtt/src/main/java/org/ardulink/core/mqtt/MqttLinkConfig.java:88-90 | normalizing twice equals normalizing once |
| Mqtt.NormalizeIsShortest | ardulink-core-mqtt/src/main/java/org/ardulink/core/mqtt/MqttLinkConfig.java:88-90 | no extension of the topic that ends with "/" is shorter than the normalized topic |
| Mqtt.DeclaredBoundsAdmitPort65536 | ardulink-core-mqtt/src/main/java/org/ardulink/core/mqtt/MqttLinkConfig.java:43-46 | the declared upper bound evaluates to 65536, so port 65536 passes it although it is not a TCP port |
| Mqtt.PortInRangeIsNonzeroSixteenBit | ardulink-core-mqtt/src/main/java/org/ardulink/core/mqtt/MqttLinkConfig.java:43-46 | the intended bounds admit exactly the nonzero values of a 16-bit port field |
| Mqtt.MqttLinkConfig.constructor | ardulink-core-mqtt/src/main/java/org/ardulink/core/mqtt/MqttLinkConfig.java:37-54 | defaults: host "localhost", port 1883 (in range), topic "home/devices/ardulink/" (already normalized), client id "ardulink-mqtt-link" |
| Mqtt.MqttLinkConfig.GetHost | ardulink-core-mqtt/src/main/java/org/ardulink/core/mqtt/MqttLinkConfig.java:56-58 | returns the stored host |
| Mqtt.MqttLinkConfig.GetPort | ardulink-core-mqtt/src/main/java/org/ardulink/core/mqtt/MqttLinkConfig.java:64-66 | returns the stored port |
| Mqtt.MqttLinkConfig.GetTopic | ardulink-core-mqtt/src/main/java/org/ardulink/core/mqtt/MqttLinkConfig.java:72-74 | returns the stored topic, which ends with "/" while the configuration's invariant holds |
| Mqtt.MqttLinkConfig.GetClientId | ardulink-core-mqtt/src/main/java/org/ardulink/core/mqtt/MqttLinkConfig.java:80-82 | returns the stored client id |
| Mqtt.MqttLinkConfig.SetHost | ardulink-core-mqtt/src/main/java/org/ardulink/core/mqtt/MqttLinkConfig.java:60-62 | a null host reads back as "localhost"; any other host reads back verbatim |
| Mqtt.MqttLinkConfig.SetPort | ardulink-core-mqtt/src/main/java/org/ardulink/core/mqtt/MqttLinkConfig.java:68-70 | any port reads back verbatim; no range check |
| Mqtt.MqttLinkConfig.SetTopic | ardulink-core-mqtt/src/main/java/org/ardulink/core/mqtt/MqttLinkConfig.java:76-78 | a non-null topic reads back normalized; a null topic fails with a NullPointerException without a message and leaves the topic unchanged; the topic always ends with "/" |
| Mqtt.MqttLinkConfig.SetClientId | ardulink-core-mqtt/src/main/java/org/ardulink/core/mqtt/MqttLinkConfig.java:84-86 | a null id fails with a NullPointerException and leaves the id unchanged; any other id reads back verbatim |

## Findings

| source | as written | input that shows it | evidently intended | confidence | as-written member | corrected member |
|---|---|---|---|---|---|---|
| ardulink-core-mqtt/src/main/java/org/ardulink/core/mqtt/MqttLinkConfig.java:45 | `@Max(2 << 16 - 1)`: Java binds `-` tighter than `<<`, so the bound is `2 << 15` = 65536 | port 65536 passes the declared bounds | 2^16 - 1 = 65535, the largest TCP port | medium, not executed | Mqtt.DeclaredBoundsAdmitPort65536 | Mqtt.PortInRangeIsNonzeroSixteenBit |

## Left out

- Concurrency is modelled sequentially. This covers `synchronized`, the copy-on-write lists and the `ThreadLocal`. A dispatch iterates over the registry value read on entry. `nextId` synchronizes on the link object while the counter is static, so two links on different threads are not mutually excluded. A sequential model cannot show that race.
- `startListening`/`stopListening` may throw an `IOException`. The model assumes they return normally. A failing `startListening` would leave the listener unregistered, and a failing `stopListening` would end `deregisterAllEventListeners` early.
- A listener callback is modelled only by how it ends: it returns, throws an `Exception` or throws an `Error`. Side effects it has on the link, such as re-entrant add or remove, are not modelled. The snapshot keeps them out of the dispatch under way.
- The logging of listener failures is not modelled.
- The proxy built by `MessageIdHolders.addMessageId` is the `Tagged` constructor. `MessageIdHolders` is not part of this model.
- The 64-bit wrap-around of the message counter is not modelled. The counter is an unbounded integer.
- `Preconditions.checkNotNull` is not part of this model. It is taken to throw a NullPointerException carrying the given message.
- The `@NotNull`, `@Min` and `@Max` annotations are declarative, and nothing in this class or the model enforces them.
- Mqtt.MqttLinkConfig.SetTopic: the NullPointerException for a null topic is modelled without a message, as a JVM without helpful NullPointerException messages raises it; with them enabled (the default since JDK 15) the JVM adds a message naming `topic`.
- The link operations that subclasses implement (switching pins, sending custom messages, tones, key presses) are not part of this model.
- The analog and digital `fireStateChanged` overloads have the same body. They are one method over a sum type of the two events.
