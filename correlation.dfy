/**
 * The message-id correlator of a link, as values: the process-wide message
 * counter together with the link's per-thread reservation slots, and the two
 * operations on them (reserve the next id for the calling thread; tag an
 * outgoing command with an id when reply listeners are registered).
 */
module Correlation {
  import opened Wrappers

  /** Identifies the calling thread of execution. */
  type ThreadId = nat

  /** A command as sent: unchanged, or wrapped so that it carries a message id. */
  datatype Outgoing<T> = Untagged(cmd: T) | Tagged(cmd: T, id: int)

  /**
   * `counter` is the last id handed out in the process; `slots` is the link's
   * thread-local reservation, a thread without an entry reading as unset.
   */
  datatype Correlator = Correlator(counter: int, slots: map<ThreadId, Option<int>>)

  /** What the thread-local slot holds for thread `t`. */
  function Reserved(slots: map<ThreadId, Option<int>>, t: ThreadId): Option<int>
  {
    if t in slots then slots[t] else None
  }

  /**
   * `nextLocalId`: takes the next id from the counter, stores it as the
   * calling thread's reservation and returns it.
   */
  function NextLocalId(c: Correlator, t: ThreadId): (res: (Correlator, int))
    ensures res.1 == c.counter + 1 && res.0.counter == res.1
    ensures Reserved(res.0.slots, t) == Some(res.1)
    ensures forall u :: u != t ==> Reserved(res.0.slots, u) == Reserved(c.slots, u)
  {
    var id := c.counter + 1;
    (Correlator(id, c.slots[t := Some(id)]), id)
  }

  /**
   * `addMessageIdIfNeeded`: with no reply listener (`replyListening` false)
   * the command goes out untouched and nothing changes. Otherwise the calling
   * thread's reservation is cleared and the command is tagged with the
   * reserved id, or with a fresh id from the counter when none was reserved.
   */
  function AddMessageIdIfNeeded<T>(c: Correlator, replyListening: bool, t: ThreadId, cmd: T): (res: (Correlator, Outgoing<T>))
    ensures !replyListening ==> res.0 == c && res.1 == Untagged(cmd)
    ensures replyListening ==> res.1.Tagged? && res.1.cmd == cmd
    ensures replyListening && Reserved(c.slots, t).Some? ==>
              res.1.id == Reserved(c.slots, t).value && res.0.counter == c.counter
    ensures replyListening && Reserved(c.slots, t).None? ==>
              res.1.id == c.counter + 1 && res.0.counter == c.counter + 1
    ensures replyListening ==> Reserved(res.0.slots, t) == None
    ensures forall u :: u != t ==> Reserved(res.0.slots, u) == Reserved(c.slots, u)
  {
    if !replyListening then (c, Untagged(cmd))
    else
      var slots := c.slots[t := None];
      match Reserved(c.slots, t)
      case Some(id) => (Correlator(c.counter, slots), Tagged(cmd, id))
      case None => (Correlator(c.counter + 1, slots), Tagged(cmd, c.counter + 1))
  }

  /**
   * With a reply listener registered, the id `nextLocalId` returns on a thread
   * is the one that thread's next command is tagged with; the counter does not
   * move and the reservation is used up.
   */
  lemma ReservedIdTagsNextCommand<T>(c: Correlator, t: ThreadId, cmd: T)
    ensures var (c1, k) := NextLocalId(c, t);
            var (c2, out) := AddMessageIdIfNeeded(c1, true, t, cmd);
            && out == Tagged(cmd, k)
            && c2.counter == c1.counter
            && Reserved(c2.slots, t) == None
  {
  }

  /**
   * A reservation belongs to its thread: a command sent from another thread
   * takes a fresh id and leaves the reservation in place for its owner.
   */
  lemma ReservationIsThreadScoped<T>(c: Correlator, t: ThreadId, u: ThreadId, cmd: T)
    requires u != t && Reserved(c.slots, u) == None
    ensures var (c1, k) := NextLocalId(c, t);
            var (c2, out) := AddMessageIdIfNeeded(c1, true, u, cmd);
            && out == Tagged(cmd, k + 1)
            && Reserved(c2.slots, t) == Some(k)
  {
  }

  /** One call on the correlator; `Elsewhere` is another link of the process taking an id. */
  datatype Call = Reserve(thread: ThreadId) | Send(thread: ThreadId, replyListening: bool) | Elsewhere

  /**
   * The state after `call`, the id the call tagged a command of this link
   * with, if any, and the id another link took from the counter, if any.
   */
  function Step(c: Correlator, call: Call): (Correlator, Option<int>, Option<int>)
  {
    match call
    case Reserve(t) => (NextLocalId(c, t).0, None, None)
    case Send(t, listening) =>
      var (c1, out) := AddMessageIdIfNeeded(c, listening, t, ());
      (c1, if out.Tagged? then Some(out.id) else None, None)
    case Elsewhere => (Correlator(c.counter + 1, c.slots), None, Some(c.counter + 1))
  }

  /** The ids that the commands sent during `calls` were tagged with, in order. */
  function Tags(c: Correlator, calls: seq<Call>): seq<int>
    decreases |calls|
  {
    if calls == [] then []
    else
      var (c1, tag, _) := Step(c, calls[0]);
      (if tag.Some? then [tag.value] else []) + Tags(c1, calls[1..])
  }

  /** The ids that other links took from the shared counter during `calls`, in order. */
  function TakenElsewhere(c: Correlator, calls: seq<Call>): seq<int>
    decreases |calls|
  {
    if calls == [] then []
    else
      var (c1, _, other) := Step(c, calls[0]);
      (if other.Some? then [other.value] else []) + TakenElsewhere(c1, calls[1..])
  }

  ghost predicate Distinct(s: seq<int>)
  {
    forall i, j :: 0 <= i < j < |s| ==> s[i] != s[j]
  }

  /**
   * Nothing in `c` can repeat an id of `used`: the counter is past every used
   * id, and each reservation is an id already taken from the counter, not
   * used, and reserved for one thread only.
   */
  ghost predicate Fresh(c: Correlator, used: set<int>)
  {
    && (forall x :: x in used ==> x <= c.counter)
    && (forall t :: Reserved(c.slots, t).Some? ==>
          Reserved(c.slots, t).value <= c.counter && Reserved(c.slots, t).value !in used)
    && (forall t, u :: t != u && Reserved(c.slots, t).Some? && Reserved(c.slots, u).Some? ==>
          Reserved(c.slots, t).value != Reserved(c.slots, u).value)
  }

  /** `used` with the ids of `tag` and `other` added. */
  function Use(used: set<int>, tag: Option<int>, other: Option<int>): set<int>
  {
    (if tag.Some? then used + {tag.value} else used) + (if other.Some? then {other.value} else {})
  }

  /**
   * Every call keeps `Fresh`, with the id it tagged a command with and the id
   * another link took added to `used`; neither id was used before.
   */
  lemma StepKeepsFresh(c: Correlator, used: set<int>, call: Call)
    requires Fresh(c, used)
    ensures var (c1, tag, other) := Step(c, call);
            && (tag.Some? ==> tag.value !in used)
            && (other.Some? ==> other.value !in used)
            && Fresh(c1, Use(used, tag, other))
  {
  }

  /**
   * Starting from a state where nothing can repeat an id of `used`, the ids
   * that commands are tagged with are pairwise distinct, none is in `used`,
   * and none is an id that another link took from the shared counter during
   * the same calls.
   */
  lemma {:induction false} TagsNeverRepeat(c: Correlator, used: set<int>, calls: seq<Call>)
    requires Fresh(c, used)
    ensures Distinct(Tags(c, calls))
    ensures forall x :: x in Tags(c, calls) ==> x !in used
    ensures forall x :: x in TakenElsewhere(c, calls) ==> x !in used
    ensures forall x :: x in Tags(c, calls) ==> x !in TakenElsewhere(c, calls)
    decreases |calls|
  {
    if calls != [] {
      var (c1, tag, other) := Step(c, calls[0]);
      var used1 := Use(used, tag, other);
      StepKeepsFresh(c, used, calls[0]);
      TagsNeverRepeat(c1, used1, calls[1..]);
      var head := if tag.Some? then [tag.value] else [];
      var rest := Tags(c1, calls[1..]);
      var taken := (if other.Some? then [other.value] else []) + TakenElsewhere(c1, calls[1..]);
      assert Tags(c, calls) == head + rest;
      assert TakenElsewhere(c, calls) == taken;
      forall i, j | 0 <= i < j < |head + rest| ensures (head + rest)[i] != (head + rest)[j] {
        if i < |head| {
          assert (head + rest)[j] == rest[j - |head|];
          assert rest[j - |head|] in rest;
        }
      }
    }
  }

  /**
   * A new link has no reservations, so however the process counter stands and
   * whatever its threads and other links do, no two of its commands carry
   * the same id, and none carries an id another link took meanwhile.
   */
  lemma NewLinkTagsNeverRepeat(counter: int, calls: seq<Call>)
    ensures Distinct(Tags(Correlator(counter, map[]), calls))
    ensures forall x :: x in Tags(Correlator(counter, map[]), calls) ==> x !in TakenElsewhere(Correlator(counter, map[]), calls)
  {
    TagsNeverRepeat(Correlator(counter, map[]), {}, calls);
  }
}
