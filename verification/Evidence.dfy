/** The bounded evidence log with its revision counter. */
module Evidence {
  import opened Bytes
  import opened Wrappers

  type Time = real

  const MAX_EVENTS: nat := 256
  const MAX_CONTEXT: nat := 4
  const MAX_KEYS: nat := 32
  const RETENTION: Time := 2592000.0

  /** The identity of a device, or of a zone of a thermostat group. */
  datatype Key = DeviceKey(addr: byte, subId: byte, channel: Option<nat>) | ZoneKey(group: Key, zone: nat)

  /** A communication point on the bus, or the receiver as a whole. */
  datatype Endpoint = Bus(addr: byte, subId: byte) | Receiver

  datatype Action =
    | TopologyDisappeared | TopologyChanged | CandidateObserved | AdmittedByUser
    | ProbeMatched | ProbeUnconfirmed | UserUnblocked | UserApproved | UserRejected
    | CandidateExpired | InvalidCandidatePayload | RxValidationFailed

  datatype RawEvent = Event(time: Time, endpoint: Endpoint, action: Action, keys: set<Key>, raw: bytes, context: seq<bytes>)

  /** An event as its constructor lets it through. */
  type Event = e: RawEvent | |e.keys| <= MAX_KEYS witness Event(0.0, Receiver, UserApproved, {}, [], [])

  /** The check of the constructor: an event that names too many keys is an error. */
  function MakeEvent(time: Time, endpoint: Endpoint, action: Action, keys: set<Key>, raw: bytes): (r: Option<Event>)
    ensures r.Some? <==> |keys| <= MAX_KEYS
    ensures r.Some? ==> r.value == Event(time, endpoint, action, keys, raw, [])
  {
    if |keys| <= MAX_KEYS then Some(Event(time, endpoint, action, keys, raw, [])) else None
  }

  datatype Log = Log(events: seq<Event>, context: seq<bytes>, revision: nat)

  /** The newest `n` entries. */
  function Newest<T>(s: seq<T>, n: nat): (r: seq<T>)
    ensures |r| == if |s| <= n then |s| else n
  {
    if |s| <= n then s else s[|s| - n..]
  }

  predicate Fresh(e: Event, now: Time) {
    now - RETENTION <= e.time <= now
  }

  function KeepFresh(events: seq<Event>, now: Time): (kept: seq<Event>)
    ensures |kept| <= |events|
    ensures forall e :: e in kept <==> e in events && Fresh(e, now)
    ensures |kept| == |events| ==> kept == events
  {
    if events == [] then []
    else (if Fresh(events[0], now) then [events[0]] else []) + KeepFresh(events[1..], now)
  }

  /** Dropping old entries counts as a change exactly when something is dropped. */
  function Pruned(log: Log, now: Time): (p: Log)
    ensures |p.events| <= |log.events| && forall e :: e in p.events <==> e in log.events && Fresh(e, now)
    ensures p.revision == log.revision <==> |p.events| == |log.events|
    ensures p.revision == log.revision ==> p == log
    ensures log.revision <= p.revision <= log.revision + 1
  {
    var kept := KeepFresh(log.events, now);
    if |kept| == |log.events| then log else log.(events := kept, revision := log.revision + 1)
  }

  function Recorded(log: Log, e: Event, now: Time): (p: Log)
    ensures p.revision > log.revision && p.context == log.context
  {
    var entry := e.(context := log.context);
    Pruned(log.(events := Newest(log.events + [entry], MAX_EVENTS), revision := log.revision + 1), now)
  }

  /** Ordinary traffic is remembered as context only. */
  function Observed(log: Log, raw: bytes): (p: Log)
    ensures p.events == log.events && p.revision == log.revision
  {
    log.(context := Newest(log.context + [raw], MAX_CONTEXT))
  }

  ghost predicate Bounded(log: Log) {
    |log.events| <= MAX_EVENTS && |log.context| <= MAX_CONTEXT
  }

  class DiscoveryEvidence {
    var events: seq<Event>
    var context: seq<bytes>
    var revision: nat

    ghost function Abs(): Log
      reads this
    {
      Log(events, context, revision)
    }

    constructor ()
      ensures Abs() == Log([], [], 0) && Bounded(Abs())
    {
      events, context, revision := [], [], 0;
    }

    method Observe(raw: bytes)
      requires Bounded(Abs())
      modifies this
      ensures Abs() == Observed(old(Abs()), raw) && Bounded(Abs())
    {
      context := Newest(context + [raw], MAX_CONTEXT);
    }

    method Record(e: Event, now: Time)
      requires Bounded(Abs())
      modifies this
      ensures Abs() == Recorded(old(Abs()), e, now) && Bounded(Abs())
    {
      events := Newest(events + [e.(context := context)], MAX_EVENTS);
      revision := revision + 1;
      Prune(now);
    }

    method Prune(now: Time)
      requires Bounded(Abs())
      modifies this
      ensures Abs() == Pruned(old(Abs()), now) && Bounded(Abs())
    {
      var kept := FreshOf(events, now);
      if |kept| != |events| {
        events := kept;
        revision := revision + 1;
      }
    }

    /** Reloading stored events is not a change of its own. */
    method Restore(stored: seq<Event>, now: Time)
      requires |stored| <= MAX_EVENTS && Bounded(Abs())
      modifies this
      ensures Abs() == Pruned(old(Abs()).(events := stored), now) && Bounded(Abs())
    {
      events := stored;
      Prune(now);
    }
  }

  /** The pass over the events. */
  method FreshOf(events: seq<Event>, now: Time) returns (kept: seq<Event>)
    ensures kept == KeepFresh(events, now)
  {
    kept := [];
    for i := 0 to |events|
      invariant kept + KeepFresh(events[i..], now) == KeepFresh(events, now)
    {
      KeepsNext(events, i, now, kept);
      if now - RETENTION <= events[i].time <= now {
        kept := kept + [events[i]];
      }
    }
    assert KeepFresh(events[|events|..], now) == [];
    assert kept + [] == kept;
  }

  lemma KeepsNext(events: seq<Event>, i: nat, now: Time, kept: seq<Event>)
    requires i < |events|
    ensures kept + KeepFresh(events[i..], now)
            == (if Fresh(events[i], now) then kept + [events[i]] else kept) + KeepFresh(events[i + 1..], now)
  {
    assert events[i..][0] == events[i] && events[i..][1..] == events[i + 1..];
    var rest := KeepFresh(events[i + 1..], now);
    assert kept + ([events[i]] + rest) == (kept + [events[i]]) + rest;
    assert [] + rest == rest;
  }

  lemma {:induction false} FreshStay(events: seq<Event>, now: Time)
    requires forall e :: e in events ==> Fresh(e, now)
    ensures KeepFresh(events, now) == events
    decreases |events|
  {
    if events != [] {
      FreshStay(events[1..], now);
      assert events == [events[0]] + events[1..];
    }
  }

  lemma {:induction false} NewestFreshIsLast(events: seq<Event>, e: Event, now: Time)
    requires Fresh(e, now)
    ensures var kept := KeepFresh(events + [e], now); kept != [] && kept[|kept| - 1] == e
    decreases |events|
  {
    if events != [] {
      assert (events + [e])[1..] == events[1..] + [e];
      NewestFreshIsLast(events[1..], e, now);
    } else {
      assert ([] + [e])[1..] == [];
    }
  }

  /** The event is the last of the log. */
  predicate EndsWith(log: Log, e: Event) {
    log.events != [] && log.events[|log.events| - 1] == e
  }

  /** A fresh event that is recorded is the last of the log, with the context of the moment. */
  lemma RecordedIsLast(log: Log, e: Event, now: Time)
    requires Fresh(e, now)
    ensures EndsWith(Recorded(log, e, now), e.(context := log.context))
  {
    var entry := e.(context := log.context);
    var all := log.events + [entry];
    var newest := Newest(all, MAX_EVENTS);
    assert newest == newest[..|newest| - 1] + [entry];
    NewestFreshIsLast(newest[..|newest| - 1], entry, now);
  }

  /** While nothing is outdated, the log holds the latest 256 events: the oldest one goes first. */
  lemma OldestGoesFirst(log: Log, e: Event, now: Time)
    requires |log.events| <= 256 && Fresh(e, now) && forall x :: x in log.events ==> Fresh(x, now)
    ensures Recorded(log, e, now).events
            == (if |log.events| == 256 then log.events[1..] else log.events) + [e.(context := log.context)]
    ensures Recorded(log, e, now).revision == log.revision + 1
  {
    var all := log.events + [e.(context := log.context)];
    var newest := Newest(all, MAX_EVENTS);
    assert newest == (if |log.events| == 256 then log.events[1..] else log.events) + [e.(context := log.context)];
    FreshStay(newest, now);
  }

  /** The context of an event is the last four frames heard. */
  lemma ContextIsRecent(log: Log, raw: bytes)
    requires |log.context| <= 4
    ensures Observed(log, raw).context == (if |log.context| == 4 then log.context[1..] else log.context) + [raw]
  {
  }

  /** Events are kept for thirty days, and events from the future are not kept. */
  lemma FreshExactly(e: Event, now: Time)
    ensures Fresh(e, now) <==> 0.0 <= now - e.time <= 30.0 * 86400.0
  {
  }
}
