/** The admission guard as a state machine: every operation as a function of the state and one clock
    reading. */
module GuardState {
  import opened Bytes
  import opened Wrappers
  import opened Dicts
  import opened Evidence

  const MIN_OBSERVATIONS: nat := 3
  const MIN_SPACING: Time := 60.0
  const MIN_SPAN: Time := 600.0
  const CANDIDATE_TTL: Time := 86400.0
  const BLOCK_TTL: Time := 86400.0
  const MAX_CANDIDATES: nat := 100

  datatype Observation = Observation(endpoint: Endpoint, keys: set<Key>, raw: bytes, automatic: bool)

  datatype Candidate = Candidate(
    observation: Observation, first: Time, last: Time, counted: Time, count: nat,
    probes: nat, lastProbe: Option<Time>, approved: bool)

  datatype Guard = Guard(
    evidence: Log, pending: Dict<Endpoint, Candidate>, blocked: Dict<Endpoint, Time>, verification: bool)

  /** What a call answers, unless it raises. */
  datatype Answer = Yes | No | Raised

  /** An event can be made of the observation; otherwise recording it raises. */
  predicate Recordable(o: Observation) {
    |o.keys| <= MAX_KEYS
  }

  function Note(g: Guard, o: Observation, action: Action, now: Time): (h: Guard)
    requires Recordable(o)
    ensures h.evidence.revision > g.evidence.revision
    ensures h.pending == g.pending && h.blocked == g.blocked && h.verification == g.verification
  {
    g.(evidence := Recorded(g.evidence, Event(now, o.endpoint, action, o.keys, o.raw, []), now))
  }

  /** The first entry, in insertion order, with the least value. */
  function Oldest(order: seq<Endpoint>, m: map<Endpoint, Time>): (e: Option<Endpoint>)
    ensures e.Some? ==> e.value in m
    ensures e.None? <==> forall k :: k in order ==> k !in m
    ensures e.Some? ==> forall k :: k in order && k in m ==> m[e.value] <= m[k]
  {
    if order == [] then None
    else
      var later := Oldest(order[1..], m);
      if order[0] in m && (later.None? || m[order[0]] <= m[later.value]) then Some(order[0]) else later
  }

  /** A blocking entry makes room for itself by evicting the one that expires first. */
  function Blocked(blocked: Dict<Endpoint, Time>, endpoint: Endpoint, until: Time): Dict<Endpoint, Time> {
    var oldest := Oldest(blocked.order, blocked.m);
    var room := if |blocked.m| >= MAX_CANDIDATES && oldest.Some? then Pop(blocked, oldest.value) else blocked;
    Put(room, endpoint, until)
  }

  /** A candidate that cannot be recorded goes, but its endpoint is not blocked: the call raises in between. */
  function Discarded(g: Guard, endpoint: Endpoint, reason: Action, now: Time): (h: Guard)
    requires endpoint in g.pending.m
    ensures h.pending == Pop(g.pending, endpoint) && h.verification == g.verification
    ensures h.evidence.revision >= g.evidence.revision
    ensures h.evidence.revision == g.evidence.revision ==> h.evidence == g.evidence && h.blocked == g.blocked
  {
    var popped := g.(pending := Pop(g.pending, endpoint));
    var o := g.pending.m[endpoint].observation;
    if !Recordable(o) then popped
    else
      var noted := Note(popped, o, reason, now);
      noted.(blocked := Blocked(noted.blocked, endpoint, now + BLOCK_TTL))
  }

  function UnblockDue(g: Guard, keys: seq<Endpoint>, now: Time): (h: Guard)
    ensures h.pending == g.pending && h.verification == g.verification
    ensures g.evidence.revision <= h.evidence.revision
    ensures h.evidence.revision == g.evidence.revision ==> h == g
    decreases |keys|
  {
    if keys == [] then g
    else
      var k := keys[0];
      var next := if k in g.blocked.m && g.blocked.m[k] <= now
                  then g.(blocked := Pop(g.blocked, k), evidence := g.evidence.(revision := g.evidence.revision + 1))
                  else g;
      UnblockDue(next, keys[1..], now)
  }

  predicate Stale(c: Candidate, now: Time) {
    now < c.first || now - c.first >= CANDIDATE_TTL
  }

  /** Discards stale candidates until one of them raises. */
  function DiscardStale(g: Guard, keys: seq<Endpoint>, now: Time): (r: (Guard, bool))
    ensures r.0.verification == g.verification && g.evidence.revision <= r.0.evidence.revision
    ensures r.0.evidence.revision == g.evidence.revision ==> r.0.evidence == g.evidence && r.0.blocked == g.blocked
    decreases |keys|
  {
    if keys == [] then (g, false)
    else
      var k := keys[0];
      if k !in g.pending.m || !Stale(g.pending.m[k], now) then DiscardStale(g, keys[1..], now)
      else
        var next := Discarded(g, k, CandidateExpired, now);
        if !Recordable(g.pending.m[k].observation) then (next, true) else DiscardStale(next, keys[1..], now)
  }

  /** `expire`, and whether it raises. */
  function Expired(g: Guard, now: Time): (r: (Guard, bool))
    ensures r.0.verification == g.verification && g.evidence.revision <= r.0.evidence.revision
  {
    var unblocked := UnblockDue(g, g.blocked.order, now);
    var (discarded, raised) := DiscardStale(unblocked, unblocked.pending.order, now);
    (if raised then discarded else discarded.(evidence := Pruned(discarded.evidence, now)), raised)
  }

  /** A candidate whose expiry raises. */
  ghost predicate Jams(g: Guard, e: Endpoint, now: Time) {
    e in g.pending.m && Stale(g.pending.m[e], now) && !Recordable(g.pending.m[e].observation)
  }

  /** Discarding leaves what it leaves as it was, and leaves whatever is not stale. */
  lemma {:induction false} DiscardStaleSpares(g: Guard, keys: seq<Endpoint>, now: Time)
    ensures var h := DiscardStale(g, keys, now).0;
      && (forall e :: e in h.pending.m ==> e in g.pending.m && h.pending.m[e] == g.pending.m[e])
      && (forall e :: e in g.pending.m && !Stale(g.pending.m[e], now) ==> e in h.pending.m)
    decreases |keys|
  {
    if keys != [] {
      var k := keys[0];
      if k !in g.pending.m || !Stale(g.pending.m[k], now) {
        DiscardStaleSpares(g, keys[1..], now);
      } else if Recordable(g.pending.m[k].observation) {
        DiscardStaleSpares(Discarded(g, k, CandidateExpired, now), keys[1..], now);
      }
    }
  }

  lemma {:induction false} DiscardStaleRaises(g: Guard, keys: seq<Endpoint>, now: Time)
    ensures DiscardStale(g, keys, now).1 <==> exists e :: e in keys && Jams(g, e, now)
    decreases |keys|
  {
    if keys != [] {
      var k := keys[0];
      assert keys == [k] + keys[1..];
      if k !in g.pending.m || !Stale(g.pending.m[k], now) {
        DiscardStaleRaises(g, keys[1..], now);
      } else if Recordable(g.pending.m[k].observation) {
        var next := Discarded(g, k, CandidateExpired, now);
        DiscardStaleRaises(next, keys[1..], now);
        assert forall e :: e in keys && e != k ==> Jams(next, e, now) == Jams(g, e, now);
      } else {
        assert Jams(g, k, now);
      }
    }
  }

  lemma {:induction false} DiscardStaleDrops(g: Guard, keys: seq<Endpoint>, now: Time)
    requires !DiscardStale(g, keys, now).1
    ensures forall e :: e in DiscardStale(g, keys, now).0.pending.m && e in keys ==> e in g.pending.m && !Stale(g.pending.m[e], now)
    decreases |keys|
  {
    if keys != [] {
      var k := keys[0];
      assert keys == [k] + keys[1..];
      DiscardStaleSpares(g, keys, now);
      if k !in g.pending.m || !Stale(g.pending.m[k], now) {
        DiscardStaleDrops(g, keys[1..], now);
      } else {
        var next := Discarded(g, k, CandidateExpired, now);
        DiscardStaleDrops(next, keys[1..], now);
        DiscardStaleSpares(next, keys[1..], now);
      }
    }
  }

  /** `expire` raises exactly when some stale candidate cannot be recorded; otherwise it drops exactly the stale
      ones, and in any case it drops no other. */
  lemma ExpireDrops(g: Guard, now: Time)
    requires Complete(g.pending)
    ensures var (h, raised) := Expired(g, now);
      && (raised <==> exists e :: Jams(g, e, now))
      && (!raised ==> h.pending.m == map e | e in g.pending.m && !Stale(g.pending.m[e], now) :: g.pending.m[e])
      && (forall e :: e in h.pending.m ==> e in g.pending.m && h.pending.m[e] == g.pending.m[e])
      && (forall e :: e in g.pending.m && !Stale(g.pending.m[e], now) ==> e in h.pending.m)
  {
    var unblocked := UnblockDue(g, g.blocked.order, now);
    DiscardStaleSpares(unblocked, g.pending.order, now);
    DiscardStaleRaises(unblocked, g.pending.order, now);
    assert forall e :: Jams(unblocked, e, now) == Jams(g, e, now);
    assert forall e :: Jams(g, e, now) ==> e in g.pending.order;
    if !Expired(g, now).1 { DiscardStaleDrops(unblocked, g.pending.order, now); }
  }

  lemma {:induction false} DiscardStaleComplete(g: Guard, keys: seq<Endpoint>, now: Time)
    requires Complete(g.pending)
    ensures Complete(DiscardStale(g, keys, now).0.pending)
    decreases |keys|
  {
    if keys != [] {
      var k := keys[0];
      PopIsComplete(g.pending, k);
      if k !in g.pending.m || !Stale(g.pending.m[k], now) {
        DiscardStaleComplete(g, keys[1..], now);
      } else if Recordable(g.pending.m[k].observation) {
        DiscardStaleComplete(Discarded(g, k, CandidateExpired, now), keys[1..], now);
      }
    }
  }

  predicate Counts(c: Candidate, now: Time) {
    now - c.counted >= MIN_SPACING
  }

  /** The candidate after one more matching observation. */
  function Seen(c: Candidate, o: Observation, now: Time): Candidate {
    if Counts(c, now) then c.(observation := o, last := now, counted := now, count := c.count + 1)
    else c.(observation := o, last := now)
  }

  predicate Admissible(c: Candidate, now: Time, verification: bool, linkHealthy: bool) {
    && c.count >= MIN_OBSERVATIONS && now - c.first >= MIN_SPAN
    && c.approved && verification && linkHealthy
  }

  function Observe(g: Guard, o: Observation, now: Time, linkHealthy: bool): (Guard, Answer) {
    var (h, raised) := Expired(g, now);
    if raised then (h, Raised) else Judged(h, o, now, linkHealthy)
  }

  /** The observation, once stale entries are gone. Whatever cannot be recorded raises at that point, with the
      changes made before it. */
  function Judged(g: Guard, o: Observation, now: Time, linkHealthy: bool): (Guard, Answer) {
    var e := o.endpoint;
    if e in g.blocked.m then (g, No)
    else if o.keys == {} then Disappeared(g, o, now)
    else if e in g.pending.m && g.pending.m[e].observation.keys == o.keys then SeenAgain(g, o, now, linkHealthy)
    else if e in g.pending.m then
      if !Recordable(g.pending.m[e].observation) then (g, Raised)
      else Begun(Note(g, g.pending.m[e].observation, TopologyChanged, now), o, now)
    else if |g.pending.m| >= MAX_CANDIDATES then (g, No)
    else Begun(g, o, now)
  }

  /** Nothing is new at the endpoint any more. */
  function Disappeared(g: Guard, o: Observation, now: Time): (Guard, Answer) {
    var e := o.endpoint;
    if e !in g.pending.m then (g, Yes)
    else if !Recordable(g.pending.m[e].observation) then (g, Raised)
    else (Note(g, g.pending.m[e].observation, TopologyDisappeared, now).(pending := Pop(g.pending, e)), Yes)
  }

  /** A candidate begins, or begins anew. */
  function Begun(g: Guard, o: Observation, now: Time): (Guard, Answer) {
    var entered := g.(pending := Put(g.pending, o.endpoint, Candidate(o, now, now, now, 1, 0, None, false)));
    if Recordable(o) then (Note(entered, o, CandidateObserved, now), No) else (entered, Raised)
  }

  /** One more observation of a candidate whose keys have not changed. */
  function SeenAgain(g: Guard, o: Observation, now: Time, linkHealthy: bool): (Guard, Answer)
    requires o.endpoint in g.pending.m
  {
    var previous := g.pending.m[o.endpoint];
    var c := Seen(previous, o, now);
    var updated := g.(pending := Put(g.pending, o.endpoint, c));
    if !Recordable(o) && (Counts(previous, now) || Admissible(c, now, g.verification, linkHealthy)) then (updated, Raised)
    else
      var noted := if Counts(previous, now) then Note(updated, o, CandidateObserved, now) else updated;
      if !Admissible(c, now, g.verification, linkHealthy) then (noted, No)
      else (Note(noted, o, AdmittedByUser, now).(pending := Pop(noted.pending, o.endpoint)), Yes)
  }

  /** The guard after a probe, and whether recording it raised. */
  function RecordProbe(g: Guard, o: Observation, success: bool, now: Time): (Guard, bool) {
    if o.endpoint !in g.pending.m || g.pending.m[o.endpoint].observation.keys != o.keys then (g, false)
    else
      var c := g.pending.m[o.endpoint];
      if c.lastProbe.Some? && now - c.lastProbe.value < MIN_SPACING then (g, false)
      else
        var probed := c.(lastProbe := Some(now), probes := if success then c.probes + 1 else 0);
        var h := g.(pending := Put(g.pending, o.endpoint, probed));
        if Recordable(o) then (Note(h, o, if success then ProbeMatched else ProbeUnconfirmed, now), false) else (h, true)
  }

  function Review(g: Guard, endpoint: Endpoint, approve: bool, now: Time): (Guard, Answer) {
    var (h, raised) := Expired(g, now);
    if raised then (h, Raised) else Decided(h, endpoint, approve, now)
  }

  /** The user's decision, once stale entries are gone. */
  function Decided(g: Guard, endpoint: Endpoint, approve: bool, now: Time): (Guard, Answer) {
    if endpoint !in g.pending.m then
      if approve && endpoint in g.blocked.m then
        (Note(g.(blocked := Pop(g.blocked, endpoint)), Observation(endpoint, {}, [], false), UserUnblocked, now), Yes)
      else (g, No)
    else
      var c := g.pending.m[endpoint];
      if approve then
        var approved := g.(pending := Put(g.pending, endpoint, c.(approved := true)));
        if Recordable(c.observation) then (Note(approved, c.observation, UserApproved, now), Yes) else (approved, Raised)
      else (Discarded(g, endpoint, UserRejected, now), if Recordable(c.observation) then Yes else Raised)
  }

  /** What is written to disk; progress of candidates is not. */
  datatype Snapshot = Snapshot(events: seq<Event>, blocked: map<Endpoint, Time>)

  function SnapshotOf(g: Guard): Snapshot {
    Snapshot(g.evidence.events, g.blocked.m)
  }

  function InForce(order: seq<Endpoint>, m: map<Endpoint, Time>, now: Time): Dict<Endpoint, Time> {
    if order == [] then Dict([], map[])
    else
      var others := InForce(order[1..], m, now);
      if order[0] in m && now < m[order[0]] <= now + BLOCK_TTL
      then Dict([order[0]] + others.order, others.m[order[0] := m[order[0]]]) else others
  }

  /** Reading a stored snapshot back: block times outside the legal span are dropped. */
  function Restore(g: Guard, events: seq<Event>, stored: Dict<Endpoint, Time>, now: Time): Guard {
    g.(evidence := Pruned(g.evidence.(events := events), now), blocked := InForce(stored.order, stored.m, now))
  }

  /** The revision never goes back, and an operation that leaves it alone leaves what would be saved alone:
      an unchanged revision means that the last save is still current. */
  ghost predicate Tracks(g: Guard, h: Guard) {
    && g.evidence.revision <= h.evidence.revision
    && (h.evidence.revision == g.evidence.revision ==> SnapshotOf(h) == SnapshotOf(g))
  }

  lemma ExpiryTracks(g: Guard, now: Time)
    ensures Tracks(g, Expired(g, now).0)
  {
  }

  lemma JudgedTracks(g: Guard, o: Observation, now: Time, linkHealthy: bool)
    ensures Tracks(g, Judged(g, o, now, linkHealthy).0)
  {
  }

  lemma RevisionTracksSnapshot(g: Guard, o: Observation, endpoint: Endpoint, flag: bool, now: Time, linkHealthy: bool)
    ensures Tracks(g, Expired(g, now).0) && Tracks(g, Observe(g, o, now, linkHealthy).0)
    ensures Tracks(g, Review(g, endpoint, flag, now).0) && Tracks(g, RecordProbe(g, o, flag, now).0)
  {
    ExpiryTracks(g, now);
    JudgedTracks(Expired(g, now).0, o, now, linkHealthy);
  }
}
