/** Blocking: a rejected or expired endpoint stays out for a day, or until a user lets it in, or the table of
    blocks gives it up. */
module GuardBlocks {
  import opened Bytes
  import opened Wrappers
  import opened Dicts
  import opened Evidence
  import opened GuardState
  import opened GuardTrace

  const DAY: Time := 86400.0

  /** Both tables are bounded, and the table of blocks can be enumerated. */
  ghost predicate Fenced(g: Guard) {
    Sane(g) && Complete(g.blocked) && |g.blocked.m| <= 100 && |g.pending.m| <= 100
  }

  /** `e` is blocked until exactly `until`. */
  predicate Holds(m: map<Endpoint, Time>, e: Endpoint, until: Time) {
    e in m && m[e] == until
  }

  /** A block until `until` was given up: the table is full of blocks that end no sooner, or were made at `now`. */
  ghost predicate Displaced(m: map<Endpoint, Time>, until: Time, now: Time) {
    |m| == 100 && forall x :: x in m ==> m[x] >= until || m[x] == now + DAY
  }

  ghost predicate HoldsOrDisplaced(m: map<Endpoint, Time>, e: Endpoint, until: Time, now: Time) {
    Holds(m, e, until) || Displaced(m, until, now)
  }

  /** The block of `x` is the one that ends first. */
  predicate GivesUp(m: map<Endpoint, Time>, x: Endpoint) {
    x in m && forall y :: y in m ==> m[x] <= m[y]
  }

  /** What making a block does to the table: the new block stands, and at most one other goes, the one that ends
      first, when there were a hundred. */
  lemma BlockedExactly(d: Dict<Endpoint, Time>, e: Endpoint, until: Time)
    requires Complete(d) && |d.m| <= 100 && e !in d.m
    ensures var h := Blocked(d, e, until);
      && Complete(h) && |h.m| <= 100 && Holds(h.m, e, until)
      && (|d.m| < 100 ==> h.m == d.m[e := until])
      && (|d.m| == 100 ==> |h.m| == 100 && exists x :: GivesUp(d.m, x) && h.m == (d.m - {x})[e := until])
  {
    var oldest := Oldest(d.order, d.m);
    if |d.m| == 100 {
      Nonempty(d.m);
      var x := oldest.value;
      PopIsComplete(d, x);
      assert GivesUp(d.m, x);
      assert |Pop(d, x).m| == 99 by { assert Pop(d, x).m.Keys == d.m.Keys - {x}; }
      assert (d.m - {x})[e := until].Keys == (d.m.Keys - {x}) + {e};
    } else {
      assert d.m[e := until].Keys == d.m.Keys + {e};
    }
  }

  lemma Nonempty(m: map<Endpoint, Time>)
    requires |m| > 0
    ensures exists x :: x in m
  {
    assert m.Keys != {};
  }

  lemma BlockingKeeps(d: Dict<Endpoint, Time>, e: Endpoint, now: Time, k: Endpoint, until: Time)
    requires Complete(d) && |d.m| <= 100 && e !in d.m
    requires HoldsOrDisplaced(d.m, k, until, now)
    ensures HoldsOrDisplaced(Blocked(d, e, now + DAY).m, k, until, now)
  {
    BlockedExactly(d, e, now + DAY);
  }

  lemma DiscardedKeeps(g: Guard, e: Endpoint, reason: Action, now: Time)
    requires Fenced(g) && e in g.pending.m
    ensures Fenced(Discarded(g, e, reason, now))
    ensures forall k, until :: HoldsOrDisplaced(g.blocked.m, k, until, now) ==>
      HoldsOrDisplaced(Discarded(g, e, reason, now).blocked.m, k, until, now)
    ensures Recordable(g.pending.m[e].observation) ==> Holds(Discarded(g, e, reason, now).blocked.m, e, now + DAY)
    ensures forall k :: k in Discarded(g, e, reason, now).blocked.m ==> k in g.blocked.m || k == e
  {
    DiscardKeepsSane(g, e, reason, now);
    BlockedExactly(g.blocked, e, now + DAY);
    assert |Pop(g.pending, e).m| <= 100 by { assert Pop(g.pending, e).m.Keys == g.pending.m.Keys - {e}; }
    forall k, until | HoldsOrDisplaced(g.blocked.m, k, until, now)
      ensures HoldsOrDisplaced(Discarded(g, e, reason, now).blocked.m, k, until, now)
    {
      BlockingKeeps(g.blocked, e, now, k, until);
    }
  }

  lemma {:induction false} DiscardStaleKeeps(g: Guard, keys: seq<Endpoint>, now: Time)
    requires Fenced(g)
    ensures var h := DiscardStale(g, keys, now).0;
      && Fenced(h)
      && (forall k, until :: HoldsOrDisplaced(g.blocked.m, k, until, now) ==> HoldsOrDisplaced(h.blocked.m, k, until, now))
      && (forall k :: k in h.blocked.m ==> k in g.blocked.m || k in g.pending.m)
    decreases |keys|
  {
    if keys != [] {
      var k := keys[0];
      if k !in g.pending.m || !Stale(g.pending.m[k], now) {
        DiscardStaleKeeps(g, keys[1..], now);
      } else {
        DiscardedKeeps(g, k, CandidateExpired, now);
        DiscardStaleKeeps(Discarded(g, k, CandidateExpired, now), keys[1..], now);
      }
    }
  }

  /** Every stale candidate that is discarded becomes blocked for a day. */
  lemma {:induction false} DiscardStaleBlocks(g: Guard, keys: seq<Endpoint>, now: Time, e: Endpoint)
    requires Fenced(g) && !DiscardStale(g, keys, now).1
    requires e in keys && e in g.pending.m && Stale(g.pending.m[e], now)
    ensures HoldsOrDisplaced(DiscardStale(g, keys, now).0.blocked.m, e, now + DAY, now)
    decreases |keys|
  {
    var k := keys[0];
    assert keys == [k] + keys[1..];
    if k !in g.pending.m || !Stale(g.pending.m[k], now) {
      DiscardStaleBlocks(g, keys[1..], now, e);
    } else {
      var next := Discarded(g, k, CandidateExpired, now);
      DiscardedKeeps(g, k, CandidateExpired, now);
      if k == e {
        assert HoldsOrDisplaced(next.blocked.m, e, now + DAY, now);
        DiscardStaleKeeps(next, keys[1..], now);
      } else {
        DiscardStaleBlocks(next, keys[1..], now, e);
      }
    }
  }

  /** Unblocking takes out exactly the blocks that have run out. */
  lemma {:induction false} UnblockDueExactly(g: Guard, keys: seq<Endpoint>, now: Time)
    ensures UnblockDue(g, keys, now).blocked.m
            == map e | e in g.blocked.m && !(e in keys && g.blocked.m[e] <= now) :: g.blocked.m[e]
    decreases |keys|
  {
    if keys != [] {
      var k := keys[0];
      var next := if k in g.blocked.m && g.blocked.m[k] <= now
                  then g.(blocked := Pop(g.blocked, k), evidence := g.evidence.(revision := g.evidence.revision + 1)) else g;
      assert keys == [k] + keys[1..];
      UnblockDueExactly(next, keys[1..], now);
    }
  }

  lemma {:induction false} UnblockDueKeeps(g: Guard, keys: seq<Endpoint>, now: Time)
    requires Fenced(g)
    ensures Fenced(UnblockDue(g, keys, now))
    decreases |keys|
  {
    if keys != [] {
      var k := keys[0];
      if k in g.blocked.m && g.blocked.m[k] <= now {
        PopIsComplete(g.blocked, k);
        assert |Pop(g.blocked, k).m| <= 100 by { assert Pop(g.blocked, k).m.Keys == g.blocked.m.Keys - {k}; }
        UnblockDueKeeps(g.(blocked := Pop(g.blocked, k), evidence := g.evidence.(revision := g.evidence.revision + 1)), keys[1..], now);
      } else {
        UnblockDueKeeps(g, keys[1..], now);
      }
    }
  }

  /** Expiry: blocks that have run out are gone, the others stand or are displaced, and every candidate that
      expires is blocked for a day from then. */
  lemma ExpiryExactly(g: Guard, now: Time, e: Endpoint)
    requires Fenced(g)
    ensures var (h, raised) := Expired(g, now);
      && Fenced(h)
      && (e in g.blocked.m && g.blocked.m[e] <= now ==> e !in h.blocked.m)
      && (e in g.blocked.m && now < g.blocked.m[e] ==> HoldsOrDisplaced(h.blocked.m, e, g.blocked.m[e], now))
      && (!raised && e in g.pending.m && Stale(g.pending.m[e], now) ==> HoldsOrDisplaced(h.blocked.m, e, now + DAY, now))
      && (e in h.blocked.m ==> e in g.blocked.m || e in g.pending.m)
  {
    var unblocked := UnblockDue(g, g.blocked.order, now);
    UnblockDueKeeps(g, g.blocked.order, now);
    UnblockDueExactly(g, g.blocked.order, now);
    DiscardStaleKeeps(unblocked, g.pending.order, now);
    if e in g.blocked.m && now < g.blocked.m[e] {
      assert HoldsOrDisplaced(unblocked.blocked.m, e, g.blocked.m[e], now);
    }
    if !Expired(g, now).1 && e in g.pending.m && Stale(g.pending.m[e], now) {
      DiscardStaleBlocks(unblocked, g.pending.order, now, e);
    }
  }

  lemma JudgedKeeps(g: Guard, o: Observation, now: Time, linkHealthy: bool)
    requires Fenced(g)
    ensures Fenced(Judged(g, o, now, linkHealthy).0) && Judged(g, o, now, linkHealthy).0.blocked == g.blocked
  {
    JudgedIsSane(g, o, now, linkHealthy);
    JudgedPending(g, o, now, linkHealthy);
  }

  lemma PuttingCounts<V>(d: Dict<Endpoint, V>, e: Endpoint, v: V)
    ensures |Put(d, e, v).m| == |d.m| + if e in d.m then 0 else 1
    ensures |Pop(d, e).m| <= |d.m|
  {
    assert Put(d, e, v).m.Keys == d.m.Keys + {e};
    assert Pop(d, e).m.Keys == d.m.Keys - {e};
  }

  lemma SeenAgainPending(g: Guard, o: Observation, now: Time, linkHealthy: bool)
    requires |g.pending.m| <= 100 && o.endpoint in g.pending.m
    ensures var h := SeenAgain(g, o, now, linkHealthy).0; h.blocked == g.blocked && |h.pending.m| <= 100
  {
    var c := Seen(g.pending.m[o.endpoint], o, now);
    PuttingCounts(g.pending, o.endpoint, c);
    PuttingCounts(Put(g.pending, o.endpoint, c), o.endpoint, c);
  }

  lemma JudgedPending(g: Guard, o: Observation, now: Time, linkHealthy: bool)
    requires |g.pending.m| <= 100
    ensures var h := Judged(g, o, now, linkHealthy).0;
      && h.blocked == g.blocked && |h.pending.m| <= 100
  {
    var e := o.endpoint;
    PuttingCounts(g.pending, e, Candidate(o, now, now, now, 1, 0, None, false));
    if e in g.pending.m { SeenAgainPending(g, o, now, linkHealthy); }
  }

  lemma DecidedKeeps(g: Guard, e: Endpoint, approve: bool, now: Time)
    requires Fenced(g)
    ensures Fenced(Decided(g, e, approve, now).0)
    ensures forall k, until :: Holds(g.blocked.m, k, until) ==>
      HoldsOrDisplaced(Decided(g, e, approve, now).0.blocked.m, k, until, now) || (approve && k == e)
  {
    DecidedIsSane(g, e, approve, now);
    var h := Decided(g, e, approve, now).0;
    if e !in g.pending.m {
      PopIsComplete(g.blocked, e);
      assert Pop(g.blocked, e).m.Keys == g.blocked.m.Keys - {e};
    } else if approve {
      assert h.pending.m.Keys == g.pending.m.Keys;
    } else {
      DiscardedKeeps(g, e, UserRejected, now);
    }
  }

  /** Rejecting a candidate blocks its endpoint for a day. */
  lemma RejectionBlocks(g: Guard, e: Endpoint, now: Time)
    requires Fenced(g) && Review(g, e, false, now).1 == Yes
    ensures var h := Review(g, e, false, now).0; Holds(h.blocked.m, e, now + DAY) && e !in h.pending.m
  {
    ExpiryExactly(g, now, e);
    DiscardedKeeps(Expired(g, now).0, e, UserRejected, now);
  }

  predicate Expires(h: Happening) {
    h.Observed? || h.Reviewed? || h.Ticked?
  }

  /** The event ends the block of `e` until `until`: its time has come, the user lifts it, or it is displaced. */
  ghost predicate EndsBlock(g: Guard, h: Happening, e: Endpoint, until: Time) {
    && Expires(h)
    && (until <= h.now || (h.Reviewed? && h.endpoint == e && h.approve) || Displaced(Do(g, h).blocked.m, until, h.now)
        || Displaced(Expired(g, h.now).0.blocked.m, until, h.now))
  }

  lemma StepFenced(g: Guard, h: Happening)
    requires Fenced(g)
    ensures Fenced(Do(g, h))
  {
    DoIsSane(g, h);
    match h
    case Observed(o, now, linkHealthy) =>
      ExpiryExactly(g, now, o.endpoint);
      JudgedKeeps(Expired(g, now).0, o, now, linkHealthy);
    case Reviewed(e, approve, now) =>
      ExpiryExactly(g, now, e);
      DecidedKeeps(Expired(g, now).0, e, approve, now);
    case Ticked(now) => ExpiryExactly(g, now, Receiver);
    case Probed(o, success, now) => assert Do(g, h).pending.m.Keys == g.pending.m.Keys;
    case _ =>
  }

  lemma StepHolds(g: Guard, h: Happening, e: Endpoint, until: Time)
    requires Fenced(g) && Holds(g.blocked.m, e, until) && !EndsBlock(g, h, e, until)
    ensures Holds(Do(g, h).blocked.m, e, until)
  {
    match h
    case Observed(o, now, linkHealthy) =>
      ExpiryExactly(g, now, e);
      JudgedKeeps(Expired(g, now).0, o, now, linkHealthy);
    case Reviewed(endpoint, approve, now) =>
      ExpiryExactly(g, now, e);
      DecidedKeeps(Expired(g, now).0, endpoint, approve, now);
    case Ticked(now) => ExpiryExactly(g, now, e);
    case _ =>
  }

  /** No event of the run ends the block. */
  ghost predicate Stands(g: Guard, run: seq<Happening>, e: Endpoint, until: Time)
    decreases |run|
  {
    run == [] || (Stands(g, run[..|run| - 1], e, until) && !EndsBlock(After(g, run[..|run| - 1]), run[|run| - 1], e, until))
  }

  lemma {:induction false} RunFenced(g: Guard, run: seq<Happening>)
    requires Fenced(g)
    ensures Fenced(After(g, run))
    decreases |run|
  {
    if run != [] {
      RunFenced(g, run[..|run| - 1]);
      StepFenced(After(g, run[..|run| - 1]), run[|run| - 1]);
    }
  }

  /** As long as its time has not come, no user lifts it and it is not displaced, a block stands, whatever else
      happens, and no observation at the endpoint begins a candidate. */
  lemma {:induction false} BlockStands(g: Guard, run: seq<Happening>, e: Endpoint, until: Time)
    requires Fenced(g) && Holds(g.blocked.m, e, until) && Stands(g, run, e, until)
    ensures Holds(After(g, run).blocked.m, e, until) && e !in After(g, run).pending.m
    decreases |run|
  {
    RunFenced(g, run);
    if run != [] {
      var past := run[..|run| - 1];
      BlockStands(g, past, e, until);
      RunFenced(g, past);
      StepHolds(After(g, past), run[|run| - 1], e, until);
    }
  }

  /** An observation at a blocked endpoint is refused, unless an unrelated expiry raises. */
  lemma BlockedIsRefused(g: Guard, o: Observation, now: Time, linkHealthy: bool)
    requires Fenced(g) && o.endpoint in g.blocked.m && now < g.blocked.m[o.endpoint]
    requires !Displaced(Expired(g, now).0.blocked.m, g.blocked.m[o.endpoint], now)
    ensures Observe(g, o, now, linkHealthy).1 != Yes
    ensures Observe(g, o, now, linkHealthy).1 == Raised <==> Expired(g, now).1
  {
    ExpiryExactly(g, now, o.endpoint);
  }

  /** Once its time has come, the next expiry lets the endpoint begin anew. */
  lemma BlockRunsOut(g: Guard, o: Observation, now: Time, linkHealthy: bool)
    requires Fenced(g) && o.endpoint in g.blocked.m && g.blocked.m[o.endpoint] <= now
    requires !Expired(g, now).1 && o.keys != {} && |Expired(g, now).0.pending.m| < 100
    ensures var h := Observe(g, o, now, linkHealthy).0;
      o.endpoint !in h.blocked.m && o.endpoint in h.pending.m && h.pending.m[o.endpoint].first == now
  {
    ExpiryExactly(g, now, o.endpoint);
    ExpireDrops(g, now);
  }

  /** A full guard takes no further candidate. */
  lemma FullGuardRefuses(g: Guard, o: Observation, now: Time, linkHealthy: bool)
    requires Fenced(g) && o.keys != {} && !Expired(g, now).1
    requires o.endpoint !in Expired(g, now).0.pending.m && |Expired(g, now).0.pending.m| == 100
    ensures Observe(g, o, now, linkHealthy) == (Expired(g, now).0, No)
  {
  }

  /** What is read back of stored blocks: exactly those that end after now, but within a day. */
  lemma {:induction false} InForceExactly(order: seq<Endpoint>, m: map<Endpoint, Time>, now: Time)
    ensures InForce(order, m, now).m == map e | e in m && e in order && now < m[e] <= now + DAY :: m[e]
    ensures Complete(InForce(order, m, now))
    decreases |order|
  {
    if order != [] {
      InForceExactly(order[1..], m, now);
      assert order == [order[0]] + order[1..];
    }
  }

  lemma RestoredIsFenced(g: Guard, events: seq<Event>, stored: Dict<Endpoint, Time>, now: Time)
    requires Initial(g) && |stored.m| <= 100
    ensures Fenced(Restore(g, events, stored, now))
  {
    InForceExactly(stored.order, stored.m, now);
    Fewer(InForce(stored.order, stored.m, now).m.Keys, stored.m.Keys);
  }

  lemma Fewer(a: set<Endpoint>, b: set<Endpoint>)
    requires a <= b
    ensures |a| <= |b|
  {
    assert b == a + (b - a);
  }
}
