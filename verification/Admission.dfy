/** The other direction of admission: a device that is seen often enough and approved does get in. */
module Admission {
  import opened Bytes
  import opened Wrappers
  import opened Dicts
  import opened Evidence
  import opened GuardState
  import opened GuardTrace

  /** A candidate after one more event, as long as nothing ends it. */
  function Followed(c: Candidate, h: Happening, e: Endpoint): Candidate {
    match h
    case Observed(o, now, _) => if o.endpoint == e then Seen(c, o, now) else c
    case Reviewed(endpoint, approve, _) => if endpoint == e && approve then c.(approved := true) else c
    case Probed(o, success, now) =>
      if o.endpoint == e && o.keys == c.observation.keys && (c.lastProbe.None? || now - c.lastProbe.value >= MIN_SPACING)
      then c.(lastProbe := Some(now), probes := if success then c.probes + 1 else 0) else c
    case _ => c
  }

  function FollowedAll(c: Candidate, run: seq<Happening>, e: Endpoint): Candidate {
    if run == [] then c else Followed(FollowedAll(c, run[..|run| - 1], e), run[|run| - 1], e)
  }

  predicate Expires(h: Happening) {
    h.Observed? || h.Reviewed? || h.Ticked?
  }

  /** The event does not end candidate `c` at `e`: it finds it in time, with the same keys, and neither rejects nor
      admits it; and it has its effect. */
  ghost predicate Spares(g: Guard, h: Happening, e: Endpoint, c: Candidate) {
    && (Expires(h) ==> !Stale(c, h.now) && !Expired(g, h.now).1)
    && Harmless(h, e, c.observation.keys)
    && (ObservedAt(h, e) ==> Observe(g, h.o, h.now, h.linkHealthy).1 != Yes)
  }

  ghost predicate SparesAll(g: Guard, run: seq<Happening>, e: Endpoint, c: Candidate)
    decreases |run|
  {
    run == [] || (
      && SparesAll(g, run[..|run| - 1], e, c)
      && Spares(After(g, run[..|run| - 1]), run[|run| - 1], e, FollowedAll(c, run[..|run| - 1], e)))
  }

  ghost predicate Waits(g: Guard, e: Endpoint, c: Candidate) {
    Sane(g) && e in g.pending.m && g.pending.m[e] == c && c.observation.endpoint == e && c.observation.keys != {}
  }

  lemma ExpiryKeepsFresh(g: Guard, e: Endpoint, c: Candidate, now: Time)
    requires Waits(g, e, c) && !Stale(c, now)
    ensures Waits(Expired(g, now).0, e, c)
  {
    ExpiredIsSane(g, now);
    ExpireDrops(g, now);
  }

  /** One more observation of a waiting candidate: it is admitted exactly when it is ripe and can be recorded. */
  lemma SeenOnceMore(g: Guard, e: Endpoint, c: Candidate, o: Observation, now: Time, linkHealthy: bool)
    requires Waits(g, e, c) && o.endpoint == e && o.keys == c.observation.keys
    ensures Judged(g, o, now, linkHealthy).1 == Yes <==>
            Admissible(Seen(c, o, now), now, g.verification, linkHealthy) && Recordable(o)
    ensures Judged(g, o, now, linkHealthy).1 != Yes ==>
            e in Judged(g, o, now, linkHealthy).0.pending.m && Judged(g, o, now, linkHealthy).0.pending.m[e] == Seen(c, o, now)
  {
  }

  lemma SeenElsewhere(g: Guard, e: Endpoint, o: Observation, now: Time, linkHealthy: bool)
    requires e in g.pending.m && o.endpoint != e
    ensures var h := Judged(g, o, now, linkHealthy).0; e in h.pending.m && h.pending.m[e] == g.pending.m[e]
  {
  }

  lemma ObservationSpares(g: Guard, h: Happening, e: Endpoint, c: Candidate)
    requires h.Observed? && Waits(g, e, c) && Spares(g, h, e, c)
    ensures e in Do(g, h).pending.m && Do(g, h).pending.m[e] == Followed(c, h, e)
  {
    ExpiryKeepsFresh(g, e, c, h.now);
    var expired := Expired(g, h.now).0;
    if h.o.endpoint == e {
      SeenOnceMore(expired, e, c, h.o, h.now, h.linkHealthy);
    } else {
      SeenElsewhere(expired, e, h.o, h.now, h.linkHealthy);
    }
  }

  lemma ReviewSpares(g: Guard, h: Happening, e: Endpoint, c: Candidate)
    requires h.Reviewed? && Waits(g, e, c) && Spares(g, h, e, c)
    ensures e in Do(g, h).pending.m && Do(g, h).pending.m[e] == Followed(c, h, e)
  {
    ExpiryKeepsFresh(g, e, c, h.now);
  }

  lemma ProbeSpares(g: Guard, h: Happening, e: Endpoint, c: Candidate)
    requires h.Probed? && Waits(g, e, c)
    ensures e in Do(g, h).pending.m && Do(g, h).pending.m[e] == Followed(c, h, e)
    ensures Followed(c, h, e).observation == c.observation
  {
  }

  lemma EventSpares(g: Guard, h: Happening, e: Endpoint, c: Candidate)
    requires Waits(g, e, c) && Spares(g, h, e, c)
    ensures Waits(Do(g, h), e, Followed(c, h, e))
  {
    DoIsSane(g, h);
    match h
    case Observed(_, _, _) => ObservationSpares(g, h, e, c);
    case Reviewed(_, _, _) => ReviewSpares(g, h, e, c);
    case Ticked(now) => ExpiryKeepsFresh(g, e, c, now);
    case Probed(_, _, _) => ProbeSpares(g, h, e, c);
    case _ => assert Do(g, h).pending == g.pending;
  }

  /** Whatever else happens, a candidate that nothing ends is exactly what its own events make of it. */
  lemma {:induction false} RunSpares(g: Guard, run: seq<Happening>, e: Endpoint, c: Candidate)
    requires Waits(g, e, c) && SparesAll(g, run, e, c)
    ensures Waits(After(g, run), e, FollowedAll(c, run, e))
    decreases |run|
  {
    if run != [] {
      var past := run[..|run| - 1];
      RunSpares(g, past, e, c);
      EventSpares(After(g, past), run[|run| - 1], e, FollowedAll(c, past, e));
    }
  }

  /** An observation of keys at an endpoint that is neither waiting nor blocked begins a candidate, if there is
      room for one. */
  lemma CandidateBegins(g: Guard, o: Observation, now: Time, linkHealthy: bool)
    requires Sane(g) && !Expired(g, now).1 && o.keys != {}
    requires var h := Expired(g, now).0;
      o.endpoint !in h.pending.m && o.endpoint !in h.blocked.m && |h.pending.m| < MAX_CANDIDATES
    ensures Waits(Do(g, Observed(o, now, linkHealthy)), o.endpoint, Candidate(o, now, now, now, 1, 0, None, false))
  {
    DoIsSane(g, Observed(o, now, linkHealthy));
  }

  /** In every reachable state a proposal is admitted exactly when a candidate for the same keys is waiting at its
      endpoint, in time, ripe and approved, with verification on and the link healthy, and neither it nor the expiry
      before it fails to be recorded. */
  lemma AdmittedExactly(start: Guard, run: seq<Happening>, o: Observation, now: Time, linkHealthy: bool)
    requires Initial(start) && o.keys != {}
    ensures var g := After(start, run);
      Observe(g, o, now, linkHealthy).1 == Yes <==>
        && !Expired(g, now).1 && Recordable(o)
        && o.endpoint in g.pending.m && !Stale(g.pending.m[o.endpoint], now)
        && g.pending.m[o.endpoint].observation.keys == o.keys
        && Admissible(Seen(g.pending.m[o.endpoint], o, now), now, g.verification, linkHealthy)
  {
    var g := After(start, run);
    EveryCandidateHasAStory(start, run);
    ExpiredIsSane(g, now);
    ExpireDrops(g, now);
    var h := Expired(g, now).0;
    if Observe(g, o, now, linkHealthy).1 == Yes {
      AdmissionComesFromCandidate(h, o, now, linkHealthy);
    } else if o.endpoint in h.pending.m && h.pending.m[o.endpoint].observation.keys == o.keys {
      SeenIsAdmitted(h, o, now, linkHealthy);
    }
  }

  lemma SeenIsAdmitted(g: Guard, o: Observation, now: Time, linkHealthy: bool)
    requires Sane(g) && o.keys != {} && o.endpoint in g.pending.m && g.pending.m[o.endpoint].observation.keys == o.keys
    ensures Judged(g, o, now, linkHealthy).1 == Yes <==>
            Admissible(Seen(g.pending.m[o.endpoint], o, now), now, g.verification, linkHealthy) && Recordable(o)
  {
  }

  /** A device that is first seen in any reachable state with room for it, and then, whatever else happens, seen and
      reviewed without anything ending its candidate, is admitted at its next observation exactly when its own
      events make it ripe and approved, and both flags are on. */
  lemma SeenAndApprovedIsAdmitted(
    start: Guard, before: seq<Happening>, o: Observation, first: Time, more: seq<Happening>, now: Time, linkHealthy: bool)
    requires Initial(start) && o.keys != {} && Recordable(o) && !Expired(After(start, before), first).1
    requires var h := Expired(After(start, before), first).0;
      o.endpoint !in h.pending.m && o.endpoint !in h.blocked.m && |h.pending.m| < MAX_CANDIDATES
    requires var g := Do(After(start, before), Observed(o, first, true));
      && SparesAll(g, more, o.endpoint, Candidate(o, first, first, first, 1, 0, None, false))
      && !Expired(After(g, more), now).1 && first <= now < first + CANDIDATE_TTL
    ensures var g := After(Do(After(start, before), Observed(o, first, true)), more);
      var c := FollowedAll(Candidate(o, first, first, first, 1, 0, None, false), more, o.endpoint);
      Observe(g, o, now, linkHealthy).1 == Yes <==> Admissible(Seen(c, o, now), now, g.verification, linkHealthy)
  {
    EveryCandidateHasAStory(start, before);
    CandidateBegins(After(start, before), o, first, true);
    var g := Do(After(start, before), Observed(o, first, true));
    var c := Candidate(o, first, first, first, 1, 0, None, false);
    RunSpares(g, more, o.endpoint, c);
    FollowingKeeps(g, c, more, o.endpoint);
    var last := FollowedAll(c, more, o.endpoint);
    ExpiryKeepsFresh(After(g, more), o.endpoint, last, now);
    SeenOnceMore(Expired(After(g, more), now).0, o.endpoint, last, o, now, linkHealthy);
  }

  lemma {:induction false} FollowingKeeps(g: Guard, c: Candidate, run: seq<Happening>, e: Endpoint)
    requires SparesAll(g, run, e, c)
    ensures FollowedAll(c, run, e).first == c.first && FollowedAll(c, run, e).observation.keys == c.observation.keys
    decreases |run|
  {
    if run != [] { FollowingKeeps(g, c, run[..|run| - 1], e); }
  }

  /** The candidate waits alone, so expiry does not raise. */
  ghost predicate Alone(g: Guard, e: Endpoint, c: Candidate) {
    Waits(g, e, c) && Recordable(c.observation) && forall x :: x in g.pending.m ==> x == e
  }

  lemma AloneExpires(g: Guard, e: Endpoint, c: Candidate, now: Time)
    requires Alone(g, e, c)
    ensures !Expired(g, now).1
  {
    ExpireDrops(g, now);
  }

  lemma AloneSeen(g: Guard, e: Endpoint, c: Candidate, o: Observation, now: Time)
    requires Alone(g, e, c) && !Stale(c, now) && o.endpoint == e && o.keys == c.observation.keys && !c.approved
    ensures var h := Do(g, Observed(o, now, true)); Alone(h, e, Seen(c, o, now)) && h.verification == g.verification
  {
    AloneExpires(g, e, c, now);
    ExpireDrops(g, now);
    ExpiryKeepsFresh(g, e, c, now);
    DoIsSane(g, Observed(o, now, true));
    SeenOnceMore(Expired(g, now).0, e, c, o, now, true);
    JudgedHere(Expired(g, now).0, o, now, true);
  }

  lemma AloneApproved(g: Guard, e: Endpoint, c: Candidate, now: Time)
    requires Alone(g, e, c) && !Stale(c, now)
    ensures var h := Do(g, Reviewed(e, true, now)); Alone(h, e, c.(approved := true)) && h.verification == g.verification
  {
    AloneExpires(g, e, c, now);
    ExpireDrops(g, now);
    ExpiryKeepsFresh(g, e, c, now);
    DoIsSane(g, Reviewed(e, true, now));
    DecidedHere(Expired(g, now).0, e, true, now);
  }

  lemma AloneBegins(g: Guard, o: Observation, now: Time)
    requires g.pending == Dict([], map[]) && g.blocked == Dict([], map[]) && o.keys != {} && Recordable(o)
    ensures var h := Do(g, Observed(o, now, true));
      Alone(h, o.endpoint, Candidate(o, now, now, now, 1, 0, None, false)) && h.verification == g.verification
  {
    ExpireDrops(g, now);
    UnblockDueShrinks(g, g.blocked.order, now);
    assert UnblockDue(g, [], now) == g;
    CandidateBegins(g, o, now, true);
    JudgedHere(Expired(g, now).0, o, now, true);
  }

  /** It does happen: three times seen with spacing, ten minutes old, and approved in between, a device gets into a new
      guard exactly when both flags are on. */
  lemma AdmissionHappens(
    g: Guard, o: Observation, first: Time, second: Time, review: Time, third: Time, linkHealthy: bool)
    requires g.pending == Dict([], map[]) && g.blocked == Dict([], map[]) && o.keys != {} && Recordable(o)
    requires first + 60.0 <= second <= review <= third && second + 60.0 <= third
    requires 600.0 <= third - first < 86400.0
    ensures var h := Do(Do(Do(g, Observed(o, first, true)), Observed(o, second, true)), Reviewed(o.endpoint, true, review));
      Observe(h, o, third, linkHealthy).1 == Yes <==> linkHealthy && g.verification
  {
    var e := o.endpoint;
    AloneBegins(g, o, first);
    var a := Do(g, Observed(o, first, true));
    AloneSeen(a, e, Candidate(o, first, first, first, 1, 0, None, false), o, second);
    var b := Do(a, Observed(o, second, true));
    var c := Candidate(o, first, second, second, 2, 0, None, false);
    AloneApproved(b, e, c, review);
    var h := Do(b, Reviewed(e, true, review));
    var d := c.(approved := true);
    AloneExpires(h, e, d, third);
    ExpiryKeepsFresh(h, e, d, third);
    SeenOnceMore(Expired(h, third).0, e, d, o, third, linkHealthy);
  }
}
