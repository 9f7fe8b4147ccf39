/** Safety of the admission guard over whole runs: what must have happened before a key is admitted. */
module GuardTrace {
  import opened Bytes
  import opened Wrappers
  import opened Dicts
  import opened Evidence
  import opened GuardState

  /** Everything that can happen to a guard. Clock readings are arbitrary: the clock may jump. */
  datatype Happening =
    | Observed(o: Observation, now: Time, linkHealthy: bool)
    | Reviewed(endpoint: Endpoint, approve: bool, now: Time)
    | Probed(probed: Observation, success: bool, now: Time)
    | Ticked(now: Time)
    | Verification(on: bool)
    | Noted(noted: Observation, action: Action, now: Time)
    | Heard(raw: bytes)

  function Do(g: Guard, h: Happening): Guard {
    match h
    case Observed(o, now, linkHealthy) => Observe(g, o, now, linkHealthy).0
    case Reviewed(endpoint, approve, now) => Review(g, endpoint, approve, now).0
    case Probed(o, success, now) => RecordProbe(g, o, success, now).0
    case Ticked(now) => Expired(g, now).0
    case Verification(on) => g.(verification := on)
    case Noted(o, action, now) => if Recordable(o) then Note(g, o, action, now) else g
    case Heard(raw) => g.(evidence := Evidence.Observed(g.evidence, raw))
  }

  /** The guard as constructed, or as loaded: no candidate is ever read back. */
  ghost predicate Initial(g: Guard) {
    g.pending == Dict([], map[])
  }

  function After(g: Guard, run: seq<Happening>): Guard {
    if run == [] then g else Do(After(g, run[..|run| - 1]), run[|run| - 1])
  }

  predicate ObservedAt(h: Happening, e: Endpoint) {
    h.Observed? && h.o.endpoint == e
  }

  /** The event has its effect: the expiry that comes first does not raise. */
  ghost predicate Effective(g: Guard, run: seq<Happening>, j: nat)
    requires j < |run|
  {
    run[j].Observed? || run[j].Reviewed? ==> !Expired(After(g, run[..j]), run[j].now).1
  }

  /** The positions of the run whose events have their effect. */
  ghost function EffectiveIn(g: Guard, run: seq<Happening>): set<nat> {
    set j: nat | j < |run| && Effective(g, run, j)
  }

  /** How a candidate came to be what it is. */
  datatype Story = Story(created: nat, counted: seq<nat>, approvedAt: Option<nat>)

  /** Observations at one endpoint, in order, each at least a spacing after the one before. */
  ghost predicate Spaced(run: seq<Happening>, e: Endpoint, counted: seq<nat>) {
    && (forall i :: 0 <= i < |counted| ==> counted[i] < |run| && ObservedAt(run[counted[i]], e))
    && (forall i :: 0 < i < |counted| ==> counted[i - 1] < counted[i])
    && (forall i :: 0 < i < |counted| ==> run[counted[i]].now - run[counted[i - 1]].now >= 60.0)
  }

  /** The event does not end the story of a candidate with these keys. */
  ghost predicate Harmless(h: Happening, e: Endpoint, keys: set<Key>) {
    && (ObservedAt(h, e) ==> h.o.keys == keys)
    && !(h.Reviewed? && h.endpoint == e && !h.approve)
  }

  /** From `from` on, every observation at the endpoint that had its effect showed the same keys, and no review
      rejected it. */
  ghost predicate Unbroken(live: set<nat>, run: seq<Happening>, e: Endpoint, from: nat, keys: set<Key>) {
    forall j :: from <= j < |run| && j in live ==> Harmless(run[j], e, keys)
  }

  /** The approval is a review of this endpoint, after the candidate began. */
  ghost predicate ApprovedIn(live: set<nat>, run: seq<Happening>, e: Endpoint, s: Story) {
    s.approvedAt.Some? ==>
      && s.created < s.approvedAt.value < |run| && s.approvedAt.value in live
      && run[s.approvedAt.value].Reviewed?
      && run[s.approvedAt.value].endpoint == e && run[s.approvedAt.value].approve
  }

  ghost predicate AllIn(live: set<nat>, counted: seq<nat>) {
    forall i :: 0 <= i < |counted| ==> counted[i] in live
  }

  ghost predicate Tells(live: set<nat>, run: seq<Happening>, e: Endpoint, c: Candidate, s: Story) {
    && |s.counted| == c.count >= 1 && s.counted[0] == s.created
    && Spaced(run, e, s.counted) && AllIn(live, s.counted)
    && run[s.created].now == c.first && run[s.counted[c.count - 1]].now == c.counted
    && c.observation.keys != {}
    && Unbroken(live, run, e, s.created, c.observation.keys)
    && (c.approved ==> s.approvedAt.Some?)
    && ApprovedIn(live, run, e, s)
  }

  ghost predicate HasStory(g: Guard, run: seq<Happening>, e: Endpoint, c: Candidate) {
    exists s :: Tells(EffectiveIn(g, run), run, e, c, s)
  }

  /** One more event: the earlier positions stay as they were. */
  ghost predicate Longer(live: set<nat>, more: set<nat>, n: nat) {
    forall j: nat :: j < n ==> (j in more <==> j in live)
  }

  lemma EffectiveLater(g: Guard, run: seq<Happening>, h: Happening)
    ensures Longer(EffectiveIn(g, run), EffectiveIn(g, run + [h]), |run|)
    ensures |run| in EffectiveIn(g, run + [h]) <==> (h.Observed? || h.Reviewed? ==> !Expired(After(g, run), h.now).1)
  {
    forall j: nat | j < |run| ensures j in EffectiveIn(g, run + [h]) <==> j in EffectiveIn(g, run) {
      assert (run + [h])[..j] == run[..j];
    }
    assert (run + [h])[..|run|] == run;
  }

  lemma StoryGoesOn(
    live: set<nat>, more: set<nat>, run: seq<Happening>, h: Happening, e: Endpoint, c: Candidate, d: Candidate, s: Story)
    requires Tells(live, run, e, c, s) && Longer(live, more, |run|)
    requires |run| in more ==> Harmless(h, e, c.observation.keys)
    requires d.observation.keys == c.observation.keys && d.first == c.first && d.counted == c.counted
    requires d.count == c.count && (d.approved ==> c.approved)
    ensures Tells(more, run + [h], e, d, s)
  {
  }

  lemma StoryBegins(more: set<nat>, run: seq<Happening>, h: Happening, e: Endpoint, c: Candidate)
    requires ObservedAt(h, e) && |run| in more && h.o.keys == c.observation.keys != {}
    requires c.count == 1 && c.first == c.counted == h.now && !c.approved
    ensures Tells(more, run + [h], e, c, Story(|run|, [|run|], None))
  {
  }

  lemma StoryCounts(
    live: set<nat>, more: set<nat>, run: seq<Happening>, h: Happening, e: Endpoint, c: Candidate, s: Story)
    requires Tells(live, run, e, c, s) && Longer(live, more, |run|) && ObservedAt(h, e) && |run| in more
    requires h.o.keys == c.observation.keys && Counts(c, h.now)
    ensures Tells(more, run + [h], e, Seen(c, h.o, h.now), s.(counted := s.counted + [|run|]))
  {
  }

  lemma StoryApproves(
    live: set<nat>, more: set<nat>, run: seq<Happening>, h: Happening, e: Endpoint, c: Candidate, s: Story)
    requires Tells(live, run, e, c, s) && Longer(live, more, |run|) && |run| in more
    requires h.Reviewed? && h.endpoint == e && h.approve
    ensures Tells(more, run + [h], e, c.(approved := true), s.(approvedAt := Some(|run|)))
  {
  }

  /** A matching observation continues the story, counted or not. */
  lemma StorySees(live: set<nat>, more: set<nat>, run: seq<Happening>, h: Happening, e: Endpoint, c: Candidate)
    requires exists s :: Tells(live, run, e, c, s)
    requires Longer(live, more, |run|) && ObservedAt(h, e) && |run| in more && h.o.keys == c.observation.keys
    ensures exists s :: Tells(more, run + [h], e, Seen(c, h.o, h.now), s)
  {
    var s :| Tells(live, run, e, c, s);
    if Counts(c, h.now) {
      StoryCounts(live, more, run, h, e, c, s);
    } else {
      StoryGoesOn(live, more, run, h, e, c, Seen(c, h.o, h.now), s);
    }
  }

  /** Candidates can be enumerated, and none of them is blocked. */
  ghost predicate Sane(g: Guard) {
    && Complete(g.pending)
    && forall e :: e in g.pending.m ==> e !in g.blocked.m
  }

  lemma DiscardKeepsSane(g: Guard, e: Endpoint, reason: Action, now: Time)
    requires Sane(g) && e in g.pending.m
    ensures Sane(Discarded(g, e, reason, now))
  {
    PopIsComplete(g.pending, e);
  }

  lemma {:induction false} DiscardStaleKeepsSane(g: Guard, keys: seq<Endpoint>, now: Time)
    requires Sane(g)
    ensures Sane(DiscardStale(g, keys, now).0)
    decreases |keys|
  {
    if keys != [] {
      var k := keys[0];
      if k !in g.pending.m || !Stale(g.pending.m[k], now) {
        DiscardStaleKeepsSane(g, keys[1..], now);
      } else {
        DiscardKeepsSane(g, k, CandidateExpired, now);
        DiscardStaleKeepsSane(Discarded(g, k, CandidateExpired, now), keys[1..], now);
      }
    }
  }

  lemma {:induction false} UnblockDueShrinks(g: Guard, keys: seq<Endpoint>, now: Time)
    ensures forall e :: e in UnblockDue(g, keys, now).blocked.m ==> e in g.blocked.m
    decreases |keys|
  {
    if keys != [] {
      var k := keys[0];
      if k in g.blocked.m && g.blocked.m[k] <= now {
        UnblockDueShrinks(g.(blocked := Pop(g.blocked, k), evidence := g.evidence.(revision := g.evidence.revision + 1)), keys[1..], now);
      } else {
        UnblockDueShrinks(g, keys[1..], now);
      }
    }
  }

  lemma ExpiredIsSane(g: Guard, now: Time)
    requires Sane(g)
    ensures Sane(Expired(g, now).0)
  {
    var unblocked := UnblockDue(g, g.blocked.order, now);
    UnblockDueShrinks(g, g.blocked.order, now);
    DiscardStaleKeepsSane(unblocked, unblocked.pending.order, now);
  }

  lemma PuttingKeepsSane(g: Guard, e: Endpoint, c: Candidate, log: Log)
    requires Sane(g) && e !in g.blocked.m
    ensures Sane(g.(pending := Put(g.pending, e, c), evidence := log))
  {
  }

  lemma PoppingKeepsSane(g: Guard, e: Endpoint, log: Log)
    requires Sane(g)
    ensures Sane(g.(pending := Pop(g.pending, e), evidence := log))
  {
    PopIsComplete(g.pending, e);
  }

  lemma DisappearedIsSane(g: Guard, o: Observation, now: Time)
    requires Sane(g)
    ensures Sane(Disappeared(g, o, now).0)
  {
    PoppingKeepsSane(g, o.endpoint, Disappeared(g, o, now).0.evidence);
  }

  lemma BegunIsSane(g: Guard, o: Observation, now: Time)
    requires Sane(g) && o.endpoint !in g.blocked.m
    ensures Sane(Begun(g, o, now).0)
  {
    PuttingKeepsSane(g, o.endpoint, Candidate(o, now, now, now, 1, 0, None, false), Begun(g, o, now).0.evidence);
  }

  lemma SeenAgainIsSane(g: Guard, o: Observation, now: Time, linkHealthy: bool)
    requires Sane(g) && o.endpoint in g.pending.m
    ensures Sane(SeenAgain(g, o, now, linkHealthy).0)
  {
    var h := SeenAgain(g, o, now, linkHealthy).0;
    var c := Seen(g.pending.m[o.endpoint], o, now);
    PuttingKeepsSane(g, o.endpoint, c, h.evidence);
    PoppingKeepsSane(g.(pending := Put(g.pending, o.endpoint, c)), o.endpoint, h.evidence);
  }

  lemma JudgedIsSane(g: Guard, o: Observation, now: Time, linkHealthy: bool)
    requires Sane(g)
    ensures Sane(Judged(g, o, now, linkHealthy).0)
  {
    var e := o.endpoint;
    if e !in g.blocked.m {
      DisappearedIsSane(g, o, now);
      if e in g.pending.m && g.pending.m[e].observation.keys == o.keys { SeenAgainIsSane(g, o, now, linkHealthy); }
      BegunIsSane(g, o, now);
      if e in g.pending.m && Recordable(g.pending.m[e].observation) {
        var noted := Note(g, g.pending.m[e].observation, TopologyChanged, now);
        BegunIsSane(noted, o, now);
      }
    }
  }

  lemma DecidedIsSane(g: Guard, e: Endpoint, approve: bool, now: Time)
    requires Sane(g)
    ensures Sane(Decided(g, e, approve, now).0)
  {
    if e in g.pending.m && !approve {
      DiscardKeepsSane(g, e, UserRejected, now);
    }
  }

  lemma DoIsSane(g: Guard, h: Happening)
    requires Sane(g)
    ensures Sane(Do(g, h))
  {
    match h
    case Observed(o, now, linkHealthy) =>
      ExpiredIsSane(g, now);
      JudgedIsSane(Expired(g, now).0, o, now, linkHealthy);
    case Reviewed(e, approve, now) =>
      ExpiredIsSane(g, now);
      DecidedIsSane(Expired(g, now).0, e, approve, now);
    case Ticked(now) => ExpiredIsSane(g, now);
    case _ =>
  }

  /** The candidate at `e`, if there is one that can be recorded, has a story. */
  ghost predicate Explained(g0: Guard, run: seq<Happening>, g: Guard, e: Endpoint) {
    e in g.pending.m && Recordable(g.pending.m[e].observation) ==> HasStory(g0, run, e, g.pending.m[e])
  }

  /** A candidate that the event leaves as it was, or only expires. */
  lemma StaysExplained(g0: Guard, run: seq<Happening>, h: Happening, g: Guard, e: Endpoint, d: Candidate)
    requires Explained(g0, run, g, e) && e in g.pending.m && Recordable(g.pending.m[e].observation)
    requires |run| in EffectiveIn(g0, run + [h]) ==> Harmless(h, e, g.pending.m[e].observation.keys)
    requires SameStory(g.pending.m[e], d)
    ensures HasStory(g0, run + [h], e, d)
  {
    EffectiveLater(g0, run, h);
    var (live, more) := (EffectiveIn(g0, run), EffectiveIn(g0, run + [h]));
    var s :| Tells(live, run, e, g.pending.m[e], s);
    StoryGoesOn(live, more, run, h, e, g.pending.m[e], d, s);
  }

  /** What the observation leaves pending at its own endpoint. */
  lemma JudgedHere(g: Guard, o: Observation, now: Time, linkHealthy: bool)
    requires Sane(g)
    ensures var (e, h) := (o.endpoint, Judged(g, o, now, linkHealthy).0);
      e in h.pending.m && Recordable(h.pending.m[e].observation) ==>
        if e in g.pending.m && g.pending.m[e].observation.keys == o.keys then
          o.keys != {} && h.pending.m[e] == Seen(g.pending.m[e], o, now)
        else o.keys != {} && h.pending.m[e] == Candidate(o, now, now, now, 1, 0, None, false)
    ensures forall x :: x != o.endpoint && x in Judged(g, o, now, linkHealthy).0.pending.m ==>
      x in g.pending.m && Judged(g, o, now, linkHealthy).0.pending.m[x] == g.pending.m[x]
  {
  }

  lemma ObservedIsExplained(g0: Guard, run: seq<Happening>, h: Happening, e: Endpoint)
    requires h.Observed? && Sane(After(g0, run)) && Explained(g0, run, After(g0, run), e)
    ensures Explained(g0, run + [h], Do(After(g0, run), h), e)
  {
    var before := After(g0, run);
    var (g, raised) := Expired(before, h.now);
    EffectiveLater(g0, run, h);
    ExpiredIsSane(before, h.now);
    ExpireDrops(before, h.now);
    var after := Do(before, h);
    if e in after.pending.m && Recordable(after.pending.m[e].observation) {
      if !raised { JudgedHere(g, h.o, h.now, h.linkHealthy); }
      if raised || e != h.o.endpoint {
        StaysExplained(g0, run, h, before, e, after.pending.m[e]);
      } else if e in g.pending.m && g.pending.m[e].observation.keys == h.o.keys {
        StorySees(EffectiveIn(g0, run), EffectiveIn(g0, run + [h]), run, h, e, before.pending.m[e]);
      } else {
        StoryBegins(EffectiveIn(g0, run + [h]), run, h, e, after.pending.m[e]);
      }
    }
  }

  /** What a review leaves pending: the approved candidate, and all others. */
  lemma DecidedHere(g: Guard, endpoint: Endpoint, approve: bool, now: Time)
    ensures var h := Decided(g, endpoint, approve, now).0;
      && (forall x :: x in h.pending.m ==> x in g.pending.m)
      && (forall x :: x in h.pending.m && x != endpoint ==> h.pending.m[x] == g.pending.m[x])
      && (endpoint in h.pending.m ==> approve && h.pending.m[endpoint] == g.pending.m[endpoint].(approved := true))
  {
  }

  lemma ReviewedIsExplained(g0: Guard, run: seq<Happening>, h: Happening, e: Endpoint)
    requires h.Reviewed? && Sane(After(g0, run)) && Explained(g0, run, After(g0, run), e)
    ensures Explained(g0, run + [h], Do(After(g0, run), h), e)
  {
    var before := After(g0, run);
    var (g, raised) := Expired(before, h.now);
    EffectiveLater(g0, run, h);
    ExpireDrops(before, h.now);
    var after := Do(before, h);
    if !raised { DecidedHere(g, h.endpoint, h.approve, h.now); }
    if e in after.pending.m && Recordable(after.pending.m[e].observation) {
      if raised || e != h.endpoint {
        StaysExplained(g0, run, h, before, e, after.pending.m[e]);
      } else {
        var (live, more) := (EffectiveIn(g0, run), EffectiveIn(g0, run + [h]));
        var s :| Tells(live, run, e, before.pending.m[e], s);
        StoryApproves(live, more, run, h, e, before.pending.m[e], s);
      }
    }
  }

  lemma ProbeHere(g: Guard, o: Observation, success: bool, now: Time)
    ensures var h := RecordProbe(g, o, success, now).0;
      forall x :: x in h.pending.m ==> x in g.pending.m && SameStory(g.pending.m[x], h.pending.m[x])
  {
  }

  /** Whatever is neither an observation nor a review leaves of a candidate. */
  lemma OtherHere(g: Guard, h: Happening)
    requires !h.Observed? && !h.Reviewed? && Complete(g.pending)
    ensures forall x :: x in Do(g, h).pending.m ==> x in g.pending.m && SameStory(g.pending.m[x], Do(g, h).pending.m[x])
  {
    if h.Ticked? {
      ExpireDrops(g, h.now);
    } else if h.Probed? {
      ProbeHere(g, h.probed, h.success, h.now);
    } else {
      assert Do(g, h).pending == g.pending;
    }
  }

  predicate SameStory(c: Candidate, d: Candidate) {
    && d.observation == c.observation && d.first == c.first && d.counted == c.counted && d.count == c.count
    && d.approved == c.approved
  }

  lemma OtherIsExplained(g0: Guard, run: seq<Happening>, h: Happening, e: Endpoint)
    requires !h.Observed? && !h.Reviewed? && Sane(After(g0, run)) && Explained(g0, run, After(g0, run), e)
    ensures Explained(g0, run + [h], Do(After(g0, run), h), e)
  {
    var before := After(g0, run);
    OtherHere(before, h);
    var after := Do(before, h);
    if e in after.pending.m && Recordable(after.pending.m[e].observation) {
      StaysExplained(g0, run, h, before, e, after.pending.m[e]);
    }
  }

  /** In every reachable state every candidate that can be recorded has a story. */
  lemma {:induction false} EveryCandidateHasAStory(g: Guard, run: seq<Happening>)
    requires Initial(g)
    ensures Sane(After(g, run))
    ensures forall e :: Explained(g, run, After(g, run), e)
    decreases |run|
  {
    if run != [] {
      var past, h := run[..|run| - 1], run[|run| - 1];
      assert run == past + [h];
      EveryCandidateHasAStory(g, past);
      DoIsSane(After(g, past), h);
      forall e ensures Explained(g, run, Do(After(g, past), h), e) {
        assert Explained(g, past, After(g, past), e);
        if h.Observed? {
          ObservedIsExplained(g, past, h, e);
        } else if h.Reviewed? {
          ReviewedIsExplained(g, past, h, e);
        } else {
          OtherIsExplained(g, past, h, e);
        }
      }
    }
  }

  /** What stands behind an admission at the last event of `run`. */
  ghost predicate Backed(g: Guard, run: seq<Happening>, s: Story) {
    IsBacked(EffectiveIn(g, run), run, s)
  }

  ghost predicate IsBacked(live: set<nat>, run: seq<Happening>, s: Story) {
    && run != [] && run[|run| - 1].Observed?
    && var (o, now, e) := (run[|run| - 1].o, run[|run| - 1].now, run[|run| - 1].o.endpoint);
    && run[|run| - 1].linkHealthy && Recordable(o)
    // three observations that count, one spacing or more apart
    && |s.counted| >= 3 && s.counted[0] == s.created
    && Spaced(run, e, s.counted) && AllIn(live, s.counted)
    // the same keys at every observation, and no rejection, since the first of them
    && Unbroken(live, run, e, s.created, o.keys)
    // of the right age
    && 600.0 <= now - run[s.created].now < 86400.0
    // approved by the user in between
    && s.approvedAt.Some? && ApprovedIn(live, run, e, s) && s.approvedAt.value < |run| - 1
  }

  /** Only a candidate that can be recorded is ever admitted. */
  lemma AdmissionComesFromCandidate(g: Guard, o: Observation, now: Time, linkHealthy: bool)
    requires o.keys != {} && Judged(g, o, now, linkHealthy).1 == Yes
    ensures o.endpoint in g.pending.m && g.pending.m[o.endpoint].observation.keys == o.keys && Recordable(o)
    ensures Admissible(Seen(g.pending.m[o.endpoint], o, now), now, g.verification, linkHealthy)
  {
  }

  lemma TellsIsBacked(live: set<nat>, run: seq<Happening>, c: Candidate, s: Story)
    requires run != [] && run[|run| - 1].Observed?
    requires var h := run[|run| - 1];
             && Tells(live, run, h.o.endpoint, c, s) && c.observation == h.o && Recordable(h.o)
             && c.count >= 3 && c.approved && h.linkHealthy
             && 600.0 <= h.now - c.first < 86400.0
    ensures IsBacked(live, run, s)
  {
  }

  /** Every admission in every run is backed by a sufficient story, with verification enabled at that
      moment. */
  lemma AdmissionIsBacked(g: Guard, past: seq<Happening>, h: Happening) returns (s: Story)
    requires Initial(g) && h.Observed? && h.o.keys != {}
    requires Observe(After(g, past), h.o, h.now, h.linkHealthy).1 == Yes
    ensures Backed(g, past + [h], s)
    ensures After(g, past).verification
  {
    var before := After(g, past);
    EveryCandidateHasAStory(g, past);
    EffectiveLater(g, past, h);
    ExpireDrops(before, h.now);
    var e := h.o.endpoint;
    AdmissionComesFromCandidate(Expired(before, h.now).0, h.o, h.now, h.linkHealthy);
    var c := before.pending.m[e];
    assert Explained(g, past, before, e);
    var more := EffectiveIn(g, past + [h]);
    StorySees(EffectiveIn(g, past), more, past, h, e, c);
    s :| Tells(more, past + [h], e, Seen(c, h.o, h.now), s);
    TellsIsBacked(more, past + [h], Seen(c, h.o, h.now), s);
  }

  /** Counted observations are pairwise a spacing apart, not just next to each other. */
  lemma {:induction false} SpacedPairwise(run: seq<Happening>, e: Endpoint, counted: seq<nat>, i: nat, j: nat)
    requires Spaced(run, e, counted) && i < j < |counted|
    ensures run[counted[j]].now - run[counted[i]].now >= 60.0 * (j - i) as real
    decreases j - i
  {
    if i + 1 < j {
      SpacedPairwise(run, e, counted, i, j - 1);
    }
  }
}
