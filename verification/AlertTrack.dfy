/** The alert policy endpoint by endpoint: what it knows of each one is a function of that endpoint's own history,
    and decides exactly when the endpoint is probed and when it is reported. */
module AlertTrack {
  import opened Wrappers
  import opened Alert
  import opened AlertTrace

  /** What the policy knows of one endpoint. */
  datatype Track = Track(known: Option<Time>, failures: nat, probedAt: Option<Time>, observed: Option<Time>)

  const UNKNOWN: Track := Track(None, 0, None, None)

  function Find<V>(m: map<Key, V>, k: Key): Option<V> {
    if k in m then Some(m[k]) else None
  }

  function TrackOf(p: Policy, k: Key): Track {
    Track(Find(p.known, k), Get(p.failures, k, 0), Find(p.probedAt, k), Find(p.lastObserved, k))
  }

  function Later(a: Option<Time>, b: Time): Time {
    if a.Some? && a.value > b then a.value else b
  }

  /** A scan that lists the endpoint: a newer response than any seen forgives its failures, and three responses make
      it known since the latest of them. */
  function Glimpsed(t: Track, e: Endpoint): Track {
    match e.lastResponse
    case None => t
    case Some(at) =>
      var newer := at > if t.observed.Some? then t.observed.value else -1.0;
      Track(if e.responses >= 3 then Some(Later(t.known, at)) else t.known,
            if newer then 0 else t.failures, t.probedAt, if newer then Some(at) else t.observed)
  }

  /** A probe of the endpoint: a failure counts, a success makes it known and forgives, and either way it rests. */
  function Answered(t: Track, success: Option<bool>, at: Time): Track {
    match success
    case None => t.(probedAt := Some(at))
    case Some(true) => t.(probedAt := Some(at), known := Some(at), failures := 0)
    case Some(false) => t.(probedAt := Some(at), failures := t.failures + 1)
  }

  /** It is known, the policy has run for three minutes, and neither has it answered since it became known nor is
      its last response recent: three minutes, or fifteen for one that cannot be asked. */
  predicate SilentFor(t: Track, e: Endpoint, started: Time, now: Time) {
    var limit := if e.queryable then 180.0 else 900.0;
    && t.known.Some? && now - started >= 180.0 && now - t.known.value >= limit
    && (e.lastResponse.Some? ==> now - e.lastResponse.value >= limit)
  }

  predicate ProbeNow(t: Track, e: Endpoint, started: Time, now: Time) {
    && e.queryable && SilentFor(t, e, started, now)
    && (t.probedAt.Some? ==> now - t.probedAt.value >= if t.failures >= 3 then 300.0 else 30.0)
  }

  predicate ReportNow(t: Track, e: Endpoint, started: Time, now: Time, reason: Reason) {
    && SilentFor(t, e, started, now) && (e.queryable ==> t.failures >= 3)
    && reason == if e.queryable then NoResponse else Stale
  }

  lemma NoticedTrack(p: Policy, e: Endpoint, k: Key)
    ensures TrackOf(Noticed(p, e), k) == if k == e.key then Glimpsed(TrackOf(p, k), e) else TrackOf(p, k)
  {
  }

  lemma VerdictIs(q: Policy, e: Endpoint, now: Time)
    ensures IsDue(q, e, now) <==> ProbeNow(TrackOf(q, e.key), e, q.started, now)
    ensures forall a :: a in AlertsOf(q, e, now) <==> a.endpoint == e.key && ReportNow(TrackOf(q, e.key), e, q.started, now, a.reason)
  {
  }

  /** One scan, endpoint by endpoint. */
  ghost predicate WalksTo(p: Policy, endpoints: seq<Endpoint>, now: Time, f: Findings) {
    && f.policy.started == p.started
    && (forall k :: k !in KeysOf(endpoints) ==> TrackOf(f.policy, k) == TrackOf(p, k) && k !in f.due)
    && (forall a :: a in f.alerts ==> a.endpoint in KeysOf(endpoints))
    && forall e :: e in endpoints ==> Judged(p, e, now, f)
  }

  ghost predicate Judged(p: Policy, e: Endpoint, now: Time, f: Findings) {
    var t := Glimpsed(TrackOf(p, e.key), e);
    && TrackOf(f.policy, e.key) == t
    && (e.key in f.due <==> ProbeNow(t, e, p.started, now))
    && (forall reason :: DeviceAlert(e.key, reason) in f.alerts <==> ReportNow(t, e, p.started, now, reason))
  }

  lemma {:induction false} WalkIs(p: Policy, endpoints: seq<Endpoint>, now: Time)
    requires DistinctKeys(endpoints)
    ensures WalksTo(p, endpoints, now, Walk(p, endpoints, now))
    decreases |endpoints|
  {
    if endpoints != [] {
      var (before, e) := (endpoints[..|endpoints| - 1], endpoints[|endpoints| - 1]);
      assert endpoints == before + [e];
      KeysOfMore(before, e);
      WalkIs(p, before, now);
      WalkOneMore(p, before, e, now);
    }
  }

  lemma WalkOneMore(p: Policy, before: seq<Endpoint>, e: Endpoint, now: Time)
    requires WalksTo(p, before, now, Walk(p, before, now))
    requires KeysOf(before + [e]) == KeysOf(before) + {e.key} && e.key !in KeysOf(before)
    ensures WalksTo(p, before + [e], now, Walk(p, before + [e], now))
  {
    var (f, g) := (Walk(p, before, now), Walk(p, before + [e], now));
    assert (before + [e])[..|before + [e]| - 1] == before;
    var q := Noticed(f.policy, e);
    assert g == Findings(q, f.due + (if IsDue(q, e, now) then [e.key] else []), f.alerts + AlertsOf(q, e, now));
    NoticedElsewhere(f.policy, e);
    VerdictIs(q, e, now);
    forall k ensures TrackOf(q, k) == if k == e.key then Glimpsed(TrackOf(f.policy, k), e) else TrackOf(f.policy, k) {
      NoticedTrack(f.policy, e, k);
    }
    OthersJudged(p, before, e, now, f, g);
  }

  lemma OthersJudged(p: Policy, before: seq<Endpoint>, e: Endpoint, now: Time, f: Findings, g: Findings)
    requires WalksTo(p, before, now, f) && e.key !in KeysOf(before)
    requires forall k :: k != e.key ==> TrackOf(g.policy, k) == TrackOf(f.policy, k) && (k in g.due <==> k in f.due)
    requires forall a: DeviceAlert :: a.endpoint != e.key ==> (a in g.alerts <==> a in f.alerts)
    ensures forall d :: d in before ==> Judged(p, d, now, g)
  {
    forall d | d in before ensures Judged(p, d, now, g) {
      var i :| 0 <= i < |before| && before[i] == d;
      assert d.key in KeysOf(before);
      assert Judged(p, d, now, f);
    }
  }

  lemma ForgottenTrack(p: Policy, keys: set<Key>, k: Key)
    ensures TrackOf(Forgotten(p, keys), k) == if k in keys then TrackOf(p, k) else UNKNOWN
  {
  }

  /** A scan asks for a listed endpoint, subject to its turn, exactly when what is known of it says so, and reports it
      exactly when that says so. */
  lemma ScanExactly(p: Policy, endpoints: seq<Endpoint>, now: Time, e: Endpoint)
    requires DistinctKeys(endpoints) && e in endpoints
    ensures var (f, t) := (Walked(p, endpoints, now), Glimpsed(TrackOf(p, e.key), e));
      && TrackOf(f.policy, e.key) == t
      && (e.key in f.due <==> ProbeNow(t, e, p.started, now))
      && (forall reason :: DeviceAlert(e.key, reason) in f.alerts <==> ReportNow(t, e, p.started, now, reason))
  {
    var i :| 0 <= i < |endpoints| && endpoints[i] == e;
    assert e.key in KeysOf(endpoints);
    ForgottenTrack(p, KeysOf(endpoints), e.key);
    WalkIs(Forgotten(p, KeysOf(endpoints)), endpoints, now);
    assert Judged(Forgotten(p, KeysOf(endpoints)), e, now, Walked(p, endpoints, now));
  }

  lemma ScanForgets(p: Policy, endpoints: seq<Endpoint>, now: Time, k: Key)
    requires DistinctKeys(endpoints) && k !in KeysOf(endpoints)
    ensures TrackOf(Walked(p, endpoints, now).policy, k) == UNKNOWN
  {
    ForgottenTrack(p, KeysOf(endpoints), k);
    WalkIs(Forgotten(p, KeysOf(endpoints)), endpoints, now);
  }

  /** The endpoint's own history: scans that list it, scans that do not, and its probes. */
  function TrackAt(s: System, run: seq<Event>, k: Key): Track
    decreases |run|
  {
    if run == [] then TrackOf(s.policy, k)
    else
      var (before, a) := (run[..|run| - 1], run[|run| - 1]);
      var t := TrackAt(s, before, k);
      match a
      case Scanned(endpoints, _) => ListedTrack(t, endpoints, k)
      case Probed(success, at) => if IsProbed(After(s, before), a, k) then Answered(t, success, at) else t
  }

  function ListedTrack(t: Track, endpoints: seq<Endpoint>, k: Key): Track {
    if endpoints == [] then UNKNOWN
    else if endpoints[0].key == k then Glimpsed(t, endpoints[0])
    else ListedTrack(t, endpoints[1..], k)
  }

  lemma {:induction false} ListedIs(t: Track, endpoints: seq<Endpoint>, k: Key)
    ensures k !in KeysOf(endpoints) ==> ListedTrack(t, endpoints, k) == UNKNOWN
    ensures DistinctKeys(endpoints) ==> forall e :: e in endpoints && e.key == k ==> ListedTrack(t, endpoints, k) == Glimpsed(t, e)
    decreases |endpoints|
  {
    if endpoints != [] {
      var rest := endpoints[1..];
      ListedIs(t, rest, k);
      assert endpoints == [endpoints[0]] + rest;
      assert endpoints[0].key in KeysOf(endpoints);
      assert forall i :: 0 <= i < |rest| ==> rest[i] == endpoints[i + 1];
      assert k in KeysOf(rest) ==> k in KeysOf(endpoints) by {
        if k in KeysOf(rest) {
          var i :| 0 <= i < |rest| && rest[i].key == k;
          assert endpoints[i + 1].key == k;
        }
      }
    }
  }

  ghost predicate AllDistinct(run: seq<Event>) {
    forall a :: a in run && a.Scanned? ==> DistinctKeys(a.endpoints)
  }

  lemma ProbedTrack(p: Policy, q: Key, success: Option<bool>, at: Time, k: Key)
    ensures TrackOf(Recorded(p, q, success, at), k) == if k == q then Answered(TrackOf(p, k), success, at) else TrackOf(p, k)
  {
  }

  /** Over every run, what the policy knows of an endpoint is its own history; no other endpoint has a part in it. */
  lemma {:induction false} TracksExactly(s: System, run: seq<Event>, k: Key)
    requires AllDistinct(run)
    ensures TrackOf(After(s, run).policy, k) == TrackAt(s, run, k)
    decreases |run|
  {
    if run != [] {
      var (before, a) := (run[..|run| - 1], run[|run| - 1]);
      assert forall b :: b in before ==> b in run;
      assert a in run;
      TracksExactly(s, before, k);
      StepTracks(After(s, before), a, k);
    }
  }

  lemma StepTracks(s: System, a: Event, k: Key)
    requires a.Scanned? ==> DistinctKeys(a.endpoints)
    ensures TrackOf(Next(s, a).policy, k)
            == match a
               case Scanned(endpoints, _) => ListedTrack(TrackOf(s.policy, k), endpoints, k)
               case Probed(success, at) =>
                 if IsProbed(s, a, k) then Answered(TrackOf(s.policy, k), success, at) else TrackOf(s.policy, k)
  {
    match a
    case Scanned(endpoints, now) =>
      ListedIs(TrackOf(s.policy, k), endpoints, k);
      if k in KeysOf(endpoints) {
        var i :| 0 <= i < |endpoints| && endpoints[i].key == k;
        ScanExactly(s.policy, endpoints, now, endpoints[i]);
      } else {
        ScanForgets(s.policy, endpoints, now, k);
      }
    case Probed(success, at) =>
      if s.waiting != [] { ProbedTrack(s.policy, s.waiting[0], success, at, k); }
  }

  /** So over every run a listed endpoint is due, and is reported, exactly when its own history says so. */
  lemma DueAndReportedExactly(s: System, run: seq<Event>, endpoints: seq<Endpoint>, now: Time, e: Endpoint)
    requires AllDistinct(run) && DistinctKeys(endpoints) && e in endpoints
    ensures var (f, t) := (Walked(After(s, run).policy, endpoints, now), Glimpsed(TrackAt(s, run, e.key), e));
      && (e.key in f.due <==> ProbeNow(t, e, After(s, run).policy.started, now))
      && (forall reason :: DeviceAlert(e.key, reason) in f.alerts <==> ReportNow(t, e, After(s, run).policy.started, now, reason))
  {
    TracksExactly(s, run, e.key);
    ScanExactly(After(s, run).policy, endpoints, now, e);
  }
}
