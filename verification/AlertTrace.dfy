/** What whole runs of the alert policy promise: fair probing, distance between probes, honest alerts. */
module AlertTrace {
  import opened Wrappers
  import opened Alert

  /** The policy, the probes still to be made from its last scan, and the time of that scan. */
  datatype System = System(policy: Policy, waiting: seq<Key>, scannedAt: Time)

  /** A scan replaces what was left of the last one; probes are made, and recorded, in the order asked for. */
  datatype Event =
    | Scanned(endpoints: seq<Endpoint>, now: Time)
    | Probed(success: Option<bool>, at: Time)

  function Next(s: System, e: Event): System {
    match e
    case Scanned(endpoints, now) =>
      System(Walked(s.policy, endpoints, now).policy, Probes(s.policy, endpoints, now), now)
    case Probed(success, at) =>
      if s.waiting == [] then s
      else System(Recorded(s.policy, s.waiting[0], success, at), s.waiting[1..], s.scannedAt)
  }

  function After(s: System, run: seq<Event>): System {
    if run == [] then s else Next(After(s, run[..|run| - 1]), run[|run| - 1])
  }

  // ---- Sorting ----

  predicate Distinct(s: seq<Key>) {
    forall i, j :: 0 <= i < j < |s| ==> s[i] != s[j]
  }

  predicate Ordered(m: map<Key, Time>, s: seq<Key>) {
    forall i, j :: 0 <= i < j < |s| ==> Before(m, s[i], s[j])
  }

  lemma {:induction false} Inserted(m: map<Key, Time>, k: Key, s: seq<Key>)
    requires Ordered(m, s) && k !in s
    ensures var t := Insert(m, k, s);
      && |t| == |s| + 1 && Ordered(m, t) && k in t
      && (forall x :: x in t <==> x == k || x in s)
    decreases |s|
  {
    if s == [] || Before(m, k, s[0]) {
      assert Insert(m, k, s) == [k] + s;
    } else {
      Inserted(m, k, s[1..]);
      var rest := Insert(m, k, s[1..]);
      assert Insert(m, k, s) == [s[0]] + rest;
      assert s == [s[0]] + s[1..];
      assert forall x :: x in rest ==> Before(m, s[0], x);
      assert forall j :: 0 <= j < |rest| ==> Before(m, s[0], rest[j]);
    }
  }

  /** The sort orders the due endpoints and loses none. */
  lemma {:induction false} SortedOrders(m: map<Key, Time>, s: seq<Key>)
    requires Distinct(s)
    ensures |Sorted(m, s)| == |s| && Ordered(m, Sorted(m, s))
    ensures forall x :: x in Sorted(m, s) <==> x in s
    decreases |s|
  {
    if s != [] {
      var before := s[..|s| - 1];
      SortedOrders(m, before);
      Inserted(m, s[|s| - 1], Sorted(m, before));
      assert s == before + [s[|s| - 1]];
    }
  }

  lemma OrderedIsDistinct(m: map<Key, Time>, s: seq<Key>)
    requires Ordered(m, s)
    ensures Distinct(s)
  {
    forall i, j | 0 <= i < j < |s| ensures s[i] != s[j] {
      assert Before(m, s[i], s[j]);
    }
  }

  // ---- One scan ----

  predicate DistinctKeys(endpoints: seq<Endpoint>) {
    forall i, j :: 0 <= i < j < |endpoints| ==> endpoints[i].key != endpoints[j].key
  }

  lemma {:induction false} WalkKeepsProbes(p: Policy, endpoints: seq<Endpoint>, now: Time)
    ensures Walk(p, endpoints, now).policy.probedAt == p.probedAt
    decreases |endpoints|
  {
    if endpoints != [] {
      var before := endpoints[..|endpoints| - 1];
      WalkKeepsProbes(p, before, now);
      NoticedElsewhere(Walk(p, before, now).policy, endpoints[|endpoints| - 1]);
    }
  }

  lemma KeysOfMore(before: seq<Endpoint>, e: Endpoint)
    requires DistinctKeys(before + [e])
    ensures KeysOf(before + [e]) == KeysOf(before) + {e.key} && e.key !in KeysOf(before) && DistinctKeys(before)
  {
    var all := before + [e];
    assert forall i :: 0 <= i < |before| ==> all[i] == before[i];
    assert all[|before|] == e;
  }

  /** The endpoints that the walk finds due are listed, none twice, and are rested. */
  lemma {:induction false} WalkFinds(p: Policy, endpoints: seq<Endpoint>, now: Time)
    requires DistinctKeys(endpoints)
    ensures var f := Walk(p, endpoints, now);
      Distinct(f.due) && forall k :: k in f.due ==> k in KeysOf(endpoints) && Rested(f.policy, k, now)
    decreases |endpoints|
  {
    if endpoints != [] {
      var (before, e) := (endpoints[..|endpoints| - 1], endpoints[|endpoints| - 1]);
      assert endpoints == before + [e];
      KeysOfMore(before, e);
      WalkFinds(p, before, now);
      NoticedElsewhere(Walk(p, before, now).policy, e);
    }
  }

  lemma NoticedElsewhere(p: Policy, e: Endpoint)
    ensures var q := Noticed(p, e);
      && q.probedAt == p.probedAt && q.started == p.started
      && (forall k :: k != e.key ==> Get(q.failures, k, 0) == Get(p.failures, k, 0))
      && Get(q.failures, e.key, 0) <= Get(p.failures, e.key, 0)
  {
  }

  /** A scan asks for at most four probes, all due; every due endpoint it passes over comes after all of them. */
  lemma ScanIsFair(p: Policy, endpoints: seq<Endpoint>, now: Time)
    requires DistinctKeys(endpoints)
    ensures var (f, probes) := (Walked(p, endpoints, now), Probes(p, endpoints, now));
      && |probes| <= 4 && Distinct(probes)
      && f.policy.probedAt == Only(p.probedAt, KeysOf(endpoints))
      && (forall q :: q in probes ==> q in f.due)
      && (forall k :: k in f.due && k !in probes ==>
            |probes| == 4 && forall q :: q in probes ==> Before(f.policy.probedAt, q, k))
      && (forall i, j :: 0 <= i < j < |probes| ==> Before(f.policy.probedAt, probes[i], probes[j]))
  {
    WalkFinds(Forgotten(p, KeysOf(endpoints)), endpoints, now);
    WalkKeepsProbes(Forgotten(p, KeysOf(endpoints)), endpoints, now);
    var f := Walked(p, endpoints, now);
    SortedOrders(f.policy.probedAt, f.due);
    OrderedIsDistinct(f.policy.probedAt, Sorted(f.policy.probedAt, f.due));
  }

  // ---- Fairness ----

  /** The other endpoints whose turn comes before that of `k`. */
  ghost function Ahead(p: Policy, keys: set<Key>, k: Key): set<Key> {
    set q | q in keys && q != k && Before(p.probedAt, q, k)
  }

  /** The endpoints stay the same, `k` is due at every scan, and no probe ends before the scan that asked
      for it. */
  predicate StaysDueIn(s: System, e: Event, keys: set<Key>, k: Key) {
    match e
    case Scanned(endpoints, now) =>
      DistinctKeys(endpoints) && KeysOf(endpoints) == keys && k in Walked(s.policy, endpoints, now).due
    case Probed(_, at) => s.waiting != [] && at >= s.scannedAt
  }

  predicate StaysDue(s: System, run: seq<Event>, keys: set<Key>, k: Key)
    decreases |run|
  {
    run == [] || (StaysDue(s, run[..|run| - 1], keys, k) && StaysDueIn(After(s, run[..|run| - 1]), run[|run| - 1], keys, k))
  }

  predicate IsProbed(s: System, e: Event, k: Key) {
    e.Probed? && s.waiting != [] && s.waiting[0] == k
  }

  /** How often a run probes `k`. */
  function TimesProbed(s: System, run: seq<Event>, k: Key): nat
    decreases |run|
  {
    if run == [] then 0
    else TimesProbed(s, run[..|run| - 1], k) + if IsProbed(After(s, run[..|run| - 1]), run[|run| - 1], k) then 1 else 0
  }

  function ProbesMade(run: seq<Event>): nat {
    if run == [] then 0 else ProbesMade(run[..|run| - 1]) + if run[|run| - 1].Probed? then 1 else 0
  }

  function ScansMade(run: seq<Event>): nat {
    if run == [] then 0 else ScansMade(run[..|run| - 1]) + if run[|run| - 1].Scanned? then 1 else 0
  }

  /** Whoever is probed before `k` is ahead of it until then, and `k` itself last was probed before the scan. */
  ghost predicate Queueing(s: System, keys: set<Key>, k: Key) {
    && Distinct(s.waiting)
    && (forall i :: 0 <= i < |s.waiting| && k !in s.waiting[..i + 1] ==> s.waiting[i] in Ahead(s.policy, keys, k))
    && (s.waiting != [] ==> k in s.policy.probedAt ==> s.policy.probedAt[k] < s.scannedAt)
  }

  /** Of an ordered list, whatever comes before `k` is before it in the order. */
  lemma PrefixIsBefore(m: map<Key, Time>, s: seq<Key>, k: Key, i: nat)
    requires Ordered(m, s) && i < |s| && k !in s[..i + 1]
    ensures k in s ==> Before(m, s[i], k)
    ensures s[i] != k
  {
    assert s[i] == s[..i + 1][i];
    if k in s {
      var j :| 0 <= j < |s| && s[j] == k;
      assert forall l :: 0 <= l <= i ==> s[..i + 1][l] == s[l];
      assert Before(m, s[i], s[j]);
    }
  }

  lemma FreshQueue(t: System, keys: set<Key>, k: Key)
    requires Ordered(t.policy.probedAt, t.waiting) && Distinct(t.waiting)
    requires forall q :: q in t.waiting ==> q in keys && (k !in t.waiting ==> Before(t.policy.probedAt, q, k))
    requires k in t.policy.probedAt ==> t.policy.probedAt[k] < t.scannedAt
    ensures Queueing(t, keys, k)
  {
    forall i | 0 <= i < |t.waiting| && k !in t.waiting[..i + 1]
      ensures t.waiting[i] in Ahead(t.policy, keys, k)
    {
      PrefixIsBefore(t.policy.probedAt, t.waiting, k, i);
      assert t.waiting[i] in t.waiting;
    }
  }

  lemma AheadDependsOnKeys(p: Policy, q: Policy, keys: set<Key>, k: Key)
    requires q.probedAt == Only(p.probedAt, keys) && k in keys
    ensures Ahead(q, keys, k) == Ahead(p, keys, k)
  {
  }

  lemma ScanQueues(s: System, e: Event, keys: set<Key>, k: Key)
    requires e.Scanned? && StaysDueIn(s, e, keys, k)
    ensures Queueing(Next(s, e), keys, k) && Ahead(Next(s, e).policy, keys, k) == Ahead(s.policy, keys, k)
    ensures k !in Next(s, e).waiting ==> |Next(s, e).waiting| == 4
  {
    ScanIsFair(s.policy, e.endpoints, e.now);
    WalkFinds(Forgotten(s.policy, keys), e.endpoints, e.now);
    FreshQueue(Next(s, e), keys, k);
    AheadDependsOnKeys(s.policy, Next(s, e).policy, keys, k);
  }

  lemma ProbeMovesOn(s: System, e: Event, keys: set<Key>, k: Key)
    requires e.Probed? && StaysDueIn(s, e, keys, k) && !IsProbed(s, e, k) && Queueing(s, keys, k)
    ensures Ahead(Next(s, e).policy, keys, k) == Ahead(s.policy, keys, k) - {s.waiting[0]}
    ensures s.waiting[0] in Ahead(s.policy, keys, k) && Queueing(Next(s, e), keys, k)
  {
    var (q, t) := (s.waiting[0], Next(s, e));
    assert s.waiting[..1] == [q];
    assert q in Ahead(s.policy, keys, k);
    assert t.policy.probedAt == s.policy.probedAt[q := e.at];
    forall i | 0 <= i < |t.waiting| && k !in t.waiting[..i + 1]
      ensures t.waiting[i] in Ahead(t.policy, keys, k)
    {
      assert s.waiting[..i + 2] == [q] + t.waiting[..i + 1];
      assert s.waiting[i + 1] in Ahead(s.policy, keys, k);
    }
  }

  /** Every probe made while `k` is passed over takes one endpoint from ahead of it. */
  lemma {:induction false} TurnComesNearer(s: System, run: seq<Event>, keys: set<Key>, k: Key)
    requires s.waiting == [] && StaysDue(s, run, keys, k) && TimesProbed(s, run, k) == 0
    ensures Queueing(After(s, run), keys, k)
    ensures |Ahead(After(s, run).policy, keys, k)| + ProbesMade(run) <= |Ahead(s.policy, keys, k)|
    decreases |run|
  {
    if run != [] {
      var (before, e) := (run[..|run| - 1], run[|run| - 1]);
      TurnComesNearer(s, before, keys, k);
      var t := After(s, before);
      if e.Scanned? { ScanQueues(t, e, keys, k); } else { ProbeMovesOn(t, e, keys, k); }
    }
  }

  /** While an endpoint stays due among `n` and is not probed itself, fewer than `n` probes are made, even when
      other traffic cuts scans short. */
  lemma PassedOverByFewer(s: System, run: seq<Event>, keys: set<Key>, k: Key)
    requires s.waiting == [] && StaysDue(s, run, keys, k) && TimesProbed(s, run, k) == 0 && k in keys
    ensures ProbesMade(run) < |keys|
  {
    TurnComesNearer(s, run, keys, k);
    Smaller(Ahead(s.policy, keys, k), keys - {k});
  }

  lemma {:induction false} Smaller(a: set<Key>, b: set<Key>)
    requires a <= b
    ensures |a| <= |b|
  {
    assert b == a + (b - a);
  }

  /** Every probe a scan asks for is made before the next scan. */
  predicate Thorough(s: System, run: seq<Event>)
    decreases |run|
  {
    run == [] || (Thorough(s, run[..|run| - 1]) && (run[|run| - 1].Scanned? ==> After(s, run[..|run| - 1]).waiting == []))
  }

  lemma {:induction false} FourPerScan(s: System, run: seq<Event>, keys: set<Key>, k: Key)
    requires s.waiting == [] && StaysDue(s, run, keys, k) && TimesProbed(s, run, k) == 0 && Thorough(s, run)
    ensures k !in After(s, run).waiting ==> ProbesMade(run) + |After(s, run).waiting| == 4 * ScansMade(run)
    decreases |run|
  {
    if run != [] {
      var (before, e) := (run[..|run| - 1], run[|run| - 1]);
      FourPerScan(s, before, keys, k);
      var t := After(s, before);
      if e.Scanned? {
        ScanQueues(t, e, keys, k);
      } else {
        assert t.waiting == [t.waiting[0]] + t.waiting[1..];
      }
    }
  }

  /** Probing is fair: when every probe asked for is made, an endpoint that stays due among `n` has been probed
      once ceil(n / 4) scans are complete. */
  lemma ProbedInTurn(s: System, run: seq<Event>, keys: set<Key>, k: Key)
    requires s.waiting == [] && k in keys
    requires StaysDue(s, run, keys, k) && Thorough(s, run) && After(s, run).waiting == []
    requires 4 * ScansMade(run) >= |keys|
    ensures TimesProbed(s, run, k) >= 1
  {
    if TimesProbed(s, run, k) == 0 {
      FourPerScan(s, run, keys, k);
      PassedOverByFewer(s, run, keys, k);
    }
  }

  // ---- Distance between probes ----

  /** No scan of the run has lost sight of `k`, and no probe of it ends before its scan. */
  predicate Present(s: System, run: seq<Event>, k: Key)
    decreases |run|
  {
    run == [] || (
      && Present(s, run[..|run| - 1], k)
      && var (t, e) := (After(s, run[..|run| - 1]), run[|run| - 1]);
         match e
         case Scanned(endpoints, _) => DistinctKeys(endpoints) && k in KeysOf(endpoints)
         case Probed(_, at) => at >= t.scannedAt)
  }

  /** The last probe of `k` was at or after `t`. */
  ghost predicate ProbedSince(s: System, k: Key, t: Time) {
    k in s.policy.probedAt && s.policy.probedAt[k] >= t && (k in s.waiting ==> s.scannedAt >= t)
  }

  lemma ScanAfterProbe(s: System, e: Event, k: Key, t: Time)
    requires e.Scanned? && DistinctKeys(e.endpoints) && k in KeysOf(e.endpoints) && ProbedSince(s, k, t)
    ensures ProbedSince(Next(s, e), k, t)
    ensures k in Next(s, e).waiting ==>
      e.now - t >= 30.0 && (Get(Next(s, e).policy.failures, k, 0) >= 3 ==> e.now - t >= 300.0)
  {
    ScanIsFair(s.policy, e.endpoints, e.now);
    WalkFinds(Forgotten(s.policy, KeysOf(e.endpoints)), e.endpoints, e.now);
    assert Next(s, e).policy.probedAt[k] == s.policy.probedAt[k];
  }

  lemma {:induction false} StaysProbed(s: System, run: seq<Event>, k: Key, t: Time)
    requires ProbedSince(s, k, t) && Present(s, run, k)
    ensures ProbedSince(After(s, run), k, t)
    decreases |run|
  {
    if run != [] {
      var (before, e) := (run[..|run| - 1], run[|run| - 1]);
      StaysProbed(s, before, k, t);
      if e.Scanned? { ScanAfterProbe(After(s, before), e, k, t); }
    }
  }

  /** After a probe of an endpoint is recorded at `at`, no later scan that still knows the endpoint selects it
      within 30 seconds, or within 300 when it has failed three times. */
  lemma ProbesKeepTheirDistance(s: System, success: Option<bool>, at: Time, run: seq<Event>, e: Event)
    requires s.waiting != [] && Distinct(s.waiting) && at >= s.scannedAt
    requires Present(Next(s, Probed(success, at)), run, s.waiting[0])
    requires e.Scanned? && DistinctKeys(e.endpoints) && s.waiting[0] in KeysOf(e.endpoints)
    requires s.waiting[0] in Next(After(Next(s, Probed(success, at)), run), e).waiting
    ensures e.now - at >= 30.0
    ensures Get(Next(After(Next(s, Probed(success, at)), run), e).policy.failures, s.waiting[0], 0) >= 3 ==> e.now - at >= 300.0
  {
    var k := s.waiting[0];
    var t := Next(s, Probed(success, at));
    StaysProbed(t, run, k, at);
    ScanAfterProbe(After(t, run), e, k, at);
  }

  /** An endpoint the policy knows nothing about, found known and silent by its first scan, is due at once. */
  lemma NewcomerIsDue(q: Policy, e: Endpoint, now: Time)
    requires e.key !in q.known && e.key !in q.probedAt
    requires e.responses >= 3 && e.queryable && e.lastResponse.Some? && now - e.lastResponse.value >= SILENCE_SECONDS
    requires now - q.started >= SILENCE_SECONDS
    ensures IsDue(Noticed(q, e), e, now)
  {
    NoticedElsewhere(q, e);
    assert Noticed(q, e).known[e.key] == e.lastResponse.value;
  }

  lemma WalkOne(q: Policy, e: Endpoint, now: Time)
    ensures Walk(q, [e], now).due == if IsDue(Noticed(q, e), e, now) then [e.key] else []
  {
    assert [e][..0] == [];
    assert Walk(q, [], now) == Findings(q, [], []);
  }

  lemma SortedOne(m: map<Key, Time>, k: Key)
    ensures First4(Sorted(m, [k])) == [k]
  {
    assert [k][..0] == [];
    assert Sorted(m, []) == [];
  }

  /** The distance does need the endpoint to stay known: one scan without it, and the next one that finds it
      known and silent probes it at once, however recent its last probe. */
  lemma AbsenceForgets(p: Policy, gone: seq<Endpoint>, missedAt: Time, e: Endpoint, now: Time)
    requires e.key !in KeysOf(gone)
    requires e.responses >= 3 && e.queryable && e.lastResponse.Some? && now - e.lastResponse.value >= SILENCE_SECONDS
    requires now - p.started >= SILENCE_SECONDS
    ensures Probes(Walked(p, gone, missedAt).policy, [e], now) == [e.key]
  {
    var start := Forgotten(p, KeysOf(gone));
    WalkStarted(start, gone, missedAt);
    WalkSkips(start, gone, missedAt, e.key);
    var q := Forgotten(Walked(p, gone, missedAt).policy, KeysOf([e]));
    NewcomerIsDue(q, e, now);
    WalkOne(q, e, now);
    SortedOne(Walk(q, [e], now).policy.probedAt, e.key);
  }

  /** A scan learns nothing about an endpoint it does not list. */
  lemma {:induction false} WalkSkips(p: Policy, endpoints: seq<Endpoint>, now: Time, k: Key)
    requires k !in KeysOf(endpoints) && k !in p.known && k !in p.probedAt && k !in p.failures
    ensures var q := Walk(p, endpoints, now).policy; k !in q.known && k !in q.probedAt && k !in q.failures
    decreases |endpoints|
  {
    if endpoints != [] {
      var (before, e) := (endpoints[..|endpoints| - 1], endpoints[|endpoints| - 1]);
      assert forall i :: 0 <= i < |before| ==> before[i] == endpoints[i];
      assert e.key in KeysOf(endpoints);
      WalkSkips(p, before, now, k);
    }
  }

  // ---- Alerts ----

  /** Failed probes of `k` since the last one that succeeded, or since a scan that did not know it. */
  function Misses(s: System, run: seq<Event>, k: Key): nat
    decreases |run|
  {
    if run == [] then 0
    else
      var (t, e) := (After(s, run[..|run| - 1]), run[|run| - 1]);
      var before := Misses(s, run[..|run| - 1], k);
      match e
      case Scanned(endpoints, _) => if k in KeysOf(endpoints) then before else 0
      case Probed(success, _) =>
        if t.waiting == [] || t.waiting[0] != k then before
        else match success
          case None => before
          case Some(true) => 0
          case Some(false) => before + 1
  }

  lemma {:induction false} WalkForgives(p: Policy, endpoints: seq<Endpoint>, now: Time, k: Key)
    ensures Get(Walk(p, endpoints, now).policy.failures, k, 0) <= Get(p.failures, k, 0)
    decreases |endpoints|
  {
    if endpoints != [] {
      var before := endpoints[..|endpoints| - 1];
      WalkForgives(p, before, now, k);
      NoticedElsewhere(Walk(p, before, now).policy, endpoints[|endpoints| - 1]);
    }
  }

  lemma {:induction false} FailuresAreMisses(s: System, run: seq<Event>, k: Key)
    requires s.policy.failures == map[]
    ensures Get(After(s, run).policy.failures, k, 0) <= Misses(s, run, k)
    decreases |run|
  {
    if run != [] {
      var (before, e) := (run[..|run| - 1], run[|run| - 1]);
      FailuresAreMisses(s, before, k);
      if e.Scanned? {
        WalkForgives(Forgotten(After(s, before).policy, KeysOf(e.endpoints)), e.endpoints, e.now, k);
      }
    }
  }

  lemma {:induction false} WalkAlerts(p: Policy, endpoints: seq<Endpoint>, now: Time, a: DeviceAlert)
    requires a in Walk(p, endpoints, now).alerts && a.reason.NoResponse?
    ensures Get(p.failures, a.endpoint, 0) >= 3 && now - p.started >= SILENCE_SECONDS
    decreases |endpoints|
  {
    if endpoints != [] {
      var (before, e) := (endpoints[..|endpoints| - 1], endpoints[|endpoints| - 1]);
      var q := Walk(p, before, now).policy;
      WalkForgives(p, before, now, a.endpoint);
      NoticedElsewhere(q, e);
      WalkStarted(p, before, now);
      if a in Walk(p, before, now).alerts {
        WalkAlerts(p, before, now, a);
      }
    }
  }

  lemma {:induction false} WalkStarted(p: Policy, endpoints: seq<Endpoint>, now: Time)
    ensures Walk(p, endpoints, now).policy.started == p.started
    decreases |endpoints|
  {
    if endpoints != [] { WalkStarted(p, endpoints[..|endpoints| - 1], now); }
  }

  /** Nobody is reported for not responding on the strength of old records: a `no_response` alert follows
      three failed probes in the same run, with no successful one since. */
  lemma AlertsAreEarned(s: System, run: seq<Event>, endpoints: seq<Endpoint>, now: Time, a: DeviceAlert)
    requires s.policy.failures == map[]
    requires a in Walked(After(s, run).policy, endpoints, now).alerts && a.reason.NoResponse?
    ensures Misses(s, run, a.endpoint) >= 3
  {
    var p := After(s, run).policy;
    WalkAlerts(Forgotten(p, KeysOf(endpoints)), endpoints, now, a);
    FailuresAreMisses(s, run, a.endpoint);
  }

  /** The policy has run for three minutes, and the endpoint has not answered for three, or fifteen when it
      cannot be asked. */
  predicate LongSilent(e: Endpoint, started: Time, now: Time) {
    && now - started >= SILENCE_SECONDS
    && (e.lastResponse.Some? ==>
          now - e.lastResponse.value >= if e.queryable then SILENCE_SECONDS else PASSIVE_STALE_SECONDS)
  }

  ghost predicate Deserved(e: Endpoint, started: Time, now: Time, a: DeviceAlert) {
    a.endpoint == e.key && a.reason == (if e.queryable then NoResponse else Stale) && LongSilent(e, started, now)
  }

  ghost predicate WorthAsking(e: Endpoint, started: Time, now: Time, k: Key) {
    k == e.key && e.queryable && LongSilent(e, started, now)
  }

  lemma {:induction false} WalkIsDeserved(p: Policy, endpoints: seq<Endpoint>, now: Time)
    ensures forall a :: a in Walk(p, endpoints, now).alerts ==> exists e :: e in endpoints && Deserved(e, p.started, now, a)
    ensures forall k :: k in Walk(p, endpoints, now).due ==> exists e :: e in endpoints && WorthAsking(e, p.started, now, k)
    decreases |endpoints|
  {
    if endpoints != [] {
      var (before, e) := (endpoints[..|endpoints| - 1], endpoints[|endpoints| - 1]);
      WalkIsDeserved(p, before, now);
      WalkStarted(p, before, now);
      NoticedElsewhere(Walk(p, before, now).policy, e);
      assert endpoints == before + [e];
      LastIsDeserved(Noticed(Walk(p, before, now).policy, e), e, now);
    }
  }

  lemma LastIsDeserved(q: Policy, e: Endpoint, now: Time)
    ensures forall a :: a in AlertsOf(q, e, now) ==> Deserved(e, q.started, now, a)
    ensures IsDue(q, e, now) ==> WorthAsking(e, q.started, now, e.key)
  {
  }

  /** Whatever a scan reports or asks for concerns an endpoint that has been silent for long enough. */
  lemma OnlySilenceCounts(p: Policy, endpoints: seq<Endpoint>, now: Time)
    requires DistinctKeys(endpoints)
    ensures forall a :: a in Walked(p, endpoints, now).alerts ==>
      exists e :: e in endpoints && Deserved(e, p.started, now, a)
    ensures forall k :: k in Probes(p, endpoints, now) ==>
      exists e :: e in endpoints && WorthAsking(e, p.started, now, k)
  {
    WalkIsDeserved(Forgotten(p, KeysOf(endpoints)), endpoints, now);
    ScanIsFair(p, endpoints, now);
  }

  // ---- Exactly when a probe's distance is kept ----

  /** After the next scan, a further one that finds `e` selects it no sooner than 30 seconds after `at`. */
  predicate KeepsDistance(p: Policy, at: Time, e: Endpoint, now: Time) {
    e.key in Probes(p, [e], now) ==> now - at >= 30.0
  }

  lemma ListedKeepsDistance(p: Policy, k: Key, at: Time, endpoints: seq<Endpoint>, mid: Time, e: Endpoint, now: Time)
    requires k in p.probedAt && p.probedAt[k] == at && DistinctKeys(endpoints) && k in KeysOf(endpoints) && e.key == k
    ensures KeepsDistance(Walked(p, endpoints, mid).policy, at, e, now)
  {
    WalkKeepsProbes(Forgotten(p, KeysOf(endpoints)), endpoints, mid);
    var q := Walked(p, endpoints, mid).policy;
    assert q.probedAt[k] == at;
    WalkKeepsProbes(Forgotten(q, KeysOf([e])), [e], now);
    WalkFinds(Forgotten(q, KeysOf([e])), [e], now);
    ScanIsFair(q, [e], now);
    assert [e][0].key in KeysOf([e]);
  }

  /** A probe recorded at `at` keeps the next selection of its endpoint 30 seconds away, whatever it looks like
      then, if and only if the scan in between lists the endpoint. */
  lemma DistanceExactly(p: Policy, k: Key, success: Option<bool>, at: Time, endpoints: seq<Endpoint>, mid: Time)
    requires DistinctKeys(endpoints) && at - p.started >= SILENCE_SECONDS
    ensures k in KeysOf(endpoints) <==>
      forall e: Endpoint, now: Time :: e.key == k ==>
        KeepsDistance(Walked(Recorded(p, k, success, at), endpoints, mid).policy, at, e, now)
  {
    var q := Recorded(p, k, success, at);
    if k in KeysOf(endpoints) {
      forall e: Endpoint, now: Time | e.key == k ensures KeepsDistance(Walked(q, endpoints, mid).policy, at, e, now) {
        ListedKeepsDistance(q, k, at, endpoints, mid, e, now);
      }
    } else {
      var e := Endpoint(k, 3, Some(at - SILENCE_SECONDS), true);
      AbsenceForgets(q, endpoints, mid, e, at);
      assert !KeepsDistance(Walked(q, endpoints, mid).policy, at, e, at);
    }
  }
}
