/** Automatic reconnection on a shared outage: one attempt, then silence until it has been seen to work. */
module AutoReconnect {
  import opened Wrappers

  type Time = real

  datatype Key = Key(address: int, subId: int)

  /** What one evaluation is given. */
  datatype Reading = Reading(endpoints: seq<(Key, Time)>, failed: set<Key>, now: Time, connected: bool, busy: bool)

  datatype Policy = Policy(incident: Option<Time>, attempted: Option<Time>, verified: Option<Time>)

  /** The last entry for a key counts. */
  function Known(endpoints: seq<(Key, Time)>): map<Key, Time> {
    if endpoints == [] then map[]
    else
      var (key, last) := endpoints[|endpoints| - 1];
      Known(endpoints[..|endpoints| - 1])[key := last]
  }

  function Addresses(keys: set<Key>): set<int> {
    set k | k in keys :: k.address
  }

  /** The addresses that answered after `since`. */
  function Recovered(known: map<Key, Time>, since: Time): set<int> {
    set k | k in known && known[k] > since :: k.address
  }

  /** Every known endpoint has failed; there are at least three, at two addresses, and at least three of them
      answered within the last day. */
  predicate SharedOutage(r: Reading) {
    var known := Known(r.endpoints);
    && |known| >= 3 && |Addresses(known.Keys)| >= 2
    && |set k | k in known && 0.0 <= r.now - known[k] <= 86400.0| >= 3
    && r.failed == known.Keys
  }

  predicate Verifies(r: Reading, since: Time) {
    |Recovered(Known(r.endpoints), since)| >= 2
  }

  class AutoReconnectPolicy {
    var incidentStartedAt: Option<Time>
    var attemptedAt: Option<Time>
    var verifiedAt: Option<Time>

    ghost function Abs(): Policy
      reads this
    {
      Policy(incidentStartedAt, attemptedAt, verifiedAt)
    }

    constructor (incident: Option<Time>, attempted: Option<Time>, verified: Option<Time>)
      ensures Abs() == Policy(incident, attempted, verified)
    {
      incidentStartedAt, attemptedAt, verifiedAt := incident, attempted, verified;
    }

    method Evaluate(r: Reading) returns (reconnect: bool)
      modifies this
      ensures (Abs(), reconnect) == Evaluated(old(Abs()), r)
    {
      reconnect := false;
      if attemptedAt.Some? {
        if Verifies(r, attemptedAt.value) {
          verifiedAt, incidentStartedAt, attemptedAt := Some(r.now), None, None;
        }
        return;
      }
      if !SharedOutage(r) {
        incidentStartedAt := None;
        return;
      }
      if incidentStartedAt.None? {
        incidentStartedAt := Some(r.now);
      }
      if r.now - incidentStartedAt.value < 180.0 || !r.connected || r.busy {
        return;
      }
      attemptedAt, reconnect := Some(r.now), true;
    }
  }

  /** One evaluation, as a function of the policy and the reading. */
  function Evaluated(p: Policy, r: Reading): (Policy, bool) {
    if p.attempted.Some? then
      (if Verifies(r, p.attempted.value) then Policy(None, None, Some(r.now)) else p, false)
    else if !SharedOutage(r) then (p.(incident := None), false)
    else
      var start := if p.incident.Some? then p.incident.value else r.now;
      var due := r.now - start >= 180.0 && r.connected && !r.busy;
      (p.(incident := Some(start), attempted := if due then Some(r.now) else None), due)
  }

  /** A run of readings, from any policy: a new one, or one restored from storage. */
  function After(p: Policy, run: seq<Reading>): Policy {
    if run == [] then p else Evaluated(After(p, run[..|run| - 1]), run[|run| - 1]).0
  }

  /** The run's reading `i` triggers a reconnection. */
  predicate Fires(p: Policy, run: seq<Reading>, i: nat)
    requires i < |run|
  {
    Evaluated(After(p, run[..i]), run[i]).1
  }

  /** When the attempt was made that nobody has seen to work yet. */
  function Awaiting(p: Policy, run: seq<Reading>): Option<Time>
    decreases |run|
  {
    if run == [] then p.attempted
    else
      var (n, before) := (|run| - 1, Awaiting(p, run[..|run| - 1]));
      if before.Some? then if Verifies(run[n], before.value) then None else before
      else if Fires(p, run, n) then Some(run[n].now) else None
  }

  /** Where the present unbroken series of shared-outage readings began: a position in the run, -1 when it was
      under way already, and the length of the run when there is none. Readings that only look whether an attempt
      worked break the series. */
  function OutageFrom(p: Policy, run: seq<Reading>): (i: int)
    ensures -1 <= i <= |run| && (i == -1 ==> p.incident.Some?)
    decreases |run|
  {
    if run == [] then if p.attempted.None? && p.incident.Some? then -1 else 0
    else
      var before := run[..|run| - 1];
      if Awaiting(p, before).None? && SharedOutage(run[|run| - 1]) then OutageFrom(p, before) else |run|
  }

  /** The time the series began. */
  function OutageStart(p: Policy, run: seq<Reading>): Option<Time> {
    var from := OutageFrom(p, run);
    if from == |run| then None else if from == -1 then p.incident else Some(run[from].now)
  }

  /** The policy's fields are these functions of the starting policy and the run so far. */
  lemma {:induction false} Remembered(p: Policy, run: seq<Reading>)
    ensures After(p, run).attempted == Awaiting(p, run)
    ensures Awaiting(p, run).None? ==> After(p, run).incident == OutageStart(p, run)
    decreases |run|
  {
    if run != [] {
      Remembered(p, run[..|run| - 1]);
    }
  }

  lemma {:induction false} OutageIsUnbroken(p: Policy, run: seq<Reading>, k: nat)
    requires OutageFrom(p, run) <= k < |run|
    ensures SharedOutage(run[k]) && Awaiting(p, run[..k]).None?
    decreases |run|
  {
    var before := run[..|run| - 1];
    if k < |run| - 1 {
      OutageIsUnbroken(p, before, k);
      assert before[..k] == run[..k];
    }
  }

  /** A reconnection is triggered exactly when no earlier one is still waiting to be verified, this reading ends
      an unbroken series of shared-outage readings that spans three minutes, and the link is up and idle. */
  lemma FiresExactly(p: Policy, run: seq<Reading>)
    requires run != []
    ensures var (n, before) := (|run| - 1, run[..|run| - 1]);
      Fires(p, run, n) <==>
        && Awaiting(p, before).None? && OutageFrom(p, run) <= n
        && run[n].now - OutageStart(p, run).value >= 180.0 && run[n].connected && !run[n].busy
  {
    Remembered(p, run[..|run| - 1]);
  }

  /** The readings that a trigger ends are shared outages without a break, for three minutes; the series may have
      begun before the run, then it counts from the incident the policy was restored with, and every reading of the
      run belongs to it. */
  lemma FiresAfterThreeMinutes(p: Policy, run: seq<Reading>, j: nat) returns (i: int)
    requires j < |run| && Fires(p, run, j)
    ensures -1 <= i <= j && (i == -1 ==> p.incident.Some? && p.attempted.None?)
    ensures run[j].now - (if i == -1 then p.incident.value else run[i].now) >= 180.0
    ensures forall k :: 0 <= k <= j && i <= k ==> SharedOutage(run[k])
  {
    var upTo := run[..j + 1];
    assert upTo[..j] == run[..j];
    FiresExactly(p, upTo);
    i := OutageFrom(p, upTo);
    forall k | 0 <= k <= j && i <= k ensures SharedOutage(run[k]) {
      OutageIsUnbroken(p, upTo, k);
    }
    if i == -1 { BeganEarlier(p, upTo); }
  }

  lemma {:induction false} BeganEarlier(p: Policy, run: seq<Reading>)
    requires OutageFrom(p, run) == -1
    ensures p.attempted.None?
    decreases |run|
  {
    if run != [] { BeganEarlier(p, run[..|run| - 1]); }
  }

  /** The first reading after a restart triggers if and only if the policy was restored in the middle of an incident
      that by then has lasted three minutes. */
  lemma RestoredIncidentCounts(p: Policy, r: Reading)
    requires p.attempted.None? && SharedOutage(r) && r.connected && !r.busy
    ensures Fires(p, [r], 0) <==> p.incident.Some? && r.now - p.incident.value >= 180.0
  {
    assert [r][..0] == [];
  }

  lemma {:induction false} AttemptWaits(p: Policy, run: seq<Reading>, i: nat)
    requires i < |run| && Fires(p, run, i)
    requires forall k :: i < k < |run| ==> !Verifies(run[k], run[i].now)
    ensures Awaiting(p, run) == Some(run[i].now)
    decreases |run|
  {
    var before := run[..|run| - 1];
    if i < |run| - 1 {
      assert before[..i] == run[..i];
      AttemptWaits(p, before, i);
    } else {
      Remembered(p, before);
    }
  }

  /** One shot: between two reconnections at least two addresses have answered after the first. */
  lemma OneShot(p: Policy, run: seq<Reading>, i: nat, j: nat) returns (k: nat)
    requires i < j < |run| && Fires(p, run, i) && Fires(p, run, j)
    ensures i < k < j && |Recovered(Known(run[k].endpoints), run[i].now)| >= 2
  {
    if forall m :: i < m < j ==> !Verifies(run[m], run[i].now) {
      var upTo := run[..j];
      assert upTo[..i] == run[..i];
      AttemptWaits(p, upTo, i);
      Remembered(p, upTo);
      assert false;
    }
    k :| i < k < j && Verifies(run[k], run[i].now);
  }

  lemma {:induction false} RestoredWaits(p: Policy, run: seq<Reading>)
    requires p.attempted.Some? && forall k :: 0 <= k < |run| ==> !Verifies(run[k], p.attempted.value)
    ensures Awaiting(p, run) == p.attempted
    decreases |run|
  {
    if run != [] { RestoredWaits(p, run[..|run| - 1]); }
  }

  /** An attempt restored from storage still has to be verified before anything triggers. */
  lemma OneShotAcrossRestart(p: Policy, run: seq<Reading>, j: nat) returns (k: nat)
    requires p.attempted.Some? && j < |run| && Fires(p, run, j)
    ensures k < j && |Recovered(Known(run[k].endpoints), p.attempted.value)| >= 2
  {
    if forall m :: 0 <= m < j ==> !Verifies(run[m], p.attempted.value) {
      RestoredWaits(p, run[..j]);
      Remembered(p, run[..j]);
      assert false;
    }
    k :| 0 <= k < j && Verifies(run[k], p.attempted.value);
  }

  /** A policy that is stored and restored goes on as if nothing had happened: the laws hold across restarts, with the
      readings before and after as one run. */
  lemma {:induction false} RestartGoesOn(p: Policy, before: seq<Reading>, after: seq<Reading>)
    ensures After(p, before + after) == After(After(p, before), after)
    ensures forall j: nat :: j < |after| ==> Fires(p, before + after, |before| + j) == Fires(After(p, before), after, j)
    decreases |after|
  {
    if after == [] {
      assert before + after == before;
    } else {
      var shorter := after[..|after| - 1];
      RestartGoesOn(p, before, shorter);
      assert (before + after)[..|before + after| - 1] == before + shorter;
      forall j: nat | j < |after|
        ensures Fires(p, before + after, |before| + j) == Fires(After(p, before), after, j)
      {
        assert (before + after)[..|before| + j] == before + after[..j];
        if j < |shorter| {
          assert (before + shorter)[..|before| + j] == before + after[..j] && shorter[..j] == after[..j];
          assert Fires(p, before + shorter, |before| + j) == Fires(After(p, before), shorter, j);
        } else {
          assert after[..j] == shorter;
        }
      }
    }
  }

  // ---- The conditions, over the readings themselves ----

  /** Entry `i` is the last one for `k`. */
  predicate LastEntry(endpoints: seq<(Key, Time)>, i: nat, k: Key) {
    i < |endpoints| && endpoints[i].0 == k && forall j :: i < j < |endpoints| ==> endpoints[j].0 != k
  }

  /** The reading says that `k` last answered at `t`. */
  ghost predicate Says(endpoints: seq<(Key, Time)>, k: Key, t: Time) {
    exists i: nat :: LastEntry(endpoints, i, k) && endpoints[i].1 == t
  }

  lemma {:induction false} KnownIs(endpoints: seq<(Key, Time)>, k: Key, t: Time)
    ensures k in Known(endpoints) && Known(endpoints)[k] == t <==> Says(endpoints, k, t)
    decreases |endpoints|
  {
    if endpoints != [] {
      var (n, before) := (|endpoints| - 1, endpoints[..|endpoints| - 1]);
      KnownIs(before, k, t);
      if endpoints[n].0 == k {
        assert LastEntry(endpoints, n, k);
      } else {
        assert forall i: nat :: LastEntry(endpoints, i, k) ==> LastEntry(before, i, k);
        assert forall i: nat :: LastEntry(before, i, k) ==> LastEntry(endpoints, i, k);
      }
    }
  }

  lemma Two<T>(s: set<T>)
    ensures |s| >= 2 <==> exists a, b :: a in s && b in s && a != b
  {
    if |s| >= 2 {
      var a :| a in s;
      assert |s - {a}| >= 1;
      var b :| b in s - {a};
      assert a in s && b in s && a != b;
    } else if a, b :| a in s && b in s && a != b {
      assert {a, b} <= s;
      Fewer({a, b}, s);
    }
  }

  predicate Distinct3<T(==)>(s: set<T>, a: T, b: T, c: T) {
    a in s && b in s && c in s && a != b && a != c && b != c
  }

  lemma Three<T>(s: set<T>)
    ensures |s| >= 3 <==> exists a, b, c :: Distinct3(s, a, b, c)
  {
    if |s| >= 3 {
      var a :| a in s;
      Two(s - {a});
      var b, c :| b in s - {a} && c in s - {a} && b != c;
      assert Distinct3(s, a, b, c);
    } else if a, b, c :| Distinct3(s, a, b, c) {
      assert {a, b, c} <= s;
      Fewer({a, b, c}, s);
    }
  }

  lemma Fewer<T>(a: set<T>, b: set<T>)
    requires a <= b
    ensures |a| <= |b|
  {
    assert b == a + (b - a);
  }

  /** The endpoint answered within the last day. */
  ghost predicate RecentlySeen(r: Reading, k: Key) {
    exists t :: Says(r.endpoints, k, t) && 0.0 <= r.now - t <= 86400.0
  }

  /** Every endpoint that was ever seen has failed, and no other. */
  ghost predicate AllFailed(r: Reading) {
    forall k :: k in r.failed <==> exists t :: Says(r.endpoints, k, t)
  }

  ghost predicate ThreeRecent(r: Reading) {
    exists a, b, c :: a != b && a != c && b != c && RecentlySeen(r, a) && RecentlySeen(r, b) && RecentlySeen(r, c)
  }

  ghost predicate TwoAddresses(keys: set<Key>) {
    exists a, b :: a in keys && b in keys && a.address != b.address
  }

  lemma RecentIs(r: Reading)
    ensures forall k :: RecentlySeen(r, k) <==>
      k in Known(r.endpoints) && 0.0 <= r.now - Known(r.endpoints)[k] <= 86400.0
  {
    var known := Known(r.endpoints);
    forall k ensures RecentlySeen(r, k) <==> k in known && 0.0 <= r.now - known[k] <= 86400.0 {
      if k in known { KnownIs(r.endpoints, k, known[k]); }
      if t :| Says(r.endpoints, k, t) && 0.0 <= r.now - t <= 86400.0 { KnownIs(r.endpoints, k, t); }
    }
  }

  lemma AllFailedIs(r: Reading)
    ensures AllFailed(r) <==> r.failed == Known(r.endpoints).Keys
  {
    var known := Known(r.endpoints);
    forall k ensures k in known <==> exists t :: Says(r.endpoints, k, t) {
      if k in known { KnownIs(r.endpoints, k, known[k]); }
      if t :| Says(r.endpoints, k, t) { KnownIs(r.endpoints, k, t); }
    }
  }

  lemma AddressesAre(keys: set<Key>)
    ensures |Addresses(keys)| >= 2 <==> TwoAddresses(keys)
  {
    Two(Addresses(keys));
    if TwoAddresses(keys) {
      var a, b :| a in keys && b in keys && a.address != b.address;
      assert a.address in Addresses(keys) && b.address in Addresses(keys);
    }
  }

  /** A reading is a shared outage if and only if all that was ever seen has failed, at two addresses or more, and
      three of them answered within the last day. */
  lemma SharedOutageExactly(r: Reading)
    ensures SharedOutage(r) <==> AllFailed(r) && TwoAddresses(r.failed) && ThreeRecent(r)
  {
    var known := Known(r.endpoints);
    var recent := set k | k in known && 0.0 <= r.now - known[k] <= 86400.0;
    RecentIs(r);
    AllFailedIs(r);
    AddressesAre(known.Keys);
    Three(recent);
    Fewer(recent, known.Keys);
    assert |known| == |known.Keys|;
    assert ThreeRecent(r) <==> exists a, b, c :: Distinct3(recent, a, b, c) by { ThreeRecentIs(r, recent); }
  }

  lemma ThreeRecentIs(r: Reading, recent: set<Key>)
    requires forall k :: k in recent <==> RecentlySeen(r, k)
    ensures ThreeRecent(r) <==> exists a, b, c :: Distinct3(recent, a, b, c)
  {
    if ThreeRecent(r) {
      var a, b, c :| a != b && a != c && b != c && RecentlySeen(r, a) && RecentlySeen(r, b) && RecentlySeen(r, c);
      assert Distinct3(recent, a, b, c);
    }
    if a, b, c :| Distinct3(recent, a, b, c) {
      assert RecentlySeen(r, a) && RecentlySeen(r, b) && RecentlySeen(r, c);
    }
  }

  /** The endpoint answered after `since`. */
  ghost predicate AnsweredAfter(r: Reading, k: Key, since: Time) {
    exists t :: Says(r.endpoints, k, t) && t > since
  }

  /** A reading verifies an attempt if and only if endpoints at two addresses answered after it. */
  lemma VerifiesExactly(r: Reading, since: Time)
    ensures Verifies(r, since) <==>
      exists a, b :: AnsweredAfter(r, a, since) && AnsweredAfter(r, b, since) && a.address != b.address
  {
    var known := Known(r.endpoints);
    forall k ensures AnsweredAfter(r, k, since) <==> k in known && known[k] > since {
      if k in known { KnownIs(r.endpoints, k, known[k]); }
      if t :| Says(r.endpoints, k, t) && t > since { KnownIs(r.endpoints, k, t); }
    }
    var keys := set k | k in known && known[k] > since;
    assert Recovered(known, since) == Addresses(keys);
    AddressesAre(keys);
    if TwoAddresses(keys) {
      var a, b :| a in keys && b in keys && a.address != b.address;
      assert AnsweredAfter(r, a, since) && AnsweredAfter(r, b, since);
    }
    if a, b :| AnsweredAfter(r, a, since) && AnsweredAfter(r, b, since) && a.address != b.address {
      assert a in keys && b in keys;
    }
  }
}
