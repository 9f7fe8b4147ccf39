/** Endpoint alert selection: which endpoints to probe next, and which to report. */
module Alert {
  import opened Wrappers

  type Time = real

  /** Endpoint keys, of which only the order matters. */
  type Key = int

  const SILENCE_SECONDS: Time := 180.0
  const PASSIVE_STALE_SECONDS: Time := 900.0

  datatype Endpoint = Endpoint(key: Key, responses: nat, lastResponse: Option<Time>, queryable: bool)

  datatype Reason = NoResponse | Stale

  datatype DeviceAlert = DeviceAlert(endpoint: Key, reason: Reason)

  datatype Policy = Policy(
    started: Time, known: map<Key, Time>, failures: map<Key, nat>, probedAt: map<Key, Time>, lastObserved: map<Key, Time>)

  function Get<V>(m: map<Key, V>, k: Key, default: V): V {
    if k in m then m[k] else default
  }

  function KeysOf(endpoints: seq<Endpoint>): set<Key> {
    set i | 0 <= i < |endpoints| :: endpoints[i].key
  }

  function Only<V>(m: map<Key, V>, present: set<Key>): map<Key, V> {
    map k | k in m && k in present :: m[k]
  }

  /** Endpoints that are gone are forgotten. */
  function Forgotten(p: Policy, present: set<Key>): Policy {
    Policy(p.started, Only(p.known, present), Only(p.failures, present), Only(p.probedAt, present),
           Only(p.lastObserved, present))
  }

  /** A response newer than the last one seen clears the failures; three responses make an endpoint known. */
  function Noticed(p: Policy, e: Endpoint): Policy {
    if e.lastResponse.None? then p
    else
      var observed := e.lastResponse.value;
      var q := if observed > Get(p.lastObserved, e.key, -1.0)
               then p.(lastObserved := p.lastObserved[e.key := observed], failures := p.failures - {e.key}) else p;
      if e.responses < 3 then q
      else
        var before := Get(q.known, e.key, observed);
        q.(known := q.known[e.key := if observed > before then observed else before])
  }

  /** A known endpoint that has been silent for too long. */
  predicate Silent(p: Policy, e: Endpoint, now: Time) {
    && e.key in p.known && now - p.started >= SILENCE_SECONDS
    && var baseline := p.known[e.key];
       var lastSeen := if e.lastResponse.Some? && e.lastResponse.value > baseline then e.lastResponse.value else baseline;
       now - lastSeen >= if e.queryable then SILENCE_SECONDS else PASSIVE_STALE_SECONDS
  }

  function Interval(p: Policy, k: Key): Time {
    if Get(p.failures, k, 0) >= 3 then 300.0 else 30.0
  }

  predicate Rested(p: Policy, k: Key, now: Time) {
    k !in p.probedAt || now - p.probedAt[k] >= Interval(p, k)
  }

  predicate IsDue(p: Policy, e: Endpoint, now: Time) {
    Silent(p, e, now) && e.queryable && Rested(p, e.key, now)
  }

  function AlertsOf(p: Policy, e: Endpoint, now: Time): seq<DeviceAlert> {
    if !Silent(p, e, now) || (e.queryable && Get(p.failures, e.key, 0) < 3) then []
    else [DeviceAlert(e.key, if e.queryable then NoResponse else Stale)]
  }

  datatype Findings = Findings(policy: Policy, due: seq<Key>, alerts: seq<DeviceAlert>)

  /** The scan's walk over the endpoints, in their order. */
  function Walk(p: Policy, endpoints: seq<Endpoint>, now: Time): Findings {
    if endpoints == [] then Findings(p, [], [])
    else
      var before := Walk(p, endpoints[..|endpoints| - 1], now);
      var e := endpoints[|endpoints| - 1];
      var q := Noticed(before.policy, e);
      Findings(q, before.due + (if IsDue(q, e, now) then [e.key] else []), before.alerts + AlertsOf(q, e, now))
  }

  /** Never probed first, then by the time of the last probe, then by key. */
  predicate Before(probedAt: map<Key, Time>, a: Key, b: Key) {
    if a !in probedAt then b in probedAt || a < b
    else b in probedAt && (probedAt[a] < probedAt[b] || (probedAt[a] == probedAt[b] && a < b))
  }

  function Insert(probedAt: map<Key, Time>, k: Key, s: seq<Key>): seq<Key> {
    if s == [] || Before(probedAt, k, s[0]) then [k] + s else [s[0]] + Insert(probedAt, k, s[1..])
  }

  function Sorted(probedAt: map<Key, Time>, s: seq<Key>): seq<Key>
    decreases |s|
  {
    if s == [] then [] else Insert(probedAt, s[|s| - 1], Sorted(probedAt, s[..|s| - 1]))
  }

  function First4(s: seq<Key>): seq<Key> {
    if |s| > 4 then s[..4] else s
  }

  function Walked(p: Policy, endpoints: seq<Endpoint>, now: Time): Findings {
    Walk(Forgotten(p, KeysOf(endpoints)), endpoints, now)
  }

  /** The probes a scan asks for: the four due endpoints whose last probe is longest ago. */
  function Probes(p: Policy, endpoints: seq<Endpoint>, now: Time): seq<Key> {
    var f := Walked(p, endpoints, now);
    First4(Sorted(f.policy.probedAt, f.due))
  }

  function Recorded(p: Policy, k: Key, success: Option<bool>, now: Time): Policy {
    var q := p.(probedAt := p.probedAt[k := now]);
    match success
    case None => q
    case Some(true) => q.(known := q.known[k := now], failures := q.failures - {k})
    case Some(false) => q.(failures := q.failures[k := Get(q.failures, k, 0) + 1])
  }

  class AlertPolicy {
    const started: Time
    var known: map<Key, Time>
    var failures: map<Key, nat>
    var probedAt: map<Key, Time>
    var lastObserved: map<Key, Time>

    ghost function Abs(): Policy
      reads this
    {
      Policy(started, known, failures, probedAt, lastObserved)
    }

    constructor (started: Time, known: map<Key, Time>)
      ensures Abs() == Policy(started, known, map[], map[], map[])
    {
      this.started, this.known := started, known;
      failures, probedAt, lastObserved := map[], map[], map[];
    }

    method Forget(present: set<Key>)
      modifies this
      ensures Abs() == Forgotten(old(Abs()), present)
    {
      known, failures := Only(known, present), Only(failures, present);
      probedAt, lastObserved := Only(probedAt, present), Only(lastObserved, present);
    }

    method Notice(e: Endpoint)
      modifies this
      ensures Abs() == Noticed(old(Abs()), e)
    {
      if e.lastResponse.Some? {
        var observed := e.lastResponse.value;
        if observed > Get(lastObserved, e.key, -1.0) {
          lastObserved := lastObserved[e.key := observed];
          failures := failures - {e.key};
        }
        if e.responses >= 3 {
          var before := Get(known, e.key, observed);
          known := known[e.key := if observed > before then observed else before];
        }
      }
    }

    /** What one silent endpoint adds to a scan. */
    method Inspect(e: Endpoint, now: Time) returns (due: bool, alerts: seq<DeviceAlert>)
      ensures due == IsDue(Abs(), e, now) && alerts == AlertsOf(Abs(), e, now)
    {
      due, alerts := false, [];
      if e.key !in known || now - started < SILENCE_SECONDS {
        return;
      }
      var lastSeen := known[e.key];
      if e.lastResponse.Some? && e.lastResponse.value > lastSeen {
        lastSeen := e.lastResponse.value;
      }
      if now - lastSeen < if e.queryable then SILENCE_SECONDS else PASSIVE_STALE_SECONDS {
        return;
      }
      if e.queryable {
        var missed := Get(failures, e.key, 0);
        due := e.key !in probedAt || now - probedAt[e.key] >= if missed >= 3 then 300.0 else 30.0;
        if missed < 3 {
          return;
        }
      }
      alerts := [DeviceAlert(e.key, if e.queryable then NoResponse else Stale)];
    }

    method Scan(endpoints: seq<Endpoint>, now: Time) returns (probes: seq<Key>, alerts: seq<DeviceAlert>)
      modifies this
      ensures var f := Walked(old(Abs()), endpoints, now); Abs() == f.policy && alerts == f.alerts
      ensures probes == Probes(old(Abs()), endpoints, now)
    {
      Forget(KeysOf(endpoints));
      ghost var start := Abs();
      var due: seq<Key>;
      due, alerts := [], [];
      for i := 0 to |endpoints|
        invariant Findings(Abs(), due, alerts) == Walk(start, endpoints[..i], now)
      {
        assert endpoints[..i + 1][..i] == endpoints[..i];
        Notice(endpoints[i]);
        var isDue, found := Inspect(endpoints[i], now);
        if isDue {
          due := due + [endpoints[i].key];
        }
        alerts := alerts + found;
      }
      assert endpoints[..|endpoints|] == endpoints;
      probes := First4(Sorted(probedAt, due));
    }

    method RecordProbe(k: Key, success: Option<bool>, now: Time)
      modifies this
      ensures Abs() == Recorded(old(Abs()), k, success, now)
    {
      probedAt := probedAt[k := now];
      if success == Some(true) {
        known := known[k := now];
        failures := failures - {k};
      } else if success == Some(false) {
        failures := failures[k := Get(failures, k, 0) + 1];
      }
    }
  }
}
