/** The hub's recovery ladder: reconnect, and only then a power cycle. */
module HubPolicy {
  import opened Wrappers

  type Time = real

  datatype Action = Nothing | Reconnect | PowerCycle

  datatype Reading = Reading(now: Time, linkFailed: bool, failedEndpoints: nat, responders: nat, powerEnabled: bool)

  datatype Policy = Policy(
    badSince: Option<Time>, reconnectedAt: Option<Time>, lastReconnect: Option<Time>, powerAttempted: bool)

  predicate Bad(r: Reading) {
    r.linkFailed || r.failedEndpoints >= 2
  }

  class HubRecoveryPolicy {
    var badSince: Option<Time>
    var reconnectedAt: Option<Time>
    var lastReconnect: Option<Time>
    var powerAttempted: bool

    ghost function Abs(): Policy
      reads this
    {
      Policy(badSince, reconnectedAt, lastReconnect, powerAttempted)
    }

    constructor ()
      ensures Abs() == After([])
    {
      badSince, reconnectedAt, lastReconnect, powerAttempted := None, None, None, false;
    }

    method Act(r: Reading) returns (action: Action)
      modifies this
      ensures (Abs(), action) == Acted(old(Abs()), r)
    {
      if !Bad(r) {
        badSince, reconnectedAt, powerAttempted := None, None, false;
        return Nothing;
      }
      if badSince.None? {
        badSince := Some(r.now);
      }
      if r.now - badSince.value < 30.0 {
        return Nothing;
      }
      if reconnectedAt.None? {
        if lastReconnect.Some? && r.now - lastReconnect.value < 300.0 {
          return Nothing;
        }
        lastReconnect, reconnectedAt := Some(r.now), Some(r.now);
        return Reconnect;
      }
      if r.now - reconnectedAt.value < 120.0 {
        return Nothing;
      }
      if r.responders == 0 && r.powerEnabled && !powerAttempted {
        powerAttempted := true;
        return PowerCycle;
      }
      return Nothing;
    }
  }

  /** One call, as a function of the policy and the reading. */
  function Acted(p: Policy, r: Reading): (Policy, Action) {
    if !Bad(r) then (Policy(None, None, p.lastReconnect, false), Nothing)
    else
      var since := if p.badSince.Some? then p.badSince.value else r.now;
      var q := p.(badSince := Some(since));
      if r.now - since < 30.0 then (q, Nothing)
      else if p.reconnectedAt.None? then
        if p.lastReconnect.Some? && r.now - p.lastReconnect.value < 300.0 then (q, Nothing)
        else (q.(lastReconnect := Some(r.now), reconnectedAt := Some(r.now)), Reconnect)
      else if r.now - p.reconnectedAt.value >= 120.0 && r.responders == 0 && r.powerEnabled && !p.powerAttempted
      then (q.(powerAttempted := true), PowerCycle)
      else (q, Nothing)
  }

  function After(run: seq<Reading>): Policy {
    if run == [] then Policy(None, None, None, false) else Acted(After(run[..|run| - 1]), run[|run| - 1]).0
  }

  /** What the policy asks for at reading `i`. */
  function ActionAt(run: seq<Reading>, i: nat): Action
    requires i < |run|
  {
    Acted(After(run[..i]), run[i]).1
  }

  /** Where the present incident, an unbroken series of bad readings, began; the run's length if there is none. */
  function IncidentFrom(run: seq<Reading>): (i: nat)
    ensures i <= |run|
    decreases |run|
  {
    if run == [] then 0 else if Bad(run[|run| - 1]) then IncidentFrom(run[..|run| - 1]) else |run|
  }

  /** The last reading at which the policy asked for `a`, or -1. */
  function LastAt(run: seq<Reading>, a: Action): (i: int)
    ensures -1 <= i < |run|
    decreases |run|
  {
    if run == [] then -1
    else if ActionAt(run, |run| - 1) == a then |run| - 1
    else LastAt(run[..|run| - 1], a)
  }

  function TimeAt(run: seq<Reading>, i: int): Option<Time>
    requires i < |run|
  {
    if i < 0 then None else Some(run[i].now)
  }

  /** The policy's fields are these functions of the run so far. */
  lemma {:induction false} Remembered(run: seq<Reading>)
    ensures var (p, from) := (After(run), IncidentFrom(run));
      && p.badSince == (if from < |run| then Some(run[from].now) else None)
      && p.lastReconnect == TimeAt(run, LastAt(run, Reconnect))
      && p.reconnectedAt == (if LastAt(run, Reconnect) >= from then p.lastReconnect else None)
      && p.powerAttempted == (LastAt(run, PowerCycle) >= from)
    decreases |run|
  {
    if run != [] {
      Remembered(run[..|run| - 1]);
    }
  }

  lemma {:induction false} IncidentIsUnbroken(run: seq<Reading>, k: nat)
    requires IncidentFrom(run) <= k < |run|
    ensures Bad(run[k])
    decreases |run|
  {
    if k < |run| - 1 { IncidentIsUnbroken(run[..|run| - 1], k); }
  }

  lemma {:induction false} IncidentBeginsAfterGood(run: seq<Reading>)
    ensures IncidentFrom(run) > 0 ==> !Bad(run[IncidentFrom(run) - 1])
    decreases |run|
  {
    if run != [] { IncidentBeginsAfterGood(run[..|run| - 1]); }
  }

  lemma {:induction false} LastIsLast(run: seq<Reading>, a: Action, i: nat)
    requires i < |run| && ActionAt(run, i) == a
    ensures i <= LastAt(run, a) && ActionAt(run, LastAt(run, a)) == a
    decreases |run|
  {
    var before := run[..|run| - 1];
    if ActionAt(run, |run| - 1) != a {
      assert before[..i] == run[..i];
      LastIsLast(before, a, i);
      assert before[..LastAt(before, a)] == run[..LastAt(before, a)];
    }
  }

  predicate Forwards(run: seq<Reading>) {
    forall i, j :: 0 <= i < j < |run| ==> run[i].now <= run[j].now
  }

  /** When the policy acts, and on what: a reconnect once per incident, half a minute into it and five minutes
      after the last; a power cycle once per incident, two minutes after its reconnect, when nobody answers. */
  lemma ActsExactly(run: seq<Reading>)
    requires run != []
    ensures var (n, from) := (|run| - 1, IncidentFrom(run));
      var (r, before) := (run[n], run[..n]);
      var (reconnect, cycle) := (LastAt(before, Reconnect), LastAt(before, PowerCycle));
      && (ActionAt(run, n) == Reconnect <==>
            && from <= n && r.now - run[from].now >= 30.0
            && reconnect < from && (reconnect >= 0 ==> r.now - run[reconnect].now >= 300.0))
      && (ActionAt(run, n) == PowerCycle <==>
            && from <= n && r.now - run[from].now >= 30.0
            && reconnect >= from && r.now - run[reconnect].now >= 120.0
            && cycle < from && r.responders == 0 && r.powerEnabled)
  {
    Remembered(run[..|run| - 1]);
  }

  /** The same, for any reading of the run. */
  lemma ActsAt(run: seq<Reading>, j: nat)
    requires j < |run| && ActionAt(run, j) != Nothing
    ensures var (from, before) := (IncidentFrom(run[..j + 1]), run[..j]);
      && from <= j && LastAt(before, ActionAt(run, j)) < from
      && (ActionAt(run, j) == Reconnect && LastAt(before, Reconnect) >= 0 ==>
            run[j].now - run[LastAt(before, Reconnect)].now >= 300.0)
  {
    var upTo := run[..j + 1];
    assert upTo[..j] == run[..j];
    ActsExactly(upTo);
  }

  lemma LastBefore(run: seq<Reading>, a: Action, i: nat, j: nat)
    requires i < j <= |run| && ActionAt(run, i) == a
    ensures i <= LastAt(run[..j], a) && ActionAt(run, LastAt(run[..j], a)) == a
  {
    assert run[..j][..i] == run[..i];
    LastIsLast(run[..j], a, i);
    assert run[..j][..LastAt(run[..j], a)] == run[..LastAt(run[..j], a)];
  }

  /** Reconnects are at least five minutes apart. */
  lemma {:induction false} ReconnectsApart(run: seq<Reading>, i: nat, j: nat)
    requires i < j < |run| && ActionAt(run, i) == Reconnect && ActionAt(run, j) == Reconnect
    ensures run[j].now - run[i].now >= 300.0
    decreases j
  {
    ActsAt(run, j);
    LastBefore(run, Reconnect, i, j);
    var last := LastAt(run[..j], Reconnect);
    if i < last { ReconnectsApart(run, i, last); }
  }

  /** The present incident, seen from a later reading of it, began after an action of the last one. */
  lemma ActsOncePerIncident(run: seq<Reading>, a: Action, i: nat, j: nat) returns (k: nat)
    requires i < j < |run| && ActionAt(run, i) == a && ActionAt(run, j) == a && a != Nothing
    ensures i < k < j && !Bad(run[k]) && k == IncidentFrom(run[..j + 1]) - 1
  {
    ActsAt(run, j);
    LastBefore(run, a, i, j);
    IncidentBeginsAfterGood(run[..j + 1]);
    k := IncidentFrom(run[..j + 1]) - 1;
    assert Bad(run[i]);
  }

  /** A power cycle comes two minutes after a reconnect of the same incident. */
  lemma ReconnectComesFirst(run: seq<Reading>, j: nat) returns (m: nat)
    requires j < |run| && ActionAt(run, j) == PowerCycle
    ensures m < j && ActionAt(run, m) == Reconnect && run[j].now - run[m].now >= 120.0
    ensures IncidentFrom(run[..j + 1]) <= m && forall k :: m <= k <= j ==> Bad(run[k])
  {
    var upTo := run[..j + 1];
    assert upTo[..j] == run[..j];
    ActsExactly(upTo);
    m := LastAt(run[..j], Reconnect);
    LastExists(run[..j], Reconnect);
    assert run[..j][..m] == run[..m];
    forall k | m <= k <= j ensures Bad(run[k]) { IncidentIsUnbroken(upTo, k); }
  }

  lemma {:induction false} LastExists(run: seq<Reading>, a: Action)
    ensures LastAt(run, a) >= 0 ==> ActionAt(run, LastAt(run, a)) == a
    decreases |run|
  {
    if run != [] && ActionAt(run, |run| - 1) != a {
      LastExists(run[..|run| - 1], a);
      var last := LastAt(run[..|run| - 1], a);
      if last >= 0 { assert run[..|run| - 1][..last] == run[..last]; }
    }
  }

  lemma {:induction false} IncidentStays(run: seq<Reading>, m: nat)
    requires IncidentFrom(run) <= m < |run|
    ensures IncidentFrom(run[..m + 1]) == IncidentFrom(run)
    decreases |run|
  {
    if m + 1 < |run| {
      assert run[..|run| - 1][..m + 1] == run[..m + 1];
      IncidentStays(run[..|run| - 1], m);
    } else {
      assert run[..m + 1] == run;
    }
  }

  /** When time does not run backwards, power cycles are at least 150 seconds apart. */
  lemma PowerCyclesApart(run: seq<Reading>, i: nat, j: nat)
    requires Forwards(run) && i < j < |run| && ActionAt(run, i) == PowerCycle && ActionAt(run, j) == PowerCycle
    ensures run[j].now - run[i].now >= 150.0
  {
    var k := ActsOncePerIncident(run, PowerCycle, i, j);
    var m := ReconnectComesFirst(run, j);
    var upTo := run[..m + 1];
    assert upTo[..m] == run[..m] && run[..j + 1][..m + 1] == upTo;
    IncidentStays(run[..j + 1], m);
    ActsExactly(upTo);
  }

  /** Where the present incident began, over the readings themselves: from there on every reading shows a failed link
      or two failed endpoints, and the one before, if any, shows neither. */
  lemma IncidentExactly(run: seq<Reading>, i: nat)
    requires i <= |run|
    ensures IncidentFrom(run) == i <==>
      && (forall k :: i <= k < |run| ==> run[k].linkFailed || run[k].failedEndpoints >= 2)
      && (i > 0 ==> !run[i - 1].linkFailed && run[i - 1].failedEndpoints <= 1)
  {
    var from := IncidentFrom(run);
    forall k | from <= k < |run| ensures Bad(run[k]) { IncidentIsUnbroken(run, k); }
    IncidentBeginsAfterGood(run);
    if from < i { assert Bad(run[i - 1]); }
  }

  /** With a healthy link and at most one failed endpoint nothing is done, and the incident is over. */
  lemma HealthyEndsIncident(run: seq<Reading>)
    requires run != [] && !run[|run| - 1].linkFailed && run[|run| - 1].failedEndpoints <= 1
    ensures ActionAt(run, |run| - 1) == Nothing && IncidentFrom(run) == |run|
  {
  }
}
