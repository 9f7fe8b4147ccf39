/** Confirming how many channels a light group has before believing it. */
module LightTopology {
  import opened Wrappers

  const CONFIRMATION_FRAMES: nat := 2

  datatype Report = Report(subId: nat, channels: nat)

  datatype Seen = Seen(channels: nat, times: nat)

  /** The channel counts reported for one group, in order. */
  function CountsOf(history: seq<Report>, subId: nat): seq<nat> {
    if history == [] then []
    else
      var before := CountsOf(history[..|history| - 1], subId);
      var last := history[|history| - 1];
      if last.subId == subId then before + [last.channels] else before
  }

  /** The last count reported twice in a row. */
  function Stable(counts: seq<nat>): Option<nat> {
    if |counts| < 2 then None
    else if counts[|counts| - 1] == counts[|counts| - 2] then Some(counts[|counts| - 1])
    else Stable(counts[..|counts| - 1])
  }

  /** The newest count while it is still waiting for its confirmation. */
  function Unconfirmed(counts: seq<nat>): Option<Seen> {
    if counts == [] || Stable(counts) == Some(counts[|counts| - 1]) then None else Some(Seen(counts[|counts| - 1], 1))
  }

  class LightTopologyTracker {
    var confirmed: map<nat, nat>
    var pending: map<nat, Seen>
    ghost var history: seq<Report>

    ghost predicate Valid()
      reads this
    {
      Tracks(confirmed, pending, history)
    }

    constructor ()
      ensures Valid() && history == []
    {
      confirmed, pending, history := map[], map[], [];
    }

    /** A report is believed exactly when its count is now the stable one of its group. */
    method Observe(r: Report) returns (channels: Option<nat>)
      requires Valid()
      modifies this
      ensures Valid() && history == old(history) + [r]
      ensures channels == if Stable(CountsOf(history, r.subId)) == Some(r.channels) then Some(r.channels) else None
    {
      ghost var before := history;
      history := history + [r];
      Extended(confirmed, pending, before, r);
      if r.subId in confirmed && confirmed[r.subId] == r.channels {
        assert confirmed[r.subId := r.channels] == confirmed;
        pending := pending - {r.subId};
        return Some(r.channels);
      }
      var seen := if r.subId in pending then pending[r.subId] else Seen(r.channels, 0);
      if seen.channels != r.channels {
        seen := Seen(r.channels, 0);
      }
      seen := Seen(seen.channels, seen.times + 1);
      if seen.times < CONFIRMATION_FRAMES {
        pending := pending[r.subId := seen];
        return None;
      }
      confirmed := confirmed[r.subId := r.channels];
      pending := pending - {r.subId};
      return Some(r.channels);
    }
  }

  /** The two dictionaries say, for each group, which count is stable and which one is waiting. */
  ghost predicate Tracks(confirmed: map<nat, nat>, pending: map<nat, Seen>, history: seq<Report>) {
    forall id: nat ::
      && Lookup(confirmed, id) == Stable(CountsOf(history, id))
      && Lookup(pending, id) == Unconfirmed(CountsOf(history, id))
  }

  /** A report becomes stable when it repeats its group's last one or agrees with the count that is stable;
      otherwise it waits. */
  lemma Extended(confirmed: map<nat, nat>, pending: map<nat, Seen>, history: seq<Report>, r: Report)
    requires Tracks(confirmed, pending, history)
    ensures Stable(CountsOf(history + [r], r.subId)) == Some(r.channels) <==>
      || (r.subId in confirmed && confirmed[r.subId] == r.channels)
      || (r.subId in pending && pending[r.subId] == Seen(r.channels, 1))
    ensures r.subId in pending ==> pending[r.subId].times == 1
    ensures if Stable(CountsOf(history + [r], r.subId)) == Some(r.channels)
            then Tracks(confirmed[r.subId := r.channels], pending - {r.subId}, history + [r])
            else Tracks(confirmed, pending[r.subId := Seen(r.channels, 1)], history + [r])
  {
    Extend(history, r);
    var counts := CountsOf(history, r.subId);
    assert Lookup(confirmed, r.subId) == Stable(counts) && Lookup(pending, r.subId) == Unconfirmed(counts);
  }

  function Lookup<V>(m: map<nat, V>, id: nat): Option<V> {
    if id in m then Some(m[id]) else None
  }

  lemma Extend(history: seq<Report>, r: Report)
    ensures forall id: nat ::
      CountsOf(history + [r], id) == CountsOf(history, id) + (if id == r.subId then [r.channels] else [])
    ensures var counts := CountsOf(history, r.subId);
      Stable(counts + [r.channels])
      == if counts != [] && counts[|counts| - 1] == r.channels then Some(r.channels) else Stable(counts)
  {
    assert (history + [r])[..|history + [r]| - 1] == history;
    var counts := CountsOf(history, r.subId);
    assert (counts + [r.channels])[..|counts + [r.channels]| - 1] == counts;
  }

  /** A single stray report never changes what is believed: with `n` stable, a different count seen once between
      two reports of `n` is refused, and `n` is believed again at once. */
  lemma StrayReportIsIgnored(counts: seq<nat>, n: nat, stray: nat)
    requires Stable(counts) == Some(n) && stray != n && counts[|counts| - 1] == n
    ensures Stable(counts + [stray]) == Some(n) && Stable(counts + [stray, n]) == Some(n)
  {
    assert (counts + [stray])[..|counts|] == counts;
    assert (counts + [stray, n])[..|counts| + 1] == counts + [stray];
  }

  predicate NoPairAfter(counts: seq<nat>, i: nat) {
    forall j :: i < j < |counts| ==> counts[j] != counts[j - 1]
  }

  /** The stable count is the newest one that the group reported twice in a row. */
  lemma {:induction false} StableIsNewestPair(counts: seq<nat>)
    ensures Stable(counts).None? ==> NoPairAfter(counts, 0)
    ensures Stable(counts).Some? ==>
      exists i :: 0 < i < |counts| && counts[i] == counts[i - 1] == Stable(counts).value && NoPairAfter(counts, i)
    decreases |counts|
  {
    if |counts| >= 2 {
      var before := counts[..|counts| - 1];
      if counts[|counts| - 1] != counts[|counts| - 2] {
        StableIsNewestPair(before);
        assert forall i :: 0 <= i < |before| ==> before[i] == counts[i];
      }
    }
  }
}
