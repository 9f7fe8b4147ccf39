/** What the guard writes down: every decision ends the evidence log with its own event. */
module GuardRecords {
  import opened Bytes
  import opened Wrappers
  import opened Dicts
  import opened Evidence
  import opened GuardState

  /** The newest event is this one. */
  predicate Says(g: Guard, now: Time, action: Action, o: Observation) {
    && g.evidence.events != []
    && var e := g.evidence.events[|g.evidence.events| - 1];
       e.time == now && e.endpoint == o.endpoint && e.action == action && e.keys == o.keys && e.raw == o.raw
  }

  lemma NotedIsSaid(g: Guard, o: Observation, action: Action, now: Time)
    requires Recordable(o)
    ensures Says(Note(g, o, action, now), now, action, o)
  {
    RecordedIsLast(g.evidence, Event(now, o.endpoint, action, o.keys, o.raw, []), now);
  }

  /** The observation begins a candidate, or counts for one. */
  predicate NewlyCounted(g: Guard, o: Observation, now: Time) {
    && o.endpoint !in g.blocked.m && o.keys != {}
    && (o.endpoint in g.pending.m ==>
          g.pending.m[o.endpoint].counted != now || g.pending.m[o.endpoint].observation.keys != o.keys)
  }

  /** An admission, a new candidate, a counted observation and a topology that is gone are each written down. */
  lemma JudgedIsSaid(g: Guard, o: Observation, now: Time, linkHealthy: bool)
    ensures var (h, answer) := Judged(g, o, now, linkHealthy);
      && (answer == Yes && o.keys != {} ==> Says(h, now, AdmittedByUser, o))
      && (answer == Yes && o.keys == {} && o.endpoint in g.pending.m ==>
            Says(h, now, TopologyDisappeared, g.pending.m[o.endpoint].observation))
      && (answer == No && NewlyCounted(g, o, now) && o.endpoint in h.pending.m && h.pending.m[o.endpoint].counted == now ==>
            Says(h, now, CandidateObserved, o))
  {
    var e := o.endpoint;
    if e !in g.blocked.m {
      if o.keys == {} {
        if e in g.pending.m && Recordable(g.pending.m[e].observation) {
          NotedIsSaid(g, g.pending.m[e].observation, TopologyDisappeared, now);
        }
      } else if e in g.pending.m && g.pending.m[e].observation.keys == o.keys {
        SeenAgainIsSaid(g, o, now, linkHealthy);
      } else if e in g.pending.m {
        if Recordable(g.pending.m[e].observation) {
          BegunIsSaid(Note(g, g.pending.m[e].observation, TopologyChanged, now), o, now);
        }
      } else {
        BegunIsSaid(g, o, now);
      }
    }
  }

  lemma BegunIsSaid(g: Guard, o: Observation, now: Time)
    ensures var (h, answer) := Begun(g, o, now); answer == No ==> Says(h, now, CandidateObserved, o)
  {
    if Recordable(o) {
      NotedIsSaid(Begun(g, o, now).0.(evidence := g.evidence), o, CandidateObserved, now);
    }
  }

  lemma SeenAgainIsSaid(g: Guard, o: Observation, now: Time, linkHealthy: bool)
    requires o.endpoint in g.pending.m
    ensures var (h, answer) := SeenAgain(g, o, now, linkHealthy);
      && (answer == Yes ==> Says(h, now, AdmittedByUser, o))
      && (answer == No && Counts(g.pending.m[o.endpoint], now) ==> Says(h, now, CandidateObserved, o))
  {
    var c := Seen(g.pending.m[o.endpoint], o, now);
    var updated := g.(pending := Put(g.pending, o.endpoint, c));
    if Recordable(o) {
      NotedIsSaid(updated, o, CandidateObserved, now);
      NotedIsSaid(updated, o, AdmittedByUser, now);
      NotedIsSaid(Note(updated, o, CandidateObserved, now), o, AdmittedByUser, now);
    }
  }

  lemma DiscardIsSaid(g: Guard, e: Endpoint, reason: Action, now: Time)
    requires e in g.pending.m && Recordable(g.pending.m[e].observation)
    ensures Says(Discarded(g, e, reason, now), now, reason, g.pending.m[e].observation)
  {
    NotedIsSaid(g.(pending := Pop(g.pending, e)), g.pending.m[e].observation, reason, now);
  }

  /** A user's decision is written down with the keys it was about. */
  lemma ReviewIsSaid(g: Guard, e: Endpoint, approve: bool, now: Time)
    requires Review(g, e, approve, now).1 == Yes
    ensures var (h, before) := (Review(g, e, approve, now).0, Expired(g, now).0);
      if e in before.pending.m
      then Says(h, now, if approve then UserApproved else UserRejected, before.pending.m[e].observation)
      else approve && e in before.blocked.m && e !in h.blocked.m && Says(h, now, UserUnblocked, Observation(e, {}, [], false))
  {
    var before := Expired(g, now).0;
    if e in before.pending.m {
      var c := before.pending.m[e];
      if approve {
        NotedIsSaid(before.(pending := Put(before.pending, e, c.(approved := true))), c.observation, UserApproved, now);
      } else {
        DiscardIsSaid(before, e, UserRejected, now);
      }
    } else {
      NotedIsSaid(before.(blocked := Pop(before.blocked, e)), Observation(e, {}, [], false), UserUnblocked, now);
    }
  }

  /** So is every probe that counts, with its outcome. */
  lemma ProbeIsSaid(g: Guard, o: Observation, success: bool, now: Time)
    requires RecordProbe(g, o, success, now) != (g, false) && !RecordProbe(g, o, success, now).1
    ensures var h := RecordProbe(g, o, success, now).0;
      && Says(h, now, if success then ProbeMatched else ProbeUnconfirmed, o)
      && o.endpoint in h.pending.m && h.pending.m[o.endpoint].lastProbe == Some(now)
      && h.pending.m[o.endpoint].probes == if success then g.pending.m[o.endpoint].probes + 1 else 0
  {
    var h := RecordProbe(g, o, success, now).0;
    NotedIsSaid(h.(evidence := g.evidence), o, if success then ProbeMatched else ProbeUnconfirmed, now);
  }
}
