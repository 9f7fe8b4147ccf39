/** The admission guard: dictionaries updated in place, proved against the state machine. */
module Guard {
  import opened Bytes
  import opened Wrappers
  import opened Dicts
  import opened Evidence
  import opened GuardState

  class DiscoveryGuard {
    const evidence: DiscoveryEvidence
    var pending: Dict<Endpoint, Candidate>
    var blockedUntil: Dict<Endpoint, Time>
    var verificationEnabled: bool

    ghost function Abs(): GuardState.Guard
      reads this, evidence
    {
      GuardState.Guard(evidence.Abs(), pending, blockedUntil, verificationEnabled)
    }

    ghost predicate Valid()
      reads this, evidence
    {
      && Complete(pending) && Bounded(evidence.Abs())
    }

    constructor ()
      ensures Valid() && fresh(evidence)
      ensures Abs() == GuardState.Guard(Log([], [], 0), Dict([], map[]), Dict([], map[]), true)
    {
      evidence := new DiscoveryEvidence();
      pending, blockedUntil, verificationEnabled := Dict([], map[]), Dict([], map[]), true;
    }

    /** Makes an event and records it, or raises. */
    method Record(o: Observation, action: Action, now: Time) returns (raised: bool)
      requires Valid()
      modifies evidence
      ensures Valid() && raised == !Recordable(o)
      ensures Abs() == if Recordable(o) then Note(old(Abs()), o, action, now) else old(Abs())
    {
      var event := MakeEvent(now, o.endpoint, action, o.keys, o.raw);
      if event.None? {
        return true;
      }
      evidence.Record(event.value, now);
      return false;
    }

    method Discard(endpoint: Endpoint, reason: Action, now: Time) returns (raised: bool)
      requires Valid() && endpoint in pending.m
      modifies this, evidence
      ensures Valid() && Abs() == Discarded(old(Abs()), endpoint, reason, now)
      ensures raised == !Recordable(old(pending).m[endpoint].observation)
    {
      var candidate := pending.m[endpoint];
      PopIsComplete(pending, endpoint);
      pending := Pop(pending, endpoint);
      raised := Record(candidate.observation, reason, now);
      if raised {
        return;
      }
      Block(endpoint, now + BLOCK_TTL);
    }

    /** A full table makes room by giving up the block that ends first. */
    method Block(endpoint: Endpoint, until: Time)
      modifies this
      ensures Abs() == old(Abs()).(blocked := Blocked(old(blockedUntil), endpoint, until))
    {
      if |blockedUntil.m| >= MAX_CANDIDATES {
        var oldest := Oldest(blockedUntil.order, blockedUntil.m);
        if oldest.Some? {
          blockedUntil := Pop(blockedUntil, oldest.value);
        }
      }
      blockedUntil := Put(blockedUntil, endpoint, until);
    }

    method Expire(now: Time) returns (raised: bool)
      requires Valid()
      modifies this, evidence
      ensures Valid() && (Abs(), raised) == Expired(old(Abs()), now)
    {
      Unblock(now);
      raised := DropStale(now);
      if !raised {
        evidence.Prune(now);
      }
    }

    /** Blocks that have run out. */
    method Unblock(now: Time)
      requires Valid()
      modifies this, evidence
      ensures Valid() && Abs() == UnblockDue(old(Abs()), old(blockedUntil).order, now)
    {
      var blocked := blockedUntil.order;
      for i := 0 to |blocked|
        invariant Valid()
        invariant UnblockDue(Abs(), blocked[i..], now) == UnblockDue(old(Abs()), blocked, now)
      {
        assert blocked[i..][0] == blocked[i] && blocked[i..][1..] == blocked[i + 1..];
        if blocked[i] in blockedUntil.m && blockedUntil.m[blocked[i]] <= now {
          blockedUntil := Pop(blockedUntil, blocked[i]);
          evidence.revision := evidence.revision + 1;
        }
      }
    }

    /** Candidates that have run out, up to one that raises. */
    method DropStale(now: Time) returns (raised: bool)
      requires Valid()
      modifies this, evidence
      ensures Valid() && (Abs(), raised) == DiscardStale(old(Abs()), old(pending).order, now)
    {
      var waiting := pending.order;
      for i := 0 to |waiting|
        invariant Valid()
        invariant DiscardStale(Abs(), waiting[i..], now) == DiscardStale(old(Abs()), waiting, now)
      {
        assert waiting[i..][0] == waiting[i] && waiting[i..][1..] == waiting[i + 1..];
        if waiting[i] in pending.m && Stale(pending.m[waiting[i]], now) {
          raised := Discard(waiting[i], CandidateExpired, now);
          if raised {
            return;
          }
        }
      }
      raised := false;
    }

    method ObserveFrame(o: Observation, now: Time, linkHealthy: bool) returns (answer: Answer)
      requires Valid()
      modifies this, evidence
      ensures Valid() && (Abs(), answer) == Observe(old(Abs()), o, now, linkHealthy)
    {
      var raised := Expire(now);
      if raised {
        return Raised;
      }
      answer := Judge(o, now, linkHealthy);
    }

    /** `observe`, once stale entries are gone. */
    method Judge(o: Observation, now: Time, linkHealthy: bool) returns (answer: Answer)
      requires Valid()
      modifies this, evidence
      ensures Valid() && (Abs(), answer) == Judged(old(Abs()), o, now, linkHealthy)
    {
      var endpoint := o.endpoint;
      if endpoint in blockedUntil.m {
        return No;
      }
      if o.keys == {} {
        answer := Disappear(o, now);
        return;
      }
      if endpoint !in pending.m || pending.m[endpoint].observation.keys != o.keys {
        var known := endpoint in pending.m;
        if known {
          var raised := Record(pending.m[endpoint].observation, TopologyChanged, now);
          if raised {
            return Raised;
          }
        }
        if |pending.m| >= MAX_CANDIDATES && !known {
          return No;
        }
        answer := Begin(o, now);
        return;
      }
      answer := Reobserve(o, now, linkHealthy);
    }

    /** The endpoint shows nothing new any more. */
    method Disappear(o: Observation, now: Time) returns (answer: Answer)
      requires Valid()
      modifies this, evidence
      ensures Valid() && (Abs(), answer) == Disappeared(old(Abs()), o, now)
    {
      if o.endpoint in pending.m {
        var raised := Record(pending.m[o.endpoint].observation, TopologyDisappeared, now);
        if raised {
          return Raised;
        }
        PopIsComplete(pending, o.endpoint);
        pending := Pop(pending, o.endpoint);
      }
      return Yes;
    }

    method Begin(o: Observation, now: Time) returns (answer: Answer)
      requires Valid()
      modifies this, evidence
      ensures Valid() && (Abs(), answer) == Begun(old(Abs()), o, now)
    {
      pending := Put(pending, o.endpoint, Candidate(o, now, now, now, 1, 0, None, false));
      var raised := Record(o, CandidateObserved, now);
      return if raised then Raised else No;
    }

    /** The last part of `observe`: one more observation of a candidate whose keys have not changed. */
    method Reobserve(o: Observation, now: Time, linkHealthy: bool) returns (answer: Answer)
      requires Valid() && o.endpoint in pending.m
      modifies this, evidence
      ensures Valid() && (Abs(), answer) == SeenAgain(old(Abs()), o, now, linkHealthy)
    {
      var previous := pending.m[o.endpoint];
      var spaced := now - previous.counted >= MIN_SPACING;
      var candidate := previous.(
        observation := o, last := now,
        counted := if spaced then now else previous.counted,
        count := previous.count + if spaced then 1 else 0);
      pending := Put(pending, o.endpoint, candidate);
      if spaced {
        var raised := Record(o, CandidateObserved, now);
        if raised {
          return Raised;
        }
      }
      var stable := candidate.count >= MIN_OBSERVATIONS && now - candidate.first >= MIN_SPAN;
      if stable && candidate.approved && verificationEnabled && linkHealthy {
        var raised := Record(o, AdmittedByUser, now);
        if raised {
          return Raised;
        }
        PopIsComplete(pending, o.endpoint);
        pending := Pop(pending, o.endpoint);
        return Yes;
      }
      return No;
    }

    method ProbeResult(o: Observation, success: bool, now: Time) returns (raised: bool)
      requires Valid()
      modifies this, evidence
      ensures Valid() && (Abs(), raised) == RecordProbe(old(Abs()), o, success, now)
    {
      if o.endpoint !in pending.m || pending.m[o.endpoint].observation.keys != o.keys {
        return false;
      }
      var candidate := pending.m[o.endpoint];
      if candidate.lastProbe.Some? && now - candidate.lastProbe.value < MIN_SPACING {
        return false;
      }
      var probed := candidate.(lastProbe := Some(now), probes := if success then candidate.probes + 1 else 0);
      pending := Put(pending, o.endpoint, probed);
      raised := Record(o, if success then ProbeMatched else ProbeUnconfirmed, now);
    }

    method ReviewEndpoint(endpoint: Endpoint, approve: bool, now: Time) returns (answer: Answer)
      requires Valid()
      modifies this, evidence
      ensures Valid() && (Abs(), answer) == Review(old(Abs()), endpoint, approve, now)
    {
      var raised := Expire(now);
      if raised {
        return Raised;
      }
      if endpoint !in pending.m {
        if approve && endpoint in blockedUntil.m {
          blockedUntil := Pop(blockedUntil, endpoint);
          raised := Record(Observation(endpoint, {}, [], false), UserUnblocked, now);
          return Yes;
        }
        return No;
      }
      if approve {
        var candidate := pending.m[endpoint];
        pending := Put(pending, endpoint, candidate.(approved := true));
        raised := Record(candidate.observation, UserApproved, now);
      } else {
        raised := Discard(endpoint, UserRejected, now);
      }
      return if raised then Raised else Yes;
    }

    method TakeSnapshot(now: Time) returns (snapshot: Option<Snapshot>)
      requires Valid()
      modifies this, evidence
      ensures Valid() && Abs() == Expired(old(Abs()), now).0
      ensures snapshot == if Expired(old(Abs()), now).1 then None else Some(SnapshotOf(Abs()))
    {
      var raised := Expire(now);
      return if raised then None else Some(Snapshot(evidence.events, blockedUntil.m));
    }

    method RestoreSnapshot(events: seq<Event>, stored: Dict<Endpoint, Time>, now: Time)
      requires Valid() && |events| <= MAX_EVENTS
      modifies this, evidence
      ensures Valid() && Abs() == GuardState.Restore(old(Abs()), events, stored, now)
    {
      evidence.Restore(events, now);
      var inForce: Dict<Endpoint, Time> := Dict([], map[]);
      var i := |stored.order|;
      while i > 0
        invariant 0 <= i <= |stored.order|
        invariant inForce == InForce(stored.order[i..], stored.m, now)
        invariant pending == old(pending) && verificationEnabled == old(verificationEnabled)
        invariant evidence.Abs() == Pruned(old(evidence.Abs()).(events := events), now)
        invariant Bounded(evidence.Abs())
      {
        i := i - 1;
        var k := stored.order[i];
        assert stored.order[i..][1..] == stored.order[i + 1..];
        if k in stored.m && now < stored.m[k] <= now + BLOCK_TTL {
          inForce := Dict([k] + inForce.order, inForce.m[k := stored.m[k]]);
        }
      }
      assert stored.order[0..] == stored.order;
      blockedUntil := inForce;
    }
  }
}
