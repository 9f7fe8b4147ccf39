/** The guarded registry: devices are inserted tentatively, put before the guard, and rolled back unless
    admitted. */
module GuardedRegistry {
  import opened Bytes
  import opened Wrappers
  import opened Evidence
  import opened GuardState
  import opened Guard
  import opened Registry
  import opened GuardedState

  datatype Change = Change(key: Key, isNew: bool)

  /** A frame either reports its changes or raises in the middle, with what it entered still there. */
  datatype Outcome = Changes(changes: seq<Change>) | Aborted

  class GuardedDevices {
    var devices: Devices
    const guard: DiscoveryGuard

    ghost predicate Valid()
      reads this, guard, guard.evidence
    {
      guard.Valid()
    }

    constructor (guard: DiscoveryGuard)
      ensures this.guard == guard && devices == map[]
    {
      this.guard := guard;
      devices := map[];
    }

    /** Inserts or updates one device after the other. */
    method ApplyUpdates(updates: seq<Update>) returns (changes: seq<Change>)
      modifies this
      ensures devices == Apply(old(devices), updates)
      ensures |changes| == |updates|
      ensures forall i :: 0 <= i < |changes| ==> changes[i].key == updates[i].key
      ensures forall c :: c in changes ==> c.key in devices && (c.isNew ==> c.key !in old(devices))
      ensures forall k :: k in devices && k !in old(devices) ==> Change(k, true) in changes
    {
      changes := [];
      for i := 0 to |updates|
        invariant Apply(devices, updates[i..]) == Apply(old(devices), updates)
        invariant |changes| == i && forall j :: 0 <= j < i ==> changes[j].key == updates[j].key
        invariant forall k :: k in old(devices) ==> k in devices
        invariant forall c :: c in changes ==> c.key in devices && (c.isNew ==> c.key !in old(devices))
        invariant forall k :: k in devices && k !in old(devices) ==> Change(k, true) in changes
      {
        assert updates[i..][0] == updates[i] && updates[i..][1..] == updates[i + 1..];
        var isNew := updates[i].key !in devices;
        var change := Change(updates[i].key, isNew);
        changes := changes + [change];
        devices := devices[updates[i].key := Updated(devices, updates[i])];
        assert isNew ==> changes[i] == Change(updates[i].key, true);
      }
    }

    method RestoreFromKey(addr: byte, subId: byte, channel: Option<nat>, zones: seq<nat>)
      modifies this
      ensures devices == RestoreDevice(old(devices), addr, subId, channel, zones)
    {
      devices := RestoreDevice(devices, addr, subId, channel, zones);
    }

    /** Takes new devices out again and gives registered thermostats back only zones they had. */
    method RollBack(newKeys: set<Key>, before: Devices)
      requires newKeys == devices.Keys - before.Keys && before.Keys <= devices.Keys
      modifies this
      ensures devices == RolledBack(before, old(devices))
    {
      devices := devices - newKeys;
      var climates := set k | k in devices && IsClimate(k);
      var left := climates;
      while left != {}
        invariant left <= climates && devices.Keys == before.Keys
        invariant forall k :: k in devices ==>
                    devices[k] == (if k in climates - left
                                   then old(devices)[k].(zones := Known(old(devices)[k].zones, before[k].zones))
                                   else old(devices)[k])
        decreases left
      {
        var k :| k in left;
        devices := devices[k := devices[k].(zones := Known(devices[k].zones, before[k].zones))];
        left := left - {k};
      }
    }

    /** Puts a proposal before the guard, or notes why it may not be put. */
    method AskGuard(before: Devices, p: Packet, now: Time, linkHealthy: bool, ghost g: GuardState.Guard)
      returns (answer: Answer)
      requires Valid() && Examined(before, p) && guard.Abs() == Listening(g, p)
      modifies guard, guard.evidence
      ensures Valid()
      ensures answer == Asked(before, g, p, now, linkHealthy)
      ensures guard.Abs() == GuardAfter(before, g, p, now, linkHealthy)
    {
      var observation := Proposal(before, p);
      answer := No;
      if ValidResponsePayload(p.addr, p.cmd, p.payload) {
        answer := guard.ObserveFrame(observation, now, linkHealthy);
      } else if observation.keys != {} {
        var raised := guard.Record(observation, InvalidCandidatePayload, now);
        answer := if raised then Raised else No;
      }
    }

    method UpsertFromFrame(p: Packet, now: Time, linkHealthy: bool) returns (outcome: Outcome)
      requires Valid()
      modifies this, guard, guard.evidence
      ensures Valid()
      ensures devices == DevicesAfter(old(devices), old(guard.Abs()), p, now, linkHealthy)
      ensures guard.Abs() == GuardAfter(old(devices), old(guard.Abs()), p, now, linkHealthy)
      ensures outcome.Aborted? <==> Raises(old(devices), old(guard.Abs()), p, now, linkHealthy)
      ensures outcome.Changes? ==>
                forall c :: c in outcome.changes && c.isNew ==> c.key in devices && c.key !in old(devices)
      ensures outcome.Changes? ==> ReportsOf(outcome.changes, Named(Updates(old(devices), p)), old(devices).Keys)
    {
      ghost var g := guard.Abs();
      var before := devices;
      guard.evidence.Observe(p.raw);
      var changes := ApplyUpdates(Updates(devices, p));
      ChangesName(Updates(before, p), changes);
      KeptReports(changes, Named(Updates(before, p)), before.Keys);
      if Oversized(p) {
        return Aborted;
      }
      var newKeys := set c | c in changes && c.isNew :: c.key;
      NewKeysOf(before, devices, changes);
      var newZones := NewZones(before, devices);
      ghost var proposal := Proposal(before, p);
      assert proposal.keys == newKeys + newZones;
      if changes != [] && (newKeys != {} || newZones != {} || IsStatus(p)) {
        var answer := AskGuard(before, p, now, linkHealthy, g);
        if answer == Raised {
          return Aborted;
        }
        if answer == No {
          RollBack(newKeys, before);
          changes := Kept(changes);
        }
      }
      return Changes(changes);
    }
  }

  function KeysIn(changes: seq<Change>): set<Key> {
    set c | c in changes :: c.key
  }

  /** The changes are about named devices, and about all of them that were registered. */
  ghost predicate ReportsOf(changes: seq<Change>, named: set<Key>, registered: set<Key>) {
    named * registered <= KeysIn(changes) <= named
  }

  /** The changes report the keys that the updates name. */
  lemma ChangesName(updates: seq<Update>, changes: seq<Change>)
    requires |changes| == |updates| && forall i :: 0 <= i < |changes| ==> changes[i].key == updates[i].key
    ensures KeysIn(changes) == Named(updates)
  {
    forall k | k in KeysIn(changes) ensures k in Named(updates) {
      var c :| c in changes && c.key == k;
      var i :| 0 <= i < |changes| && changes[i] == c;
      assert updates[i] in updates;
    }
    forall k | k in Named(updates) ensures k in KeysIn(changes) {
      var u :| u in updates && u.key == k;
      var i :| 0 <= i < |updates| && updates[i] == u;
      assert changes[i] in changes;
    }
  }

  lemma KeptReports(changes: seq<Change>, named: set<Key>, registered: set<Key>)
    requires KeysIn(changes) == named && forall c :: c in changes && c.isNew ==> c.key !in registered
    ensures ReportsOf(changes, named, registered) && ReportsOf(Kept(changes), named, registered)
  {
    forall k | k in named * registered ensures k in KeysIn(Kept(changes)) {
      var c :| c in changes && c.key == k;
      assert c in Kept(changes);
    }
  }

  lemma NewKeysOf(before: Devices, after: Devices, changes: seq<Change>)
    requires forall c :: c in changes ==> c.key in after && (c.isNew ==> c.key !in before)
    requires forall k :: k in after && k !in before ==> Change(k, true) in changes
    ensures (set c | c in changes && c.isNew :: c.key) == after.Keys - before.Keys
  {
  }

  /** The changes of devices that were registered already. */
  function Kept(changes: seq<Change>): (kept: seq<Change>)
    ensures forall c :: c in kept <==> c in changes && !c.isNew
  {
    if changes == [] then []
    else (if changes[0].isNew then [] else [changes[0]]) + Kept(changes[1..])
  }
}
