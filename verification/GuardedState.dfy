/** The registry behind the admission guard: tentative insertion, admission or rollback, as a function. */
module GuardedState {
  import opened Bytes
  import opened Wrappers
  import opened Dicts
  import opened Evidence
  import opened GuardState
  import opened Registry

  /** Conservative checks before a reply may serve as evidence. */
  predicate ValidResponsePayload(addr: byte, cmd: byte, payload: bytes) {
    && payload != []
    && (addr == GAS && cmd in {0x81, 0xC1} ==> |payload| == 2 && payload[1] < 0x20)
    && (addr == LIGHT && cmd in {0x81, 0xC1} ==>
          2 <= |payload| <= 15 && forall i :: 1 <= i < |payload| ==> LegalLightState(payload[i]))
  }

  /** Bits 2 and 3 are reserved, and a level needs the dimming bit. */
  predicate LegalLightState(state: byte) {
    state / 4 % 4 == 0 && (state < 16 || state / 2 % 2 == 1)
  }

  predicate IsClimate(k: Key) {
    k.DeviceKey? && k.addr == THERMOSTAT
  }

  function NewZones(before: Devices, after: Devices): set<Key>
    requires forall k :: k in before ==> k in after
  {
    set k, z | k in before && IsClimate(k) && z in after[k].zones && z !in before[k].zones :: ZoneKey(k, z)
  }

  function Known(zones: seq<nat>, before: seq<nat>): (kept: seq<nat>)
    ensures forall z :: z in kept <==> z in zones && z in before
  {
    if zones == [] then []
    else (if zones[0] in before then [zones[0]] else []) + Known(zones[1..], before)
  }

  /** New devices go, and new zones of registered thermostats; everything else stays updated. */
  function RolledBack(before: Devices, after: Devices): Devices
    requires forall k :: k in before ==> k in after
  {
    map k | k in before ::
      if IsClimate(k) then after[k].(zones := Known(after[k].zones, before[k].zones)) else after[k]
  }

  predicate IsStatus(p: Packet) {
    p.cmd == if p.addr == COMMON_ENTRANCE then 0x82 else 0x81
  }

  function Proposal(before: Devices, p: Packet): Observation {
    var after := Apply(before, Updates(before, p));
    Observation(Bus(p.addr, p.subId), (after.Keys - before.Keys) + NewZones(before, after), p.raw,
                IsStatus(p) && Low(p.subId) != 15)
  }

  /** The frame is put before the guard. */
  predicate Examined(before: Devices, p: Packet) {
    && !Oversized(p)
    && Updates(before, p) != []
    && (Proposal(before, p).keys != {} || IsStatus(p))
  }

  /** What the guard answers to a frame that is put before it. */
  function Asked(before: Devices, g: Guard, p: Packet, now: Time, linkHealthy: bool): Answer {
    if ValidResponsePayload(p.addr, p.cmd, p.payload)
    then Observe(Listening(g, p), Proposal(before, p), now, linkHealthy).1
    else if Recordable(Proposal(before, p)) then No
    else Raised
  }

  predicate Admitted(before: Devices, g: Guard, p: Packet, now: Time, linkHealthy: bool) {
    Examined(before, p) && Asked(before, g, p, now, linkHealthy) == Yes
  }

  /** The frame makes the registry raise, with everything it brought still entered: the decoder rejects it, or the
      guard cannot record what it has to. */
  predicate Raises(before: Devices, g: Guard, p: Packet, now: Time, linkHealthy: bool) {
    Oversized(p) || (Examined(before, p) && Asked(before, g, p, now, linkHealthy) == Raised)
  }

  function Listening(g: Guard, p: Packet): Guard {
    g.(evidence := Observed(g.evidence, p.raw))
  }

  function GuardAfter(before: Devices, g: Guard, p: Packet, now: Time, linkHealthy: bool): Guard {
    if !Examined(before, p) then Listening(g, p)
    else if ValidResponsePayload(p.addr, p.cmd, p.payload)
    then Observe(Listening(g, p), Proposal(before, p), now, linkHealthy).0
    else if Proposal(before, p).keys != {} && Recordable(Proposal(before, p))
    then Note(Listening(g, p), Proposal(before, p), InvalidCandidatePayload, now)
    else Listening(g, p)
  }

  function DevicesAfter(before: Devices, g: Guard, p: Packet, now: Time, linkHealthy: bool): Devices {
    var after := Apply(before, Updates(before, p));
    if Examined(before, p) && Asked(before, g, p, now, linkHealthy) == No then RolledBack(before, after) else after
  }

  /** A frame never removes a registered device. */
  lemma RegisteredStay(before: Devices, g: Guard, p: Packet, now: Time, linkHealthy: bool)
    ensures forall k :: k in before ==> k in DevicesAfter(before, g, p, now, linkHealthy)
  {
  }

  function Gained(before: Devices, after: Devices): set<Key>
    requires forall k :: k in before ==> k in after
  {
    (after.Keys - before.Keys) + NewZones(before, after)
  }

  /** The devices and zones that a frame has added in the end. */
  function Added(before: Devices, g: Guard, p: Packet, now: Time, linkHealthy: bool): set<Key> {
    Gained(before, DevicesAfter(before, g, p, now, linkHealthy))
  }

  lemma RollingBackGainsNothing(before: Devices, after: Devices)
    requires forall k :: k in before ==> k in after
    ensures Gained(before, RolledBack(before, after)) == {}
  {
    assert RolledBack(before, after).Keys == before.Keys;
  }

  /** A frame that is not put before the guard has nothing to propose, unless it raises. */
  lemma UnexaminedProposesNothing(before: Devices, p: Packet)
    requires !Examined(before, p) && !Oversized(p)
    ensures Gained(before, Apply(before, Updates(before, p))) == {}
  {
    if Updates(before, p) == [] {
      assert Apply(before, Updates(before, p)) == before;
    }
  }

  lemma ExaminedGains(before: Devices, g: Guard, p: Packet, now: Time, linkHealthy: bool)
    requires Examined(before, p)
    ensures Added(before, g, p, now, linkHealthy)
            == if Asked(before, g, p, now, linkHealthy) == No then {} else Proposal(before, p).keys
  {
    RollingBackGainsNothing(before, Apply(before, Updates(before, p)));
  }

  lemma UnexaminedGains(before: Devices, g: Guard, p: Packet, now: Time, linkHealthy: bool)
    requires !Examined(before, p)
    ensures Added(before, g, p, now, linkHealthy) == if Oversized(p) then Proposal(before, p).keys else {}
  {
    if !Oversized(p) { UnexaminedProposesNothing(before, p); }
  }

  /** All or nothing, for every frame: it adds exactly its proposals when it is admitted or makes the registry
      raise, and no device and no zone otherwise. */
  lemma OnlyAdmissionAdds(before: Devices, g: Guard, p: Packet, now: Time, linkHealthy: bool)
    ensures Added(before, g, p, now, linkHealthy)
            == if Admitted(before, g, p, now, linkHealthy) || Raises(before, g, p, now, linkHealthy)
               then Proposal(before, p).keys else {}
  {
    if Examined(before, p) {
      ExaminedGains(before, g, p, now, linkHealthy);
    } else {
      UnexaminedGains(before, g, p, now, linkHealthy);
    }
  }

  lemma RaisingIsNoAdmission(before: Devices, g: Guard, p: Packet, now: Time, linkHealthy: bool)
    requires Raises(before, g, p, now, linkHealthy)
    ensures !Admitted(before, g, p, now, linkHealthy)
  {
  }

  /** So something enters without admission exactly when the registry raises and the frame proposes it. */
  lemma EntersUnadmitted(before: Devices, g: Guard, p: Packet, now: Time, linkHealthy: bool, k: Key)
    ensures k in Added(before, g, p, now, linkHealthy) && !Admitted(before, g, p, now, linkHealthy)
            <==> Raises(before, g, p, now, linkHealthy) && k in Proposal(before, p).keys
  {
    OnlyAdmissionAdds(before, g, p, now, linkHealthy);
    if Raises(before, g, p, now, linkHealthy) { RaisingIsNoAdmission(before, g, p, now, linkHealthy); }
  }

  // ---- When does the registry raise? ----

  function Outlet(subId: byte, channel: nat): Key {
    DeviceKey(OUTLET, (16 * High(subId) + channel) % 256, None)
  }

  /** The keys that updates name. */
  function Named(updates: seq<Update>): set<Key> {
    set u | u in updates :: u.key
  }

  lemma ApplyNames(devices: Devices, updates: seq<Update>)
    ensures Apply(devices, updates).Keys == devices.Keys + Named(updates)
  {
    forall k | k in Named(updates) ensures k in Apply(devices, updates) {
      var u :| u in updates && u.key == k;
      var i :| 0 <= i < |updates| && updates[i] == u;
      assert updates[i].key == k;
    }
  }

  function OutletKeys(subId: byte, ch: nat, last: nat): set<Key> {
    set c | ch <= c <= last :: Outlet(subId, c)
  }

  lemma {:induction false} OutletsAre(subId: byte, ch: nat, last: nat)
    requires last <= 15
    ensures Named(Outlets(subId, ch, last)) == OutletKeys(subId, ch, last)
    ensures forall u :: u in Outlets(subId, ch, last) ==> u.zones.None?
    decreases last + 1 - ch
  {
    if ch <= last {
      var rest := Outlets(subId, ch + 1, last);
      var first := Plain(OUTLET, (16 * High(subId) + ch) % 256);
      OutletsAre(subId, ch + 1, last);
      NamedMore(first, rest);
      assert OutletKeys(subId, ch, last) == {Outlet(subId, ch)} + OutletKeys(subId, ch + 1, last);
    }
  }

  lemma NamedMore(first: Update, rest: seq<Update>)
    ensures Named([first] + rest) == {first.key} + Named(rest)
  {
    assert first in [first] + rest;
    assert forall u :: u in rest ==> u in [first] + rest;
  }

  lemma {:induction false} ApplyKeepsZones(devices: Devices, updates: seq<Update>)
    requires forall u :: u in updates ==> u.zones.None?
    ensures NewZones(devices, Apply(devices, updates)) == {}
    ensures forall k :: k in devices ==> Apply(devices, updates)[k].zones == devices[k].zones
    decreases |updates|
  {
    if updates != [] {
      assert updates[0] in updates;
      var next := devices[updates[0].key := Updated(devices, updates[0])];
      ApplyKeepsZones(next, updates[1..]);
      assert forall k :: k in devices ==> next[k].zones == devices[k].zones;
    }
  }

  lemma OversizedProposes(before: Devices, p: Packet)
    requires Oversized(p)
    ensures Proposal(before, p).keys == OutletKeys(p.subId, 1, 15) - before.Keys
  {
    OutletsAre(p.subId, 1, 15);
    assert Updates(before, p) == Outlets(p.subId, 1, 15);
    ApplyNames(before, Updates(before, p));
    ApplyKeepsZones(before, Updates(before, p));
  }

  /** An outlet group reply for fifteen or more channels enters, without admission, exactly those of its first
      fifteen outlets that are not registered. */
  lemma OversizedBypassesTheGuard(before: Devices, g: Guard, p: Packet, now: Time, linkHealthy: bool)
    requires Oversized(p)
    ensures !Admitted(before, g, p, now, linkHealthy)
    ensures Added(before, g, p, now, linkHealthy) == OutletKeys(p.subId, 1, 15) - before.Keys
  {
    OnlyAdmissionAdds(before, g, p, now, linkHealthy);
    OversizedProposes(before, p);
  }

  /** No candidate names more keys than an event may. */
  ghost predicate AllRecordable(g: Guard) {
    forall e :: e in g.pending.m ==> Recordable(g.pending.m[e].observation)
  }

  /** A guard without such a candidate raises exactly when it has to begin one. */
  lemma ObserveRaisesExactly(g: Guard, o: Observation, now: Time, linkHealthy: bool)
    requires Complete(g.pending) && AllRecordable(g)
    ensures var h := Expired(g, now).0;
      && (Observe(g, o, now, linkHealthy).1 == Raised <==>
            !Recordable(o) && o.endpoint !in h.blocked.m && (o.endpoint in h.pending.m || |h.pending.m| < MAX_CANDIDATES))
      && (Observe(g, o, now, linkHealthy).1 != Raised ==> AllRecordable(Observe(g, o, now, linkHealthy).0))
  {
    ExpireDrops(g, now);
    JudgedRaisesExactly(Expired(g, now).0, o, now, linkHealthy);
  }

  lemma JudgedRaisesExactly(g: Guard, o: Observation, now: Time, linkHealthy: bool)
    requires AllRecordable(g)
    ensures Judged(g, o, now, linkHealthy).1 == Raised <==>
            !Recordable(o) && o.endpoint !in g.blocked.m && (o.endpoint in g.pending.m || |g.pending.m| < MAX_CANDIDATES)
    ensures Judged(g, o, now, linkHealthy).1 != Raised ==> AllRecordable(Judged(g, o, now, linkHealthy).0)
  {
  }

  /** The zones that a group reply brings to a registered group. */
  lemma GroupReplyProposes(before: Devices, p: Packet)
    requires Considered(p) && p.addr == THERMOSTAT && Low(p.subId) == 15 && ZoneCount(p.payload) > 0
    requires DeviceKey(THERMOSTAT, p.subId, None) in before
    ensures var group := DeviceKey(THERMOSTAT, p.subId, None);
      Proposal(before, p).keys == set z | 1 <= z <= ZoneCount(p.payload) && z !in before[group].zones :: ZoneKey(group, z)
  {
    var group := DeviceKey(THERMOSTAT, p.subId, None);
    var n := ZoneCount(p.payload);
    var updates := Updates(before, p);
    assert updates == [Update(group, None, Some(Upto(n)))];
    var after := before[group := Updated(before, updates[0])];
    assert updates[1..] == [];
    assert Apply(before, updates) == after;
    forall z ensures z in Upto(n) <==> 1 <= z <= n {
      if 1 <= z <= n { assert Upto(n)[z - 1] == z; }
    }
    assert after.Keys == before.Keys;
    assert after[group].zones == Upto(n);
    assert forall k :: k in before && k != group ==> after[k] == before[k];
  }

  function Zones(group: Key, n: nat): set<Key> {
    set z: nat | 1 <= z <= n :: ZoneKey(group, z)
  }

  lemma {:induction false} CountZones(group: Key, n: nat)
    ensures |Zones(group, n)| == n
  {
    if n > 0 {
      CountZones(group, n - 1);
      assert Zones(group, n) == Zones(group, n - 1) + {ZoneKey(group, n)};
    }
  }

  /** The first group reply for a group registered without zones, put before a guard that could still begin a
      candidate: with more than 32 zones it makes the registry raise and all its zones stay, unadmitted; with
      fewer it adds none of them. */
  lemma FirstGroupReply(before: Devices, g: Guard, p: Packet, now: Time, linkHealthy: bool)
    requires Considered(p) && p.addr == THERMOSTAT && Low(p.subId) == 15 && ZoneCount(p.payload) > 0
    requires DeviceKey(THERMOSTAT, p.subId, None) in before && before[DeviceKey(THERMOSTAT, p.subId, None)].zones == []
    requires g.pending == Dict([], map[]) && Bus(p.addr, p.subId) !in Expired(Listening(g, p), now).0.blocked.m
    ensures var n := ZoneCount(p.payload);
      && (Raises(before, g, p, now, linkHealthy) <==> n > MAX_KEYS)
      && Added(before, g, p, now, linkHealthy) == if n > MAX_KEYS then Zones(DeviceKey(THERMOSTAT, p.subId, None), n) else {}
  {
    var group := DeviceKey(THERMOSTAT, p.subId, None);
    var n := ZoneCount(p.payload);
    GroupReplyProposes(before, p);
    assert Proposal(before, p).keys == Zones(group, n);
    CountZones(group, n);
    assert ZoneKey(group, 1) in Zones(group, n);
    ObserveRaisesExactly(Listening(g, p), Proposal(before, p), now, linkHealthy);
    BeginsWithoutAdmission(Listening(g, p), Proposal(before, p), now, linkHealthy);
    OnlyAdmissionAdds(before, g, p, now, linkHealthy);
  }

  lemma BeginsWithoutAdmission(g: Guard, o: Observation, now: Time, linkHealthy: bool)
    requires g.pending == Dict([], map[]) && o.keys != {}
    ensures Observe(g, o, now, linkHealthy).1 != Yes && Expired(g, now).0.pending.m == map[]
  {
    ExpireDrops(g, now);
  }

  /** A control reply of 16 bytes is such an outlet reply. */
  lemma OversizedExists(p: Packet, before: Devices, g: Guard, now: Time, linkHealthy: bool)
    requires p.addr == OUTLET && p.subId == 0x1F && p.cmd == 0xC1 && |p.payload| == 16
    ensures Raises(before, g, p, now, linkHealthy)
    ensures Outlet(0x1F, 1) in DevicesAfter(before, g, p, now, linkHealthy)
  {
    assert OutletChannels(p.cmd, p.payload) == 15;
    OversizedBypassesTheGuard(before, g, p, now, linkHealthy);
    assert Outlet(0x1F, 1) in OutletKeys(p.subId, 1, 15);
    RegisteredStay(before, g, p, now, linkHealthy);
  }
}
