/** What frames propose, what the payload gate lets through, and what a rollback keeps, in terms of the frames. */
module Proposals {
  import opened Bytes
  import opened Wrappers
  import opened Dicts
  import opened Evidence
  import opened GuardState
  import opened Registry
  import opened GuardedState

  function DeviceAt(addr: byte, subId: byte): Key {
    DeviceKey(addr, subId, None)
  }

  /** The frames that are considered: from known devices, with a command that carries state, from a legal address:
      groups of lights, thermostats and outlets have addresses up to 0xEF whose low half is not zero, meters 1 to 5 or
      15, all others 1 to 14. */
  lemma ConsideredExactly(p: Packet)
    ensures Considered(p) <==>
      || (p.addr == 0x0E && p.cmd in {0x81, 0xC1} && 1 <= p.subId <= 0xEF && p.subId % 16 != 0)
      || (p.addr == 0x36 && p.cmd in {0x81, 0xC3, 0xC4, 0xC5, 0xC6, 0xC7} && 1 <= p.subId <= 0xEF && p.subId % 16 != 0)
      || (p.addr == 0x39 && p.cmd in {0x81, 0xC1, 0xB1, 0xC3} && 1 <= p.subId <= 0xEF && p.subId % 16 != 0)
      || (p.addr == 0x30 && p.cmd in {0x81, 0x8F} && (1 <= p.subId <= 5 || p.subId == 15))
      || (p.addr == 0x12 && p.cmd in {0x81, 0xC1} && 1 <= p.subId <= 14)
      || (p.addr == 0x33 && p.cmd in {0x81, 0x43} && 1 <= p.subId <= 14)
      || (p.addr == 0x40 && p.cmd in {0x82, 0x10} && 1 <= p.subId <= 14)
      || (p.addr == 0x60 && p.cmd == 0x81 && 1 <= p.subId <= 14)
  {
  }

  /** What the guard is told of a frame: its address and bytes, and whether it may be probed without asking, which
      status replies of single addresses may. */
  lemma ProposalTells(devices: Devices, p: Packet)
    ensures var o := Proposal(devices, p);
      && o.endpoint == Bus(p.addr, p.subId) && o.raw == p.raw
      && (o.automatic <==> p.cmd == (if p.addr == 0x40 then 0x82 else 0x81) && p.subId % 16 != 15)
  {
  }

  /** The guard is asked about a frame that updates a device and either proposes something or is a status reply. */
  lemma ExaminedExactly(devices: Devices, p: Packet)
    ensures Examined(devices, p) <==>
      && !Oversized(p) && Updates(devices, p) != []
      && (Proposal(devices, p).keys != {} || p.cmd == if p.addr == 0x40 then 0x82 else 0x81)
  {
  }

  lemma OneUpdate(u: Update)
    ensures Named([u]) == {u.key}
  {
    assert [u][0] in [u];
  }

  /** A frame that is not considered proposes nothing; in particular no status request does. */
  lemma UnconsideredProposeNothing(devices: Devices, p: Packet)
    ensures !Considered(p) ==> Updates(devices, p) == []
    ensures p.cmd == 0x01 ==> !Considered(p)
  {
  }

  /** Gas valves, entrance panels, common entrances and other sensors: the device at the frame's own address. */
  lemma PlainProposes(devices: Devices, p: Packet)
    requires Considered(p) && p.addr in {0x12, 0x33, 0x40, 0x60}
    ensures Named(Updates(devices, p)) == {DeviceAt(p.addr, p.subId)}
  {
    OneUpdate(Plain(p.addr, p.subId));
  }

  /** The channels of an outlet reply, by its length: three bytes each in a status reply, two in a threshold reply,
      one in a control reply, after a first byte. */
  lemma OutletChannelsExactly(cmd: byte, payload: bytes, n: nat)
    requires n >= 1
    ensures OutletChannels(cmd, payload) == n <==>
      || (cmd == 0x81 && |payload| == 1 + 3 * n)
      || (cmd in {0xB1, 0xC3} && |payload| == 1 + 2 * n)
      || (cmd == 0xC1 && |payload| == 1 + n)
  {
  }

  /** An outlet reply: the outlets of its group, up to the fifteenth, or the one it is about. */
  lemma OutletProposes(devices: Devices, p: Packet)
    requires Considered(p) && p.addr == 0x39
    ensures var n := OutletChannels(p.cmd, p.payload);
      Named(Updates(devices, p))
      == if n == 0 then {}
         else if OutletGroup(p.subId) then OutletKeys(p.subId, 1, if n > 15 then 15 else n)
         else {DeviceAt(0x39, p.subId)}
  {
    var n := OutletChannels(p.cmd, p.payload);
    OutletsAre(p.subId, 1, if n > 15 then 15 else n);
    OneUpdate(Plain(OUTLET, p.subId));
  }

  function MeterKeys(m: nat, last: nat): set<Key>
    requires last <= 5
  {
    set i | m <= i <= last :: DeviceAt(0x30, i)
  }

  lemma {:induction false} MetersAre(m: nat, last: nat)
    requires last <= 5
    ensures Named(Meters(m, last)) == MeterKeys(m, last)
    decreases last + 1 - m
  {
    if m <= last {
      MetersAre(m + 1, last);
      NamedMore(Plain(METER, m % 256), Meters(m + 1, last));
      assert MeterKeys(m, last) == {DeviceAt(0x30, m)} + MeterKeys(m + 1, last);
    }
  }

  /** A meter reply: the meter it is about when its length is that of one meter, else one meter for each six bytes,
      five at most; nothing when the length fits neither. */
  lemma MeterProposes(devices: Devices, p: Packet)
    requires Considered(p) && p.addr == 0x30
    ensures var size := if |p.payload| % 6 == 1 then |p.payload| - 1 else |p.payload|;
      Named(Updates(devices, p))
      == if p.cmd != 0x81 || (p.subId != 0x0F && 6 <= |p.payload| <= 8) then {DeviceAt(0x30, p.subId)}
         else if size == 0 || size % 6 != 0 then {}
         else MeterKeys(1, if size / 6 > 5 then 5 else size / 6)
  {
    OneUpdate(Plain(METER, p.subId));
    var size := if |p.payload| % 6 == 1 then |p.payload| - 1 else |p.payload|;
    MetersAre(1, if size / 6 > 5 then 5 else size / 6);
  }

  /** The zones of a thermostat reply, by its length. */
  lemma ZoneCountExactly(payload: bytes, n: nat)
    requires n >= 1
    ensures ZoneCount(payload) == n <==> |payload| == 5 + 2 * n
  {
  }

  /** A thermostat reply: a single zone belongs to its group if that is registered; any other proposes its own device. */
  lemma ThermostatProposes(devices: Devices, p: Packet)
    requires Considered(p) && p.addr == 0x36
    ensures Named(Updates(devices, p))
            == if !IndividualThermostat(p.subId) then {DeviceAt(0x36, p.subId)}
               else if ThermostatGroup(p.subId) in devices && |p.payload| == 7 then {ThermostatGroup(p.subId)}
               else {}
  {
    if IndividualThermostat(p.subId) {
      ZoneCountExactly(p.payload, 1);
      if Updates(devices, p) != [] { OneUpdate(Updates(devices, p)[0]); }
    } else {
      OneUpdate(Updates(devices, p)[0]);
    }
  }

  function ChannelKeys(subId: byte, ch: nat, last: nat): set<Key> {
    set i: nat | ch <= i <= last :: DeviceKey(0x0E, subId, Some(i))
  }

  lemma {:induction false} ChannelsAre(subId: byte, ch: nat, last: nat, group: bool)
    ensures Named(Channels(subId, ch, last, group)) == ChannelKeys(subId, ch, last)
    decreases last + 1 - ch
  {
    if ch <= last {
      var all := Channels(subId, ch, last, group);
      ChannelsAre(subId, ch + 1, last, group);
      NamedMore(all[0], Channels(subId, ch + 1, last, group));
      assert ChannelKeys(subId, ch, last) == {DeviceKey(0x0E, subId, Some(ch))} + ChannelKeys(subId, ch + 1, last);
    }
  }

  /** A light status reply with one to fourteen channel states: the channels of its group; one channel of the group
      that a single light belongs to; the channels of a module; or a plain light. Any other light frame proposes
      nothing. */
  lemma LightProposes(devices: Devices, p: Packet)
    requires Considered(p) && p.addr == 0x0E
    ensures var n := |p.payload| - 1;
      Named(Updates(devices, p))
      == if p.cmd != 0x81 || !(1 <= n <= 14) then {}
         else if High(p.subId) == 0 then if Low(p.subId) <= 14 then {DeviceAt(0x0E, p.subId)} else {}
         else if Low(p.subId) == 15 then ChannelKeys(p.subId, 1, n)
         else if GroupLight(p.subId) in devices || (n == 1 && !(0x11 <= p.subId <= 0x15)) then {GroupLight(p.subId)}
         else ChannelKeys(p.subId, 1, n)
  {
    var n := |p.payload| - 1;
    if p.cmd == 0x81 && 1 <= n <= 14 {
      ChannelsAre(p.subId, 1, n, true);
      ChannelsAre(p.subId, 1, n, false);
      if |Updates(devices, p)| == 1 { OneUpdate(Updates(devices, p)[0]); }
    }
  }

  /** The devices a frame proposes are those it names that are not registered. */
  lemma ProposesNew(devices: Devices, p: Packet, k: Key)
    requires k.DeviceKey?
    ensures k in Proposal(devices, p).keys <==> k in Named(Updates(devices, p)) && k !in devices
  {
    ApplyNames(devices, Updates(devices, p));
  }

  /** A zone joins the list of its group, once. */
  lemma {:induction false} WithZoneExactly(zones: seq<nat>, z: nat)
    ensures forall x :: x in WithZone(zones, z) <==> x in zones || x == z
  {
    if zones != [] && zones[0] < z {
      WithZoneExactly(zones[1..], z);
      assert zones == [zones[0]] + zones[1..];
    }
  }

  lemma {:induction false} WithZonesExactly(zones: seq<nat>, hints: seq<nat>)
    ensures forall x :: x in WithZones(zones, hints) <==> x in zones || x in hints
    decreases |hints|
  {
    if hints != [] {
      WithZoneExactly(zones, hints[0]);
      WithZonesExactly(WithZone(zones, hints[0]), hints[1..]);
      assert hints == [hints[0]] + hints[1..];
    }
  }

  /** Restoring a saved key enters it exactly when its address is legal, with the zones remembered for a thermostat and
      its own route for a light, and leaves all other devices alone. */
  lemma RestoresExactly(devices: Devices, addr: byte, subId: byte, channel: Option<nat>, hints: seq<nat>)
    ensures var (after, key) := (RestoreDevice(devices, addr, subId, channel, hints), DeviceKey(addr, subId, channel));
      && (forall k :: k in devices && k != key ==> k in after && after[k] == devices[k])
      && (key in after <==> key in devices || (KnownAddress(addr) && ValidSubId(addr, subId)))
      && (key in after && key !in devices ==>
            && after[key].route == (if addr == 0x0E then Some(DefaultRoute(subId, channel)) else None)
            && forall z :: z in after[key].zones <==> addr == 0x36 && z in hints)
  {
    WithZonesExactly([], hints);
  }

  // ---- The payload gate ----

  lemma LowBits(a: nat)
    ensures a == 16 * (a / 16) + Bit(a, 0) + 2 * Bit(a, 1) + 4 * Bit(a, 2) + 8 * Bit(a, 3)
  {
    var (b, c, d) := (a / 2, a / 4, a / 8);
    assert b / 2 == c && c / 2 == d && d / 2 == a / 16;
    assert Bit(a, 1) == b % 2 && Bit(a, 2) == Bit(b, 1) == c % 2 && Bit(a, 3) == Bit(b, 2) == Bit(c, 1) == d % 2;
  }

  lemma LowBitsAre(a: nat)
    ensures Bit(a, 1) in {0, 1} && Bit(a, 2) in {0, 1} && Bit(a, 3) in {0, 1} && Bit(a, 0) in {0, 1}
  {
    BitIsBit(a, 0);
    BitIsBit(a, 1);
    BitIsBit(a, 2);
    BitIsBit(a, 3);
  }

  /** The state of one light: the reserved bits 2 and 3 are clear, and a level in the high nibble comes with bit 1. */
  predicate PlausibleLight(b: byte) {
    Bit(b, 2) == 0 && Bit(b, 3) == 0 && (b / 16 != 0 ==> Bit(b, 1) == 1)
  }

  lemma FourBits(b0: nat, b1: nat, b2: nat, b3: nat, high: nat)
    requires b0 <= 1 && b1 <= 1 && b2 <= 1 && b3 <= 1
    ensures var b := b0 + 2 * b1 + 4 * b2 + 8 * b3 + 16 * high;
      b / 2 % 2 == b1 && (b / 4 % 4 == 0 <==> b2 == 0 && b3 == 0) && (b < 16 <==> high == 0)
  {
    var b := b0 + 2 * b1 + 4 * b2 + 8 * b3 + 16 * high;
    assert b / 2 == b1 + 2 * b2 + 4 * b3 + 8 * high;
    assert b / 4 == b2 + 2 * b3 + 4 * high;
  }

  lemma LightBits(b: byte)
    ensures LegalLightState(b) <==> PlausibleLight(b)
  {
    LowBits(b);
    LowBitsAre(b);
    FourBits(Bit(b, 0), Bit(b, 1), Bit(b, 2), Bit(b, 3), b / 16);
  }

  /** What the gate refuses: an empty payload; a gas reply that is not two bytes with the three highest status bits clear;
      a light reply that is not an error byte and one to fourteen plausible light states. Nothing else. */
  lemma GateRefusesExactly(addr: byte, cmd: byte, payload: bytes)
    ensures !ValidResponsePayload(addr, cmd, payload) <==>
      || payload == []
      || (addr == 0x12 && cmd in {0x81, 0xC1}
          && (|payload| != 2 || payload[1] / 32 != 0))
      || (addr == 0x0E && cmd in {0x81, 0xC1}
          && (|payload| < 2 || |payload| > 15 || exists i :: 1 <= i < |payload| && !PlausibleLight(payload[i])))
  {
    forall i | 1 <= i < |payload| ensures LegalLightState(payload[i]) <==> PlausibleLight(payload[i]) {
      LightBits(payload[i]);
    }
  }

  // ---- What a rollback keeps ----

  /** A rollback undoes what is new and nothing else: registered devices keep what the frame told about them, thermostats
      without the zones they did not have. */
  lemma RollbackKeepsUpdates(before: Devices, after: Devices, k: Key)
    requires forall x :: x in before ==> x in after
    ensures RolledBack(before, after).Keys == before.Keys
    ensures k in before ==>
      && RolledBack(before, after)[k].route == after[k].route
      && (!IsClimate(k) ==> RolledBack(before, after)[k] == after[k])
      && (IsClimate(k) ==> forall z :: z in RolledBack(before, after)[k].zones <==> z in after[k].zones && z in before[k].zones)
  {
  }

  /** So whether admitted or not, a frame updates the registered devices it is about. */
  lemma RegisteredAreUpdated(before: Devices, g: Guard, p: Packet, now: Time, linkHealthy: bool, k: Key)
    requires k in before
    ensures var (after, told) := (DevicesAfter(before, g, p, now, linkHealthy), Apply(before, Updates(before, p)));
      k in after && k in told && after[k].route == told[k].route && (!IsClimate(k) ==> after[k] == told[k])
  {
    RollbackKeepsUpdates(before, Apply(before, Updates(before, p)), k);
  }
}
