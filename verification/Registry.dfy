/** The device registry before admission: which devices and zones a frame proposes, and how lights are
    routed. */
module Registry {
  import opened Bytes
  import opened Wrappers
  import opened Evidence

  const LIGHT: byte := 0x0E
  const GAS: byte := 0x12
  const METER: byte := 0x30
  const ENTRANCE_PANEL: byte := 0x33
  const THERMOSTAT: byte := 0x36
  const OUTLET: byte := 0x39
  const COMMON_ENTRANCE: byte := 0x40
  const GENERIC_SENSOR: byte := 0x60

  const MAX_LIGHT_CHANNELS: nat := 14
  const MAX_OUTLET_CHANNELS: nat := 14

  datatype Packet = Packet(addr: byte, subId: byte, cmd: byte, payload: bytes, raw: bytes)

  /** Where a light is controlled: the address, and the channel carried in the payload if any. */
  datatype Route = Route(subId: nat, channel: Option<nat>)

  /** What the model keeps of a device's state: the route of a light, the zones of a thermostat. */
  datatype Device = Device(route: Option<Route>, zones: seq<nat>)

  type Devices = map<Key, Device>

  function High(subId: nat): nat {
    subId / 16
  }

  function Low(subId: nat): nat {
    subId % 16
  }

  predicate KnownAddress(addr: byte) {
    addr in {LIGHT, GAS, METER, ENTRANCE_PANEL, THERMOSTAT, OUTLET, COMMON_ENTRANCE, GENERIC_SENSOR}
  }

  predicate ValidSubId(addr: byte, subId: byte) {
    && subId >= 1
    && if addr == METER then subId in {1, 2, 3, 4, 5, 0x0F}
       else if addr in {GAS, ENTRANCE_PANEL, COMMON_ENTRANCE, GENERIC_SENSOR} then subId <= 0x0E
       else addr in {LIGHT, THERMOSTAT, OUTLET} && subId <= 0xEF && Low(subId) != 0
  }

  const THERMOSTAT_STATES: set<byte> := {0x81, 0xC3, 0xC4, 0xC5, 0xC6, 0xC7}

  /** Commands that carry no state: requests of the controller and auxiliary traffic. */
  function IgnoredCommands(addr: byte): set<byte> {
    if addr == LIGHT then {0x01, 0x41}
    else if addr == GAS then {0x01, 0x41, 0x0F}
    else if addr == METER then {0x01, 0x0F}
    else if addr == ENTRANCE_PANEL then {0x01}
    else if addr == THERMOSTAT then {0x01, 0x43, 0x44, 0x45, 0x46, 0x47}
    else if addr == OUTLET then {0x01, 0x41, 0x51, 0x52, 0xD2}
    else if addr == COMMON_ENTRANCE then {0x01, 0x02, 0x22}
    else if addr == GENERIC_SENSOR then {0x01, 0x41, 0xC1}
    else {}
  }

  function StateCommands(addr: byte): set<byte> {
    if addr == LIGHT || addr == GAS then {0x81, 0xC1}
    else if addr == METER then {0x81, 0x8F}
    else if addr == ENTRANCE_PANEL then {0x81, 0x43}
    else if addr == THERMOSTAT then THERMOSTAT_STATES
    else if addr == OUTLET then {0x81, 0xC1, 0xB1, 0xC3}
    else if addr == COMMON_ENTRANCE then {0x82, 0x10}
    else if addr == GENERIC_SENSOR then {0x81}
    else {}
  }

  /** A frame that is considered at all: known address, state-carrying command, legal sub-address. */
  predicate Considered(p: Packet) {
    && KnownAddress(p.addr)
    && p.cmd !in IgnoredCommands(p.addr)
    && p.cmd in StateCommands(p.addr)
    && ValidSubId(p.addr, p.subId)
  }

  /** One device a frame reports on; the parts it does not report stay as they are. */
  datatype Update = Update(key: Key, route: Option<Route>, zones: Option<seq<nat>>)

  function Plain(addr: byte, subId: byte): Update {
    Update(DeviceKey(addr, subId, None), None, None)
  }

  /** Lights on the channels from `ch` to `last` of one reply. */
  function Channels(subId: byte, ch: nat, last: nat, group: bool): seq<Update>
    decreases last + 1 - ch
  {
    if ch > last then []
    else
      var route := if group then Route(16 * High(subId) + ch, None) else Route(subId, Some(ch));
      [Update(DeviceKey(LIGHT, subId, Some(ch)), Some(route), None)] + Channels(subId, ch + 1, last, group)
  }

  function GroupLight(subId: byte): Key {
    DeviceKey(LIGHT, (16 * High(subId) + 15) % 256, Some(Low(subId)))
  }

  /** The light path: group replies, module replies of several channels, single lights. */
  function LightUpdates(devices: Devices, p: Packet): seq<Update> {
    var count := |p.payload| - 1;
    if p.cmd != 0x81 || count < 1 || count > MAX_LIGHT_CHANNELS then []
    else if High(p.subId) > 0 && Low(p.subId) == 15 then Channels(p.subId, 1, count, true)
    else if High(p.subId) > 0 && 1 <= Low(p.subId) <= 14 then
      if !(0x11 <= p.subId <= 0x15 || |p.payload| > 2) || GroupLight(p.subId) in devices
      then [Update(GroupLight(p.subId), Some(Route(p.subId, None)), None)]
      else Channels(p.subId, 1, count, false)
    else if 1 <= Low(p.subId) <= 14
    then [Update(DeviceKey(LIGHT, p.subId, None), Some(Route(p.subId, None)), None)]
    else []
  }

  /** Number of channels an outlet reply carries; 0 when its length fits no layout. */
  function OutletChannels(cmd: byte, payload: bytes): nat {
    if payload == [] then 0
    else if cmd == 0x81 && |payload| >= 4 && (|payload| - 1) % 3 == 0 then (|payload| - 1) / 3
    else if (cmd == 0xB1 || cmd == 0xC3) && |payload| >= 3 && (|payload| - 1) % 2 == 0 then (|payload| - 1) / 2
    else if cmd == 0xC1 && |payload| >= 2 then |payload| - 1
    else 0
  }

  function Outlets(subId: byte, ch: nat, last: nat): seq<Update>
    requires last <= 15
    decreases last + 1 - ch
  {
    if ch > last then []
    else [Plain(OUTLET, (16 * High(subId) + ch) % 256)] + Outlets(subId, ch + 1, last)
  }

  predicate OutletGroup(subId: byte) {
    High(subId) > 0 && Low(subId) == 15
  }

  /** A group reply for more outlets than the decoder accepts: it raises at the fifteenth, whose device has
      been entered by then. */
  predicate Oversized(p: Packet) {
    && Considered(p) && p.addr == OUTLET && OutletGroup(p.subId)
    && OutletChannels(p.cmd, p.payload) > MAX_OUTLET_CHANNELS
  }

  function OutletUpdates(p: Packet): seq<Update> {
    var count := OutletChannels(p.cmd, p.payload);
    if count == 0 then []
    else if OutletGroup(p.subId) then Outlets(p.subId, 1, if count > 15 then 15 else count)
    else [Plain(OUTLET, p.subId)]
  }

  /** Meters a status reply carries: one addressed meter, or up to five in a fixed order. */
  function MeterUpdates(p: Packet): seq<Update> {
    if p.cmd != 0x81 then [Plain(METER, p.subId)]
    else if 1 <= p.subId <= 5 && |p.payload| in {6, 7, 8} then [Plain(METER, p.subId)]
    else
      var n := if |p.payload| % 6 == 1 then |p.payload| - 1 else |p.payload|;
      if n == 0 || n % 6 != 0 then [] else Meters(1, if n / 6 > 5 then 5 else n / 6)
  }

  function Meters(m: nat, last: nat): seq<Update>
    requires last <= 5
    decreases last + 1 - m
  {
    if m > last then [] else [Plain(METER, m % 256)] + Meters(m + 1, last)
  }

  /** Zones a thermostat payload of the standard layout carries. */
  function ZoneCount(payload: bytes): nat {
    if |payload| >= 7 && (|payload| - 5) % 2 == 0 then (|payload| - 5) / 2 else 0
  }

  function Upto(n: nat): seq<nat> {
    seq(n, i => i + 1)
  }

  /** `zones` with `z` in its place; an existing entry is replaced. */
  function WithZone(zones: seq<nat>, z: nat): seq<nat> {
    if zones == [] then [z]
    else if zones[0] < z then [zones[0]] + WithZone(zones[1..], z)
    else if zones[0] == z then zones
    else [z] + zones
  }

  predicate IndividualThermostat(subId: byte) {
    High(subId) > 0 && 1 <= Low(subId) <= 14
  }

  function ThermostatGroup(subId: byte): Key {
    DeviceKey(THERMOSTAT, (16 * High(subId) + 15) % 256, None)
  }

  /** The thermostat path: a reply of one zone belongs to its group, if that is registered; a group reply
      replaces the whole list of zones. */
  function ThermostatUpdates(devices: Devices, p: Packet): seq<Update> {
    if IndividualThermostat(p.subId) then
      var group := ThermostatGroup(p.subId);
      if group in devices && ZoneCount(p.payload) == 1
      then [Update(group, None, Some(WithZone(devices[group].zones, Low(p.subId))))]
      else []
    else
      var n := ZoneCount(p.payload);
      [Update(DeviceKey(THERMOSTAT, p.subId, None), None, if n > 0 then Some(Upto(n)) else None)]
  }

  function Updates(devices: Devices, p: Packet): seq<Update> {
    if !Considered(p) then []
    else if p.addr == LIGHT then LightUpdates(devices, p)
    else if p.addr == OUTLET then OutletUpdates(p)
    else if p.addr == METER then MeterUpdates(p)
    else if p.addr == THERMOSTAT then ThermostatUpdates(devices, p)
    else [Plain(p.addr, p.subId)]
  }

  function Updated(devices: Devices, u: Update): Device {
    var d := if u.key in devices then devices[u.key] else Device(None, []);
    Device(if u.route.Some? then u.route else d.route, if u.zones.Some? then u.zones.value else d.zones)
  }

  function Apply(devices: Devices, updates: seq<Update>): (after: Devices)
    ensures forall k :: k in devices ==> k in after
    ensures forall k :: k in after <==> k in devices || exists i :: 0 <= i < |updates| && updates[i].key == k
    decreases |updates|
  {
    if updates == [] then devices
    else
      var next := devices[updates[0].key := Updated(devices, updates[0])];
      assert forall i :: 1 <= i < |updates| ==> updates[1..][i - 1] == updates[i];
      Apply(next, updates[1..])
  }

  /** What restoring a saved key sets for a light it has no state for. */
  function DefaultRoute(subId: byte, channel: Option<nat>): Route {
    if channel.Some? && High(subId) > 0 && Low(subId) == 15 then Route(BitOr(16 * High(subId), channel.value), None)
    else Route(subId, channel)
  }

  /** `a | b` on natural numbers. */
  function BitOr(a: nat, b: nat): nat
    decreases a + b
  {
    if a == 0 then b else if b == 0 then a
    else 2 * BitOr(a / 2, b / 2) + (if a % 2 == 1 || b % 2 == 1 then 1 else 0)
  }

  /** Existing routing entries win over the defaults; a group light never keeps a control channel. */
  function RestoredRoute(previous: Option<Route>, subId: byte, channel: Option<nat>): Route {
    var standard := DefaultRoute(subId, channel);
    if previous.None? then standard
    else if channel.Some? && High(subId) > 0 && Low(subId) == 15 then Route(previous.value.subId, None)
    else if channel.Some? then Route(previous.value.subId, if previous.value.channel.Some? then previous.value.channel else channel)
    else previous.value
  }

  function WithZones(zones: seq<nat>, hints: seq<nat>): seq<nat>
    decreases |hints|
  {
    if hints == [] then zones else WithZones(WithZone(zones, hints[0]), hints[1..])
  }

  function RestoreDevice(devices: Devices, addr: byte, subId: byte, channel: Option<nat>, hints: seq<nat>): (after: Devices)
    ensures forall k :: k in devices ==> k in after
    ensures forall k :: k in after ==> k in devices || k == DeviceKey(addr, subId, channel)
  {
    if !KnownAddress(addr) || !ValidSubId(addr, subId) then devices
    else
      var key := DeviceKey(addr, subId, channel);
      var d := if key in devices then devices[key] else Device(None, []);
      devices[key :=
        if addr == LIGHT then d.(route := Some(RestoredRoute(d.route, subId, channel)))
        else if addr == THERMOSTAT then d.(zones := WithZones(d.zones, hints))
        else d]
  }
}
