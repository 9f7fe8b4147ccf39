/** Lights: the route of every light is a function of its key, and frame-discovered lights never share one. */
module LightRoutes {
  import opened Bytes
  import opened Wrappers
  import opened Evidence
  import opened GuardState
  import opened Registry
  import opened GuardedState
  import opened GuardedTrace

  predicate IsLight(k: Key) {
    k.DeviceKey? && k.addr == LIGHT
  }

  /** Every light is routed as its key says. */
  ghost predicate Routed(devices: Devices) {
    forall k :: k in devices && IsLight(k) ==> devices[k].route == Some(DefaultRoute(k.subId, k.channel))
  }

  lemma HalveOr(a: nat, b: nat)
    ensures BitOr(2 * a, b) == 2 * BitOr(a, b / 2) + b % 2
  {
    if a != 0 && b != 0 {
      OrStep(2 * a, b, a, b / 2);
    }
  }

  lemma OrStep(x: nat, y: nat, p: nat, q: nat)
    requires x > 0 && y > 0 && x == 2 * p && q == y / 2
    ensures BitOr(x, y) == 2 * BitOr(p, q) + y % 2
  {
    assert x / 2 == p && x % 2 == 0;
  }

  lemma Halves(b: nat)
    ensures b / 2 / 2 == b / 4 && 2 * (b / 2 % 2) + b % 2 == b % 4
  {
  }

  lemma Quarters(b: nat)
    ensures b / 4 / 4 == b / 16 && 4 * (b / 4 % 4) + b % 4 == b % 16
  {
  }

  lemma QuarterOr(a: nat, b: nat)
    ensures BitOr(4 * a, b) == 4 * BitOr(a, b / 4) + b % 4
  {
    Halves(b);
    HalveOr(2 * a, b);
    HalveOr(a, b / 2);
    assert 2 * (2 * a) == 4 * a;
  }

  /** The low four bits of a channel stay; its higher bits spill into the group number. */
  lemma OrSplits(high: nat, c: nat)
    ensures BitOr(16 * high, c) == 16 * BitOr(high, c / 16) + c % 16
  {
    Quarters(c);
    QuarterOr(4 * high, c);
    QuarterOr(high, c / 4);
    assert 4 * (4 * high) == 16 * high;
  }

  lemma GroupRoute(subId: byte, ch: nat)
    requires High(subId) > 0 && Low(subId) == 15
    ensures DefaultRoute(subId, Some(ch)) == Route(16 * BitOr(High(subId), ch / 16) + ch % 16, None)
    ensures ch <= 15 ==> DefaultRoute(subId, Some(ch)) == Route(16 * High(subId) + ch, None)
  {
    OrSplits(High(subId), ch);
  }

  /** Keys of the shape that frames bring in. */
  predicate FrameShaped(k: Key) {
    && IsLight(k)
    && 1 <= Low(k.subId)
    && if High(k.subId) > 0 then k.channel.Some? && 1 <= k.channel.value <= 14
       else k.channel.None? && Low(k.subId) <= 14
  }

  /** An update of a light carries the route its key says, and its key has that shape. */
  ghost predicate Proper(u: Update) {
    IsLight(u.key) ==> FrameShaped(u.key) && u.route == Some(DefaultRoute(u.key.subId, u.key.channel))
  }

  lemma {:induction false} ChannelsAreProper(subId: byte, ch: nat, last: nat, group: bool)
    requires 1 <= ch && last <= 14 && High(subId) > 0
    requires if group then Low(subId) == 15 else 1 <= Low(subId) <= 14
    ensures forall u :: u in Channels(subId, ch, last, group) ==> Proper(u)
    decreases last + 1 - ch
  {
    if ch <= last {
      if group {
        GroupRoute(subId, ch);
      }
      ChannelsAreProper(subId, ch + 1, last, group);
    }
  }

  lemma LightUpdatesAreProper(devices: Devices, p: Packet)
    requires ValidSubId(LIGHT, p.subId)
    ensures forall u :: u in LightUpdates(devices, p) ==> Proper(u)
  {
    var count := |p.payload| - 1;
    if 1 <= count <= MAX_LIGHT_CHANNELS && High(p.subId) > 0 {
      ChannelsAreProper(p.subId, 1, count, Low(p.subId) == 15);
      if Low(p.subId) <= 14 {
        var group := GroupLight(p.subId);
        GroupRoute(group.subId, Low(p.subId));
      }
    }
  }

  lemma {:induction false} OutletsAreProper(subId: byte, ch: nat, last: nat)
    requires last <= 15
    ensures forall u :: u in Outlets(subId, ch, last) ==> Proper(u)
    decreases last + 1 - ch
  {
    if ch <= last {
      OutletsAreProper(subId, ch + 1, last);
    }
  }

  lemma {:induction false} MetersAreProper(m: nat, last: nat)
    requires last <= 5
    ensures forall u :: u in Meters(m, last) ==> Proper(u)
    decreases last + 1 - m
  {
    if m <= last {
      MetersAreProper(m + 1, last);
    }
  }

  lemma UpdatesAreProper(devices: Devices, p: Packet)
    ensures forall u :: u in Updates(devices, p) ==> Proper(u)
  {
    if Considered(p) {
      if p.addr == LIGHT {
        LightUpdatesAreProper(devices, p);
      } else if p.addr == OUTLET {
        var count := OutletChannels(p.cmd, p.payload);
        OutletsAreProper(p.subId, 1, if count > 15 then 15 else count);
      } else if p.addr == METER {
        var n := if |p.payload| % 6 == 1 then |p.payload| - 1 else |p.payload|;
        MetersAreProper(1, if n / 6 > 5 then 5 else n / 6);
      }
    }
  }

  lemma {:induction false} ApplyKeepsRouted(devices: Devices, updates: seq<Update>)
    requires Routed(devices) && forall u :: u in updates ==> Proper(u)
    ensures Routed(Apply(devices, updates))
    decreases |updates|
  {
    if updates != [] {
      assert updates[0] in updates;
      ApplyKeepsRouted(devices[updates[0].key := Updated(devices, updates[0])], updates[1..]);
    }
  }

  lemma StepKeepsRouted(s: System, i: Input)
    requires Routed(s.devices)
    ensures Routed(Step(s, i).devices)
  {
    if i.FrameIn? {
      UpdatesAreProper(s.devices, i.p);
      ApplyKeepsRouted(s.devices, Updates(s.devices, i.p));
    }
  }

  /** After any run of frames, admissions, rollbacks and restores, the route of every light is what restoring
      its key would compute. */
  lemma {:induction false} LightsAreRouted(s: System, run: seq<Input>)
    requires Routed(s.devices)
    ensures Routed(Final(s, run).devices)
  {
    if run != [] {
      LightsAreRouted(s, run[..|run| - 1]);
      StepKeepsRouted(Final(s, run[..|run| - 1]), run[|run| - 1]);
    }
  }

  lemma ShapedRoute(k: Key)
    requires FrameShaped(k)
    ensures DefaultRoute(k.subId, k.channel)
            == if High(k.subId) > 0 && Low(k.subId) == 15 then Route(16 * High(k.subId) + k.channel.value, None)
               else Route(k.subId, k.channel)
  {
    if High(k.subId) > 0 && Low(k.subId) == 15 {
      GroupRoute(k.subId, k.channel.value);
    }
  }

  lemma Digits(g: nat, c: nat, h: nat, d: nat)
    requires c <= 15 && d <= 15
    ensures 16 * g + c == 16 * h + d <==> g == h && c == d
  {
  }

  /** Different keys of the shape that frames bring in have different routes. */
  lemma RoutesAreInjective(k: Key, l: Key)
    requires FrameShaped(k) && FrameShaped(l)
    requires DefaultRoute(k.subId, k.channel) == DefaultRoute(l.subId, l.channel)
    ensures k == l
  {
    ShapedRoute(k);
    ShapedRoute(l);
    if k.channel.Some? && l.channel.Some? && Low(k.subId) == 15 && Low(l.subId) == 15 {
      Digits(High(k.subId), k.channel.value, High(l.subId), l.channel.value);
    }
  }

  lemma {:induction false} ApplyAddsUpdated(devices: Devices, updates: seq<Update>, k: Key)
    requires forall u :: u in updates ==> Proper(u)
    requires k in Apply(devices, updates) && k !in devices && IsLight(k)
    ensures FrameShaped(k)
  {
    var i :| 0 <= i < |updates| && updates[i].key == k;
    assert updates[i] in updates;
  }

  ghost predicate RestoredIn(run: seq<Input>, k: Key) {
    exists i :: i in run && i.Restored? && k == DeviceKey(i.addr, i.subId, i.channel)
  }

  /** A light that frames of the run brought in. */
  ghost predicate Discovered(s: System, run: seq<Input>, k: Key) {
    k in Final(s, run).devices && IsLight(k) && k !in s.devices && !RestoredIn(run, k)
  }

  lemma {:induction false} DiscoveredLightsAreShaped(s: System, run: seq<Input>, k: Key)
    ensures Discovered(s, run, k) ==> FrameShaped(k)
    decreases |run|
  {
    if run != [] && Discovered(s, run, k) {
      var past, i := run[..|run| - 1], run[|run| - 1];
      assert i in run && forall j :: j in past ==> j in run;
      var before := Final(s, past).devices;
      if k in before {
        DiscoveredLightsAreShaped(s, past, k);
      } else if i.FrameIn? {
        UpdatesAreProper(before, i.p);
        ApplyAddsUpdated(before, Updates(before, i.p), k);
      }
    }
  }

  /** Two distinct lights discovered from frames are never controlled through the same route. */
  lemma NoSharedRoute(s: System, run: seq<Input>, k: Key, l: Key)
    requires Routed(s.devices) && k != l
    ensures Discovered(s, run, k) && Discovered(s, run, l) ==> Final(s, run).devices[k].route != Final(s, run).devices[l].route
  {
    LightsAreRouted(s, run);
    DiscoveredLightsAreShaped(s, run, k);
    DiscoveredLightsAreShaped(s, run, l);
    if Discovered(s, run, k) && Discovered(s, run, l) && DefaultRoute(k.subId, k.channel) == DefaultRoute(l.subId, l.channel) {
      RoutesAreInjective(k, l);
    }
  }

  // ---- Restored keys are outside that promise ----

  /** A light that is addressed as a channel of a group. */
  predicate GroupShaped(k: Key)
    requires k.DeviceKey?
  {
    k.channel.Some? && High(k.subId) > 0 && Low(k.subId) == 15
  }

  /** When two different keys stand for the same route. */
  predicate ShareRoute(k: Key, l: Key)
    requires k.DeviceKey? && l.DeviceKey?
  {
    if GroupShaped(k) && GroupShaped(l) then
      && k.channel.value % 16 == l.channel.value % 16
      && BitOr(High(k.subId), k.channel.value / 16) == BitOr(High(l.subId), l.channel.value / 16)
    else if GroupShaped(k) then Addresses(k, l)
    else GroupShaped(l) && Addresses(l, k)
  }

  /** The plain light `l` sits at the address of the group's channel `k`. */
  predicate Addresses(k: Key, l: Key)
    requires k.DeviceKey? && l.DeviceKey? && GroupShaped(k)
  {
    && l.channel.None? && Low(l.subId) == k.channel.value % 16
    && High(l.subId) == BitOr(High(k.subId), k.channel.value / 16)
  }

  /** Two different lights share a route if and only if both are channels of groups whose numbers agree after the
      spill, or one is and the other is the plain light at its address. */
  lemma RoutesSharedExactly(k: Key, l: Key)
    requires IsLight(k) && IsLight(l) && k != l
    ensures DefaultRoute(k.subId, k.channel) == DefaultRoute(l.subId, l.channel) <==> ShareRoute(k, l)
  {
    if GroupShaped(k) { GroupRoute(k.subId, k.channel.value); }
    if GroupShaped(l) { GroupRoute(l.subId, l.channel.value); }
    if GroupShaped(k) && GroupShaped(l) {
      Digits(BitOr(High(k.subId), k.channel.value / 16), k.channel.value % 16,
              BitOr(High(l.subId), l.channel.value / 16), l.channel.value % 16);
    } else if GroupShaped(k) {
      Digits(BitOr(High(k.subId), k.channel.value / 16), k.channel.value % 16, High(l.subId), Low(l.subId));
    } else if GroupShaped(l) {
      Digits(BitOr(High(l.subId), l.channel.value / 16), l.channel.value % 16, High(k.subId), Low(k.subId));
    }
  }

  /** So in every reachable state, restores included, two lights are controlled through the same route exactly
      when their keys say so. */
  lemma LightsShareExactly(s: System, run: seq<Input>, k: Key, l: Key)
    requires Routed(s.devices) && IsLight(k) && IsLight(l) && k != l
    ensures var devices := Final(s, run).devices;
      k in devices && l in devices ==> (devices[k].route == devices[l].route <==> ShareRoute(k, l))
  {
    LightsAreRouted(s, run);
    RoutesSharedExactly(k, l);
  }

  /** It does happen: a plain light restored next to the same channel of its group. */
  lemma RestoredLightMayShareRoute(devices: Devices, group: byte, channel: nat)
    requires devices == map[] && 1 <= group <= 14 && 1 <= channel <= 14
    ensures var both := RestoreDevice(RestoreDevice(devices, LIGHT, 16 * group + channel, None, []),
                                      LIGHT, 16 * group + 15, Some(channel), []);
            both[DeviceKey(LIGHT, 16 * group + channel, None)].route
            == both[DeviceKey(LIGHT, 16 * group + 15, Some(channel))].route
  {
    GroupRoute(16 * group + 15, channel);
  }
}
