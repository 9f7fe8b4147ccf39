/** Whole runs of the guarded registry: every registered device is accounted for. */
module GuardedTrace {
  import opened Bytes
  import opened Wrappers
  import opened Dicts
  import opened Evidence
  import opened GuardState
  import opened GuardTrace
  import opened Registry
  import opened GuardedState

  /** Frames from the bus, restores of saved keys, and everything else that happens to the guard. */
  datatype Input =
    | FrameIn(p: Packet, now: Time, linkHealthy: bool)
    | Restored(addr: byte, subId: byte, channel: Option<nat>, zones: seq<nat>)
    | Other(h: Happening)

  datatype System = System(devices: Devices, guard: Guard)

  predicate Legal(i: Input) {
    i.Other? ==> !i.h.Observed?
  }

  /** What the guard is asked, or told, about a frame. */
  function Asks(before: Devices, p: Packet, now: Time, linkHealthy: bool): (asks: seq<Happening>)
    ensures |asks| <= 1
  {
    if !Examined(before, p) then []
    else if ValidResponsePayload(p.addr, p.cmd, p.payload) then [Observed(Proposal(before, p), now, linkHealthy)]
    else if Proposal(before, p).keys != {} then [Noted(Proposal(before, p), InvalidCandidatePayload, now)]
    else []
  }

  /** What the guard gets to see of a frame. */
  function Seen(before: Devices, p: Packet, now: Time, linkHealthy: bool): seq<Happening> {
    [Heard(p.raw)] + Asks(before, p, now, linkHealthy)
  }

  function Step(s: System, i: Input): System {
    match i
    case FrameIn(p, now, linkHealthy) =>
      System(DevicesAfter(s.devices, s.guard, p, now, linkHealthy), GuardAfter(s.devices, s.guard, p, now, linkHealthy))
    case Restored(addr, subId, channel, zones) =>
      s.(devices := RestoreDevice(s.devices, addr, subId, channel, zones))
    case Other(h) => s.(guard := Do(s.guard, h))
  }

  function GuardEvents(s: System, i: Input): seq<Happening> {
    match i
    case FrameIn(p, now, linkHealthy) => Seen(s.devices, p, now, linkHealthy)
    case Restored(_, _, _, _) => []
    case Other(h) => [h]
  }

  function Final(s: System, run: seq<Input>): System {
    if run == [] then s else Step(Final(s, run[..|run| - 1]), run[|run| - 1])
  }

  /** The run as the guard saw it. */
  function GuardRun(s: System, run: seq<Input>): seq<Happening> {
    if run == [] then []
    else
      var past := run[..|run| - 1];
      GuardRun(s, past) + GuardEvents(Final(s, past), run[|run| - 1])
  }

  lemma AfterOne(g: Guard, run: seq<Happening>, h: Happening)
    ensures After(g, run + [h]) == Do(After(g, run), h)
  {
    assert (run + [h])[..|run|] == run;
  }

  lemma ObservingIsDone(before: Devices, g: Guard, p: Packet, now: Time, linkHealthy: bool)
    requires Examined(before, p) && ValidResponsePayload(p.addr, p.cmd, p.payload)
    ensures GuardAfter(before, g, p, now, linkHealthy) == Do(Listening(g, p), Observed(Proposal(before, p), now, linkHealthy))
  {
  }

  lemma NotingIsDone(before: Devices, g: Guard, p: Packet, now: Time, linkHealthy: bool)
    requires Examined(before, p) && !ValidResponsePayload(p.addr, p.cmd, p.payload) && Proposal(before, p).keys != {}
    ensures GuardAfter(before, g, p, now, linkHealthy)
            == Do(Listening(g, p), Noted(Proposal(before, p), InvalidCandidatePayload, now))
  {
  }

  /** The guard after the question, if there is one. */
  function Served(g: Guard, asks: seq<Happening>): Guard {
    if asks == [] then g else Do(g, asks[0])
  }

  /** A frame does to the guard what the events it is seen as do, one after the other. */
  lemma FrameIsSeen(before: Devices, g: Guard, p: Packet, now: Time, linkHealthy: bool)
    ensures GuardAfter(before, g, p, now, linkHealthy) == Served(Listening(g, p), Asks(before, p, now, linkHealthy))
  {
    if Examined(before, p) {
      if ValidResponsePayload(p.addr, p.cmd, p.payload) {
        ObservingIsDone(before, g, p, now, linkHealthy);
      } else if Proposal(before, p).keys != {} {
        NotingIsDone(before, g, p, now, linkHealthy);
      }
    }
  }

  lemma AfterAsking(g: Guard, run: seq<Happening>, heard: Happening, asks: seq<Happening>)
    requires |asks| <= 1
    ensures After(g, run + ([heard] + asks)) == Served(Do(After(g, run), heard), asks)
  {
    AfterOne(g, run, heard);
    if asks == [] {
      assert [heard] + asks == [heard];
    } else {
      AfterOne(g, run + [heard], asks[0]);
      assert run + ([heard] + asks) == run + [heard] + [asks[0]];
    }
  }

  /** The guard of the system is the guard of that run. */
  lemma GuardFollows(g: Guard, run: seq<Happening>, s: System, i: Input)
    requires s.guard == After(g, run)
    ensures Step(s, i).guard == After(g, run + GuardEvents(s, i))
  {
    match i
    case FrameIn(p, now, linkHealthy) => FrameFollows(g, run, s, p, now, linkHealthy);
    case Restored(_, _, _, _) =>
      assert run + [] == run;
    case Other(h) =>
      AfterOne(g, run, h);
  }

  lemma FrameFollows(g: Guard, run: seq<Happening>, s: System, p: Packet, now: Time, linkHealthy: bool)
    requires s.guard == After(g, run)
    ensures GuardAfter(s.devices, s.guard, p, now, linkHealthy)
            == After(g, run + Seen(s.devices, p, now, linkHealthy))
  {
    var asks := Asks(s.devices, p, now, linkHealthy);
    FrameIsSeen(s.devices, s.guard, p, now, linkHealthy);
    HearingIs(s.guard, p);
    AfterAsking(g, run, Heard(p.raw), asks);
  }

  lemma HearingIs(g: Guard, p: Packet)
    ensures Do(g, Heard(p.raw)) == Listening(g, p)
  {
  }

  lemma {:induction false} SystemGuard(s: System, run: seq<Input>)
    ensures Final(s, run).guard == After(s.guard, GuardRun(s, run))
  {
    if run != [] {
      var past := run[..|run| - 1];
      SystemGuard(s, past);
      GuardFollows(s.guard, GuardRun(s, past), Final(s, past), run[|run| - 1]);
    }
  }

  /** Frame `n` was admitted, with verification on and the required observations and approval behind it. */
  ghost predicate AdmittedAt(s: System, run: seq<Input>, n: nat)
    requires n < |run| && run[n].FrameIn?
  {
    var before := Final(s, run[..n]);
    var (p, now, linkHealthy) := (run[n].p, run[n].now, run[n].linkHealthy);
    && Admitted(before.devices, before.guard, p, now, linkHealthy)
    && before.guard.verification
    && exists story :: Backed(s.guard, GuardRun(s, run[..n]) + Seen(before.devices, p, now, linkHealthy), story)
  }

  ghost predicate RaisesAt(s: System, run: seq<Input>, n: nat)
    requires n < |run| && run[n].FrameIn?
  {
    var before := Final(s, run[..n]);
    Raises(before.devices, before.guard, run[n].p, run[n].now, run[n].linkHealthy)
  }

  /** Input `n` accounts for device `k`: it restored it; or it was a frame that proposed this key, not registered
      before, and the frame was admitted or made the registry raise. */
  ghost predicate AccountsFor(s: System, run: seq<Input>, n: nat, k: Key)
    requires n < |run|
  {
    var before := Final(s, run[..n]).devices;
    match run[n]
    case Restored(addr, subId, channel, _) => k == DeviceKey(addr, subId, channel)
    case Other(_) => false
    case FrameIn(p, _, _) =>
      k !in before && k in Proposal(before, p).keys && (RaisesAt(s, run, n) || AdmittedAt(s, run, n))
  }

  lemma AdmittedIsSeen(before: Devices, g: Guard, p: Packet, now: Time, linkHealthy: bool)
    requires Admitted(before, g, p, now, linkHealthy)
    ensures Seen(before, p, now, linkHealthy) == [Heard(p.raw), Observed(Proposal(before, p), now, linkHealthy)]
    ensures Observe(Listening(g, p), Proposal(before, p), now, linkHealthy).1 == Yes
  {
  }

  lemma HearingIsListening(g: Guard, run: seq<Happening>, p: Packet)
    ensures After(g, run + [Heard(p.raw)]) == Listening(After(g, run), p)
  {
    AfterOne(g, run, Heard(p.raw));
  }

  lemma AdmittedIsBacked(s: System, past: seq<Input>, p: Packet, now: Time, linkHealthy: bool)
    requires Initial(s.guard)
    ensures var before := Final(s, past);
      Admitted(before.devices, before.guard, p, now, linkHealthy) && Proposal(before.devices, p).keys != {} ==>
        && before.guard.verification
        && exists story :: Backed(s.guard, GuardRun(s, past) + Seen(before.devices, p, now, linkHealthy), story)
  {
    var before := Final(s, past);
    var o := Proposal(before.devices, p);
    if Admitted(before.devices, before.guard, p, now, linkHealthy) && o.keys != {} {
      AdmittedIsSeen(before.devices, before.guard, p, now, linkHealthy);
      SystemGuard(s, past);
      var story := HeardIsBacked(s.guard, GuardRun(s, past), p, o, now, linkHealthy);
    }
  }

  /** The guard that hears of a frame and admits its proposal has a story to tell. */
  lemma HeardIsBacked(g: Guard, run: seq<Happening>, p: Packet, o: Observation, now: Time, linkHealthy: bool)
    returns (story: Story)
    requires Initial(g) && o.keys != {}
    requires Observe(Listening(After(g, run), p), o, now, linkHealthy).1 == Yes
    ensures Backed(g, run + [Heard(p.raw), Observed(o, now, linkHealthy)], story) && After(g, run).verification
  {
    HearingIsListening(g, run, p);
    var asked := Observed(o, now, linkHealthy);
    story := AdmissionIsBacked(g, run + [Heard(p.raw)], asked);
    assert run + [Heard(p.raw), asked] == run + [Heard(p.raw)] + [asked];
  }

  lemma StepAccounts(s: System, past: seq<Input>, i: Input, k: Key)
    requires Initial(s.guard) && Legal(i)
    ensures k in Step(Final(s, past), i).devices && k !in Final(s, past).devices ==> AccountsFor(s, past + [i], |past|, k)
  {
    var before := Final(s, past);
    assert (past + [i])[..|past|] == past;
    if i.FrameIn? && k in Step(before, i).devices && k !in before.devices {
      OnlyAdmissionAdds(before.devices, before.guard, i.p, i.now, i.linkHealthy);
      assert k in Added(before.devices, before.guard, i.p, i.now, i.linkHealthy);
      AdmittedIsBacked(s, past, i.p, i.now, i.linkHealthy);
    }
  }

  lemma AccountsForLater(s: System, run: seq<Input>, i: Input, n: nat, k: Key)
    requires n < |run|
    ensures AccountsFor(s, run + [i], n, k) == AccountsFor(s, run, n, k)
  {
    assert (run + [i])[..n] == run[..n];
  }

  /** In every run of frames, restores, reviews, probes and clock moves, starting from any registered
      devices and a guard without candidates: every device registered at the end was there at the start or
      is accounted for by one input, and no registered device is ever removed. */
  lemma {:induction false} EveryDeviceIsAccountedFor(s: System, run: seq<Input>, k: Key)
    requires Initial(s.guard) && forall i :: i in run ==> Legal(i)
    ensures k in Final(s, run).devices && k !in s.devices ==> exists n :: 0 <= n < |run| && AccountsFor(s, run, n, k)
    ensures k in s.devices ==> k in Final(s, run).devices
  {
    if run != [] {
      var past, i := run[..|run| - 1], run[|run| - 1];
      assert run == past + [i];
      EveryDeviceIsAccountedFor(s, past, k);
      var before := Final(s, past);
      if i.FrameIn? {
        RegisteredStay(before.devices, before.guard, i.p, i.now, i.linkHealthy);
      }
      if k in Final(s, run).devices && k !in s.devices {
        if k in before.devices {
          var n :| 0 <= n < |past| && AccountsFor(s, past, n, k);
          AccountsForLater(s, past, i, n, k);
        } else {
          StepAccounts(s, past, i, k);
        }
      }
    }
  }

  // ---- Runs in which nothing raises ----

  /** Every frame of the run is one the decoder accepts, and proposes no more keys than an event may name. */
  ghost predicate Tame(s: System, run: seq<Input>)
    decreases |run|
  {
    run == [] || (Tame(s, run[..|run| - 1]) && TameNext(Final(s, run[..|run| - 1]).devices, run[|run| - 1]))
  }

  ghost predicate TameNext(before: Devices, i: Input) {
    Legal(i) && (i.FrameIn? ==> !Oversized(i.p) && Recordable(Proposal(before, i.p)))
  }

  lemma OtherStaysRecordable(g: Guard, h: Happening)
    requires Complete(g.pending) && AllRecordable(g) && !h.Observed?
    ensures AllRecordable(Do(g, h))
  {
    if h.Ticked? || h.Reviewed? {
      ExpireDrops(g, h.now);
      if h.Reviewed? { DecidedHere(Expired(g, h.now).0, h.endpoint, h.approve, h.now); }
    }
  }

  lemma FrameStaysRecordable(before: Devices, g: Guard, p: Packet, now: Time, linkHealthy: bool)
    requires Complete(g.pending) && AllRecordable(g) && !Oversized(p) && Recordable(Proposal(before, p))
    ensures !Raises(before, g, p, now, linkHealthy) && AllRecordable(GuardAfter(before, g, p, now, linkHealthy))
  {
    ObserveRaisesExactly(Listening(g, p), Proposal(before, p), now, linkHealthy);
  }

  lemma {:induction false} TameRunsStayRecordable(s: System, run: seq<Input>)
    requires Initial(s.guard) && Tame(s, run)
    ensures AllRecordable(Final(s, run).guard) && Complete(Final(s, run).guard.pending)
    decreases |run|
  {
    SystemGuard(s, run);
    EveryCandidateHasAStory(s.guard, GuardRun(s, run));
    if run != [] {
      var past, i := run[..|run| - 1], run[|run| - 1];
      TameRunsStayRecordable(s, past);
      var before := Final(s, past);
      match i
      case FrameIn(p, now, linkHealthy) => FrameStaysRecordable(before.devices, before.guard, p, now, linkHealthy);
      case Restored(_, _, _, _) =>
      case Other(h) => OtherStaysRecordable(before.guard, h);
    }
  }

  lemma {:induction false} TamePrefix(s: System, run: seq<Input>, n: nat)
    requires Tame(s, run) && n < |run|
    ensures Tame(s, run[..n]) && TameNext(Final(s, run[..n]).devices, run[n])
    decreases |run|
  {
    var past := run[..|run| - 1];
    assert Tame(s, past);
    if n < |past| {
      TamePrefix(s, past, n);
      assert past[..n] == run[..n] && past[n] == run[n];
    } else {
      assert run[..n] == past;
    }
  }

  /** In such a run no frame makes the registry raise, so a device that was not there at the start was restored or
      admitted, with all that an admission takes. */
  lemma TameRunsOnlyAdmit(s: System, run: seq<Input>, n: nat, k: Key)
    requires Initial(s.guard) && Tame(s, run) && n < |run|
    ensures run[n].FrameIn? ==> !RaisesAt(s, run, n)
    ensures AccountsFor(s, run, n, k) ==> run[n].Restored? || (run[n].FrameIn? && AdmittedAt(s, run, n))
  {
    TamePrefix(s, run, n);
    TameRunsStayRecordable(s, run[..n]);
    var before := Final(s, run[..n]);
    if run[n].FrameIn? {
      FrameStaysRecordable(before.devices, before.guard, run[n].p, run[n].now, run[n].linkHealthy);
    }
  }
}
