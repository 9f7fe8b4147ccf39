/** Laws of whole runs of the codec: conservation on arbitrary bytes, exact delivery of well-formed
    streams, and exactly which moves depend on how the stream was cut. */
module CodecLaws {
  import opened Bytes
  import opened Frames
  import opened Wrappers
  import opened Scanner
  import opened CodecStep
  import opened CodecState

  /** An emitted frame re-encodes, from its own fields, to the very slice of input it was cut from. */
  ghost predicate Sound(cfg: Config, s: Segment<KsFrame>) {
    s.Emitted? ==> s.frame.raw == s.raw && ReEncodes(cfg, s.frame)
  }

  lemma RunIsSound(cfg: Config, buf: bytes)
    ensures forall s :: s in Run(Stepper(cfg), buf).segments ==> Sound(cfg, s)
  {
    forall s | s in Run(Stepper(cfg), buf).segments
      ensures Sound(cfg, s)
    {
      var at := RunSegments(Stepper(cfg), buf, s);
      if s.Emitted? {
        EmitsOnlyEncodings(cfg, at);
      }
    }
  }

  lemma LostBytes(gone: bytes)
    ensures BytesOf<KsFrame>([Lost(gone)]) == gone
  {
    var one: seq<Segment<KsFrame>> := [Lost(gone)];
    assert one[1..] == [];
    assert gone + [] == gone;
  }

  lemma EffectConserves(cfg: Config, timeout: Time, s: State, e: Event)
    requires ValidState(cfg, s)
    ensures var (t, cuts) := Effect(cfg, timeout, s, e);
            && ValidState(cfg, t) && |t.buf| <= 261
            && BytesOf(cuts) + t.buf == s.buf + Input([e])
            && forall c :: c in cuts ==> Sound(cfg, c)
  {
    if e.Fed? {
      FedIsConserving(cfg, timeout, s, e.data, e.entered, e.finished);
      assert Input([e]) == e.data;
    } else {
      LostBytes(s.buf);
      if s.buf != [] {
        WaitingIsShort(cfg, s.buf);
      }
    }
  }

  lemma FedIsConserving(cfg: Config, timeout: Time, s: State, data: bytes, entered: Time, finished: Time)
    requires ValidState(cfg, s)
    ensures var (t, cuts) := Effect(cfg, timeout, s, Fed(data, entered, finished));
            && ValidState(cfg, t) && |t.buf| <= 261
            && BytesOf(cuts) + t.buf == s.buf + data
            && forall c :: c in cuts ==> Sound(cfg, c)
  {
    LostBytes(s.buf);
    var (t, lost) := Polling(timeout, s, entered);
    var whole := t.buf + data;
    FedConserves(cfg, s.buf, t.buf, lost, data);
    RunIsSound(cfg, whole);
    RunSettles(cfg, whole);
  }

  lemma RunSettles(cfg: Config, whole: bytes)
    ensures var rest := Run(Stepper(cfg), whole).rest;
            rest != [] ==> HeadStep(cfg, rest) == Wait && |rest| <= 261
  {
    RunStops(Stepper(cfg), whole);
    var rest := Run(Stepper(cfg), whole).rest;
    if rest != [] {
      WaitingIsShort(cfg, rest);
    }
  }

  lemma FedConserves(cfg: Config, before: bytes, kept: bytes, lost: seq<Segment<KsFrame>>, data: bytes)
    requires BytesOf(lost) + kept == before
    ensures var r := Run(Stepper(cfg), kept + data); BytesOf(lost + r.segments) + r.rest == before + data
  {
    var r := Run(Stepper(cfg), kept + data);
    RunConserves(Stepper(cfg), kept + data);
    BytesOfConcat(lost, r.segments);
    ConcatAssociates(BytesOf(lost), BytesOf(r.segments), r.rest);
    ConcatAssociates(BytesOf(lost), kept, data);
  }

  /** On arbitrary bytes, chunks, clock readings, polls and resets: the input is, byte for byte and in
      order, what was dropped, lost to expiry or reset, emitted and buffered. So emitted frames stand on
      disjoint slices in stream order, no expired byte is part of a later frame, and the buffer is a suffix
      of the input. Each emitted frame re-encodes to its slice. */
  lemma {:induction false} RunConservation(cfg: Config, timeout: Time, s: State, events: seq<Event>)
    requires ValidState(cfg, s)
    ensures var (t, cuts) := After(cfg, timeout, s, events);
            && ValidState(cfg, t)
            && (events != [] ==> |t.buf| <= 261)
            && BytesOf(cuts) + t.buf == s.buf + Input(events)
            && forall c :: c in cuts ==> Sound(cfg, c)
    decreases |events|
  {
    if events == [] {
      assert s.buf + [] == s.buf;
    } else {
      var (t, cuts) := Effect(cfg, timeout, s, events[0]);
      var (u, later) := After(cfg, timeout, t, events[1..]);
      EffectConserves(cfg, timeout, s, events[0]);
      RunConservation(cfg, timeout, t, events[1..]);
      BytesOfConcat(cuts, later);
      ConcatAssociates(BytesOf(cuts), BytesOf(later), u.buf);
      ConcatAssociates(BytesOf(cuts), t.buf, Input(events[1..]));
      assert Input([events[0]]) == (if events[0].Fed? then events[0].data else []);
      ConcatAssociates(s.buf, Input([events[0]]), Input(events[1..]));
    }
  }

  /** The timer: while a fragment is pending, neither more bytes nor rejected headers restart it; only an
      emitted frame does. */
  lemma OnlyFramesRestartTheTimer(cfg: Config, timeout: Time, s: State, e: Event)
    requires ValidState(cfg, s) && s.fragmentStarted.Some?
    ensures var (t, cuts) := Effect(cfg, timeout, s, e);
            t.fragmentStarted != s.fragmentStarted && t.fragmentStarted.Some? ==>
              e.Fed? && (FramesOf(cuts) != [] || Expired(s.fragmentStarted, timeout, e.entered))
  {
    if e.Fed? {
      var (_, lost) := Polling(timeout, s, e.entered);
      var t := Polling(timeout, s, e.entered).0;
      FramesOfConcat(lost, Run(Stepper(cfg), t.buf + e.data).segments);
    }
  }

  /** After a feed the timer is off without a fragment, shows the end of the feed when a frame was emitted or the
      fragment is new, and otherwise what it showed; a fragment as old as the timeout counts as gone. */
  lemma TimerExactly(cfg: Config, timeout: Time, s: State, data: bytes, entered: Time, finished: Time)
    requires ValidState(cfg, s)
    ensures var (t, cuts) := Effect(cfg, timeout, s, Fed(data, entered, finished));
      var outdated := s.fragmentStarted.Some? && entered - s.fragmentStarted.value >= timeout;
      t.fragmentStarted == if t.buf == [] then None
                           else if FramesOf(cuts) != [] || s.fragmentStarted.None? || outdated then Some(finished)
                           else s.fragmentStarted
    ensures var (t, cuts) := Effect(cfg, timeout, s, Polled(entered));
      t == if s.fragmentStarted.Some? && entered - s.fragmentStarted.value >= timeout then State([], None) else s
  {
    var (t, lost) := Polling(timeout, s, entered);
    FramesOfConcat(lost, Run(Stepper(cfg), t.buf + data).segments);
  }

  /** What a sender may put on the wire: line noise, an F7 frame, or an STX frame. */
  datatype Sending = Gap(noise: bytes) | SendF7(frame: Frame) | SendStx(addr: int, cmd: int, payload: bytes)

  /** The frame a receiver should see for an STX packet: the fields it was built from, each masked to its byte. */
  function StxOriginal(cfg: Config, addr: int, cmd: int, payload: bytes): KsFrame {
    var raw := Build(cfg, addr, cmd, payload);
    KsFrame(addr % 256, 0, cmd % 256, payload, raw[|raw| - 2], raw)
  }

  function ItemOf(cfg: Config, w: Sending): Item<KsFrame> {
    match w
    case Gap(noise) => Noise(noise)
    case SendF7(f) => Packet(F7Frame(f, ToBytes(f)), ToBytes(f))
    case SendStx(addr, cmd, payload) => Packet(StxOriginal(cfg, addr, cmd, payload), Build(cfg, addr, cmd, payload))
  }

  function Items(cfg: Config, wire: seq<Sending>): (items: seq<Item<KsFrame>>)
    ensures |items| == |wire|
    ensures forall i :: 0 <= i < |wire| ==> items[i] == ItemOf(cfg, wire[i])
  {
    seq(|wire|, i requires 0 <= i < |wire| => ItemOf(cfg, wire[i]))
  }

  /** Noise holds no header byte, STX payloads fit the length field, and F7 frames are sent only where
      F7 is not configured as the STX header. */
  predicate WellFormed(cfg: Config, w: Sending) {
    match w
    case Gap(noise) => cfg.stx !in noise && HEADER !in noise
    case SendF7(_) => cfg.stx != HEADER
    case SendStx(_, _, payload) => |payload| <= 255
  }

  lemma WellFormedIsUnderstood(cfg: Config, w: Sending)
    requires WellFormed(cfg, w)
    ensures Understood(Stepper(cfg), ItemOf(cfg, w))
  {
    var it := ItemOf(cfg, w);
    if it.Packet? {
      forall buf: bytes
        ensures it.raw <= buf ==> Stepper(cfg)(buf) == Emit(it.frame, |it.raw|)
        ensures buf != [] && buf < it.raw ==> Stepper(cfg)(buf) == Wait
      {
        match w
        case SendF7(f) => StepOnF7Packet(cfg, f, buf);
        case SendStx(addr, cmd, payload) => StepOnStxPacket(cfg, addr, cmd, payload, buf);
      }
    }
  }

  function Chunks(events: seq<Event>): seq<bytes> {
    if events == [] then []
    else (if events[0].Fed? then [events[0].data] else []) + Chunks(events[1..])
  }

  /** Only feeds, and none of them finds an expired fragment. */
  ghost predicate Unexpired(cfg: Config, timeout: Time, s: State, events: seq<Event>)
    decreases |events|
  {
    events == [] || (
      && events[0].Fed?
      && !Expired(s.fragmentStarted, timeout, events[0].entered)
      && Unexpired(cfg, timeout, Effect(cfg, timeout, s, events[0]).0, events[1..])
    )
  }

  /** Without expiry the calls are plain feeding. */
  lemma {:induction false} EventsFeed(
    cfg: Config, timeout: Time, s: State, events: seq<Event>, before: seq<Segment<KsFrame>>)
    requires Unexpired(cfg, timeout, s, events)
    ensures var (t, cuts) := After(cfg, timeout, s, events);
            FeedAll(Stepper(cfg), Scan(before, s.buf), Chunks(events)) == Scan(before + cuts, t.buf)
    decreases |events|
  {
    if events == [] {
      assert before + [] == before;
    } else {
      var (t, cuts) := Effect(cfg, timeout, s, events[0]);
      var r := Run(Stepper(cfg), s.buf + events[0].data);
      assert [] + r.segments == r.segments;
      assert cuts == r.segments;
      EventsFeed(cfg, timeout, t, events[1..], before + cuts);
      ConcatAssociates(before, cuts, After(cfg, timeout, t, events[1..]).1);
      var chunks := Chunks(events);
      assert chunks[0] == events[0].data && chunks[1..] == Chunks(events[1..]);
    }
  }

  /** Exact delivery. Packets of both framings, separated by header-free noise, and cut into any chunks
      (empty ones included): a fresh codec whose fragments never expire emits exactly the packets sent, in
      order, with their original fields, whatever header bytes or nested frames their payloads hold, and
      keeps nothing. */
  lemma ExactDelivery(cfg: Config, timeout: Time, wire: seq<Sending>, events: seq<Event>)
    requires forall w :: w in wire ==> WellFormed(cfg, w)
    requires Unexpired(cfg, timeout, State([], None), events)
    requires Flatten(Chunks(events)) == Stream(Items(cfg, wire))
    ensures var (t, cuts) := After(cfg, timeout, State([], None), events);
            FramesOf(cuts) == Sent(Items(cfg, wire)) && t.buf == []
  {
    var step, items, chunks := Stepper(cfg), Items(cfg, wire), Chunks(events);
    forall i | 0 <= i < |items|
      ensures Understood(step, items[i])
    {
      assert wire[i] in wire;
      WellFormedIsUnderstood(cfg, wire[i]);
    }
    assert [] + Flatten(chunks) == Stream(items);
    StreamDelivered(step, items, Scan([], []), chunks);
    EventsFeed(cfg, timeout, State([], None), events, []);
    var cuts := After(cfg, timeout, State([], None), events).1;
    assert [] + cuts == cuts;
  }

  /** The length condition is exact: an STX packet comes back with its payload just when the payload fits
      the masked length field. */
  lemma StxPayloadMustFit(cfg: Config, addr: int, cmd: int, payload: bytes)
    ensures |payload| <= 255 <==>
            FramesOf(Run(Stepper(cfg), Build(cfg, addr, cmd, payload)).segments) == [StxOriginal(cfg, addr, cmd, payload)]
  {
    var raw := Build(cfg, addr, cmd, payload);
    var r := Run(Stepper(cfg), raw);
    if |payload| <= 255 {
      var items := Items(cfg, [SendStx(addr, cmd, payload)]);
      WellFormedIsUnderstood(cfg, SendStx(addr, cmd, payload));
      WholeStreamConsumed(Stepper(cfg), items);
      assert items[1..] == [] && Stream(items) == raw + [] == raw;
      assert Sent(items) == [StxOriginal(cfg, addr, cmd, payload)] + [];
    } else if FramesOf(r.segments) == [StxOriginal(cfg, addr, cmd, payload)] {
      var s := FrameComesFromSegment(r.segments, StxOriginal(cfg, addr, cmd, payload));
      RunIsSound(cfg, raw);
    }
  }

  lemma {:induction false} FrameComesFromSegment(segments: seq<Segment<KsFrame>>, f: KsFrame)
    returns (s: Segment<KsFrame>)
    requires f in FramesOf(segments)
    ensures s in segments && s.Emitted? && s.frame == f
  {
    s := segments[0];
    if !(s.Emitted? && s.frame == f) {
      s := FrameComesFromSegment(segments[1..], f);
    }
  }

  /** No move of the run over `a` resumes at an F7 candidate that has not arrived whole. */
  ghost predicate Cautious(cfg: Config, a: bytes)
    decreases |a|
  {
    a != [] && Moves(HeadStep(cfg, a), a) ==>
      !Speculative(cfg, a) && Cautious(cfg, a[Advance(HeadStep(cfg, a))..])
  }

  /** Feeding `a` and then `b` does what feeding both at once does. */
  ghost predicate CutIsHarmless(cfg: Config, a: bytes, b: bytes) {
    Run(Stepper(cfg), a + b) == Then(Run(Stepper(cfg), a), Run(Stepper(cfg), Run(Stepper(cfg), a).rest + b))
  }

  lemma GuessIsRefuted(cfg: Config, a: bytes) returns (b: bytes)
    requires a != [] && Moves(HeadStep(cfg, a), a) && Speculative(cfg, a)
    ensures !CutIsHarmless(cfg, a, b)
  {
    b := SpeculationCanFail(cfg, a);
    RunInTwo(Stepper(cfg), a, b);
  }

  lemma SoundMoveIsKept(cfg: Config, a: bytes, b: bytes)
    requires a != [] && Moves(HeadStep(cfg, a), a) && !Speculative(cfg, a)
    ensures CutIsHarmless(cfg, a, b) <==> CutIsHarmless(cfg, a[Advance(HeadStep(cfg, a))..], b)
  {
    MovesAreSettled(cfg, a, b);
    SameAfterStep(Stepper(cfg), a, b);
  }

  lemma StoppedIsHarmless(cfg: Config, a: bytes, b: bytes)
    requires a == [] || !Moves(HeadStep(cfg, a), a)
    ensures CutIsHarmless(cfg, a, b)
  {
    RunInTwo(Stepper(cfg), a, b);
  }

  /** On arbitrary bytes, corrupt ones included, a cut behind `a` changes nothing, whatever follows, if and only if
      no move over `a` is a guess about an F7 frame that has not arrived whole. */
  lemma {:induction false} CutsAreHarmless(cfg: Config, a: bytes)
    ensures Cautious(cfg, a) <==> forall b: bytes :: CutIsHarmless(cfg, a, b)
    decreases |a|
  {
    if a == [] || !Moves(HeadStep(cfg, a), a) {
      forall b: bytes ensures CutIsHarmless(cfg, a, b) { StoppedIsHarmless(cfg, a, b); }
    } else if Speculative(cfg, a) {
      var b := GuessIsRefuted(cfg, a);
    } else {
      var later := a[Advance(HeadStep(cfg, a))..];
      CutsAreHarmless(cfg, later);
      forall b: bytes ensures CutIsHarmless(cfg, a, b) <==> CutIsHarmless(cfg, later, b) { SoundMoveIsKept(cfg, a, b); }
    }
  }

  /** A single move survives every continuation exactly when it is not such a guess. */
  lemma OnlySpeculationDependsOnCuts(cfg: Config, a: bytes)
    requires a != [] && HeadStep(cfg, a) != Wait
    ensures !Speculative(cfg, a) <==> forall b: bytes :: HeadStep(cfg, a + b) == HeadStep(cfg, a)
  {
    if Speculative(cfg, a) {
      var b := SpeculationCanFail(cfg, a);
    } else {
      forall b: bytes
        ensures HeadStep(cfg, a + b) == HeadStep(cfg, a)
      {
        MovesAreSettled(cfg, a, b);
      }
    }
  }

  const PLAIN: Config := Config(2, 3, Sum8)

  /** A complete STX frame for `PLAIN`. */
  const INNER: bytes := [2, 1, 1, 0, 2, 3]

  lemma InnerIsAFrame(after: bytes)
    ensures HeadStep(PLAIN, INNER + after) == Emit(StxFrame(INNER), 6)
  {
    var buf := INNER + after;
    assert buf[..6] == INNER && INNER[1..4] == [1, 1, 0];
    assert Sum([1, 1, 0]) == 2 by {
      SumsOfConcat([1, 1], [0]);
      SumsOfConcat([1], [1]);
      assert [1, 1] + [0] == [1, 1, 0] && [1] + [1] == [1, 1];
    }
  }

  /** An F7 frame with wrong checksums whose payload is `INNER` followed by an F7 byte. */
  ghost predicate Corrupt(a: bytes) {
    && |a| == 14
    && a[..12] == [0xF7, 0, 0, 0, 7] + INNER + [0xF7]
    && a[12] != 0xF7 && a[13] != 0xF7
    && FromBytes(a).Err?
  }

  lemma CorruptFrame() returns (a: bytes)
    ensures Corrupt(a)
  {
    var f: Frame := RawFrame(0, 0, 0, INNER + [0xF7]);
    var raw := ToBytes(f);
    a := raw[12 := if raw[12] == 0 then 1 else 0][13 := 0];
    assert a[..12] == raw[..12] == WithoutChecksums(f);
  }

  /** The first run cannot tell whether the F7 byte at offset 11 starts a frame, and drops `INNER`. */
  lemma GuessDropsInner(a: bytes)
    requires Corrupt(a)
    ensures Run(Stepper(PLAIN), a) == Scan([Skipped(a[..11], true)], a[11..])
  {
    var head := a[..12];
    assert forall k :: 0 <= k < 12 ==> a[k] == head[k];
    assert a[..14] == a;
    assert PlausibleF7At(a, 11);
    assert HeadStep(PLAIN, a) == Skip(11, true);
    assert HeadStep(PLAIN, a[11..]) == Wait;
  }

  lemma LookingAheadRefutes(a: bytes, b: bytes)
    requires Corrupt(a) && !PlausibleF7At(a + b, 11)
    ensures HeadStep(PLAIN, a + b) == Skip(1, true)
  {
    var whole, head := a + b, a[..12];
    assert forall k :: 0 <= k < 12 ==> whole[k] == head[k];
    assert whole[..14] == a;
    assert forall k :: 5 <= k < 14 ==> !PlausibleF7At(whole, k);
  }

  lemma CorruptShape(a: bytes, b: bytes)
    requires Corrupt(a)
    ensures (a + b)[1..] == [0, 0, 0, 7] + (INNER + (a[11..] + b))
  {
    var head := a[..12];
    assert forall k :: 0 <= k < 12 ==> a[k] == head[k];
  }

  lemma NoiseBeforeInner(tail: bytes)
    ensures FramesOf(Run(Stepper(PLAIN), [0, 0, 0, 7] + (INNER + tail)).segments)
            == FramesOf(Run(Stepper(PLAIN), INNER + tail).segments)
  {
    RunDropsNoise(Stepper(PLAIN), [0, 0, 0, 7], INNER + tail);
  }

  lemma RunSkipsOne(buf: bytes)
    requires buf != [] && HeadStep(PLAIN, buf) == Skip(1, true)
    ensures FramesOf(Run(Stepper(PLAIN), buf).segments) == FramesOf(Run(Stepper(PLAIN), buf[1..]).segments)
  {
    assert Run(Stepper(PLAIN), buf).segments[1..] == Run(Stepper(PLAIN), buf[1..]).segments;
  }

  /** With the continuation present, the candidate at offset 11 is refuted and `INNER` is found. */
  lemma LookingAheadKeepsInner(a: bytes, b: bytes)
    requires Corrupt(a)
    requires !PlausibleF7At(a + b, 11)
    ensures FramesOf(Run(Stepper(PLAIN), a + b).segments)
            == [StxFrame(INNER)] + FramesOf(Run(Stepper(PLAIN), a[11..] + b).segments)
  {
    LookingAheadRefutes(a, b);
    RunSkipsOne(a + b);
    CorruptShape(a, b);
    NoiseBeforeInner(a[11..] + b);
    RunTakesInner(a[11..] + b);
  }

  lemma RunTakesInner(tail: bytes)
    ensures FramesOf(Run(Stepper(PLAIN), INNER + tail).segments)
            == [StxFrame(INNER)] + FramesOf(Run(Stepper(PLAIN), tail).segments)
  {
    InnerIsAFrame(tail);
    assert (INNER + tail)[6..] == tail;
    assert Run(Stepper(PLAIN), INNER + tail).segments[1..] == Run(Stepper(PLAIN), tail).segments;
  }

  /** Cuts do matter on some corrupt bytes: the same bytes, fed in one piece, yield one frame more than fed
      in two. */
  lemma CutsCanMatter() returns (a: bytes, b: bytes)
    ensures FramesOf(Run(Stepper(PLAIN), a + b).segments)
            == [StxFrame(INNER)] + (FramesOf(Run(Stepper(PLAIN), a).segments)
                                    + FramesOf(Run(Stepper(PLAIN), Run(Stepper(PLAIN), a).rest + b).segments))
  {
    a := CorruptFrame();
    GuessDropsInner(a);
    assert a[11] == a[..12][11];
    b := SpoilCandidate(a, 11);
    LookingAheadKeepsInner(a, b);
    var again := FramesOf(Run(Stepper(PLAIN), a[11..] + b).segments);
    assert [] + again == again;
  }
}
