/** The incremental F7 stream decoder: a mutable buffer with two counters, proved against the run of a
    step function that looks at one position at a time. */
module FrameStream {
  import opened Bytes
  import opened Frames
  import opened Wrappers
  import opened Scanner

  /** What the front of the buffer calls for. */
  function F7Step(buf: bytes): Step<Frame> {
    if buf == [] then Wait
    else if buf[0] != HEADER then Skip(1, false)
    else if |buf| < 5 || |buf| < buf[4] + FRAME_OVERHEAD then Wait
    else match FromBytes(buf[..buf[4] + FRAME_OVERHEAD])
      case Ok(f) => Emit(f, buf[4] + FRAME_OVERHEAD)
      case Err(_) => Skip(1, true)
  }

  /** Empty, or a frame of which bytes are missing. */
  predicate Unfinished(buf: bytes) {
    buf == [] || (buf[0] == HEADER && (|buf| < 5 || |buf| < buf[4] + FRAME_OVERHEAD))
  }

  class FrameStreamDecoder {
    var buffer: bytes
    var discardedBytes: nat
    var checksumErrors: nat

    constructor ()
      ensures buffer == [] && discardedBytes == 0 && checksumErrors == 0
    {
      buffer, discardedBytes, checksumErrors := [], 0, 0;
    }

    method Clear()
      modifies this`buffer
      ensures buffer == []
    {
      buffer := [];
    }

    method Feed(chunk: bytes) returns (frames: seq<Frame>)
      modifies this
      ensures var r := Run(F7Step, old(buffer) + chunk);
              && frames == FramesOf(r.segments)
              && buffer == r.rest
              && discardedBytes == old(discardedBytes) + Dropped(r.segments)
              && checksumErrors == old(checksumErrors) + Rejections(r.segments)
      ensures Unfinished(buffer)
    {
      ghost var done: seq<Segment<Frame>> := [];
      buffer := buffer + chunk;
      ghost var whole := buffer;
      CameNowhere(whole);
      frames := [];
      while true
        invariant CameTo(whole, done, buffer)
        invariant frames == FramesOf(done)
        invariant discardedBytes == old(discardedBytes) + Dropped(done)
        invariant checksumErrors == old(checksumErrors) + Rejections(done)
        decreases |buffer|
      {
        var headerIndex := IndexFrom(buffer, HEADER, 0);
        done := SkipNoise(whole, done, buffer, headerIndex);
        discardedBytes := discardedBytes + headerIndex;
        buffer := buffer[headerIndex..];
        if |buffer| == 0 {
          break;
        }
        ghost var candidate := buffer;
        var taken, frame := TakeCandidate();
        if !taken {
          break;
        }
        done := TookCandidate(whole, done, candidate);
        frames := frames + frame;
      }
      AfterLast(whole, done, buffer);
    }

    /** The body of the loop, once the buffer starts with a header: wait, emit, or reject. */
    method TakeCandidate() returns (taken: bool, frame: seq<Frame>)
      requires buffer != [] && buffer[0] == HEADER
      modifies this
      ensures !taken ==> Unfinished(buffer) && buffer == old(buffer) && discardedBytes == old(discardedBytes)
      ensures !taken ==> checksumErrors == old(checksumErrors)
      ensures taken ==> Moves(F7Step(old(buffer)), old(buffer))
      ensures taken ==> buffer == old(buffer)[Advance(F7Step(old(buffer)))..]
      ensures taken ==>
                var cut := Cut(F7Step(old(buffer)), old(buffer));
                && frame == FrameOf(cut)
                && discardedBytes == old(discardedBytes) + Dropped([cut])
                && checksumErrors == old(checksumErrors) + Rejections([cut])
    {
      frame := [];
      if |buffer| < 5 {
        return false, [];
      }
      var frameLength := buffer[4] + FRAME_OVERHEAD;
      if |buffer| < frameLength {
        return false, [];
      }
      taken := true;
      match FromBytes(buffer[..frameLength]) {
        case Err(_) =>
          checksumErrors := checksumErrors + 1;
          discardedBytes := discardedBytes + 1;
          buffer := buffer[1..];
        case Ok(f) =>
          buffer := buffer[frameLength..];
          frame := [f];
      }
    }
  }

  /** The run over `whole` has come to `buf`, with `done` cut off. */
  ghost predicate CameTo(whole: bytes, done: seq<Segment<Frame>>, buf: bytes) {
    Run(F7Step, whole) == Then(Scan(done, []), Run(F7Step, buf))
  }

  lemma CameNowhere(whole: bytes)
    ensures CameTo(whole, [], whole)
  {
    assert [] + Run(F7Step, whole).segments == Run(F7Step, whole).segments;
  }

  lemma SkipNoise(whole: bytes, done: seq<Segment<Frame>>, buf: bytes, n: nat) returns (next: seq<Segment<Frame>>)
    requires CameTo(whole, done, buf) && n <= |buf| && forall k :: 0 <= k < n ==> buf[k] != HEADER
    ensures CameTo(whole, next, buf[n..])
    ensures FramesOf(next) == FramesOf(done) && Dropped(next) == Dropped(done) + n
    ensures Rejections(next) == Rejections(done)
  {
    var skipped := RunSkipsAhead(F7Step, buf, n);
    next := done + skipped;
    FramesOfConcat(done, skipped);
    CountsOfConcat(done, skipped);
    ConcatAssociates(done, skipped, Run(F7Step, buf[n..]).segments);
  }

  lemma TookCandidate(whole: bytes, done: seq<Segment<Frame>>, candidate: bytes) returns (next: seq<Segment<Frame>>)
    requires CameTo(whole, done, candidate) && candidate != [] && Moves(F7Step(candidate), candidate)
    ensures var cut := Cut(F7Step(candidate), candidate);
      && FramesOf(next) == FramesOf(done) + FrameOf(cut)
      && Dropped(next) == Dropped(done) + Dropped([cut]) && Rejections(next) == Rejections(done) + Rejections([cut])
    ensures CameTo(whole, next, candidate[Advance(F7Step(candidate))..])
  {
    RunMoves(F7Step, done, candidate);
    next := done + [Cut(F7Step(candidate), candidate)];
  }

  lemma AfterLast(whole: bytes, done: seq<Segment<Frame>>, rest: bytes)
    requires CameTo(whole, done, rest) && Unfinished(rest)
    ensures Run(F7Step, whole) == Scan(done, rest)
  {
    assert Run(F7Step, rest) == Scan([], rest);
    assert done + [] == done;
  }

  /** The one error that decoding catches is the only one a complete candidate can raise. */
  lemma OnlyChecksumErrors(buf: bytes)
    requires buf != [] && F7Step(buf) == Skip(1, true)
    ensures FromBytes(buf[..buf[4] + FRAME_OVERHEAD]) == Err(BadChecksum)
  {
  }

  /** A move looks only at the candidate, never at what follows it. */
  lemma F7StepSettled()
    ensures Settled(F7Step)
  {
    forall a: bytes, b: bytes | a != [] && Moves(F7Step(a), a)
      ensures F7Step(a + b) == F7Step(a)
    {
      if a[0] == HEADER {
        assert (a + b)[..a[4] + FRAME_OVERHEAD] == a[..a[4] + FRAME_OVERHEAD];
      }
    }
  }

  /** On all bytes, for any cut into chunks: the run chunk by chunk is the run over the whole stream. */
  lemma ChunkIndependence(chunks: seq<bytes>)
    ensures FeedAll(F7Step, Scan([], []), chunks) == Run(F7Step, Flatten(chunks))
  {
    F7StepSettled();
    AnyChunking(F7Step, [], chunks);
    assert [] + Flatten(chunks) == Flatten(chunks);
  }

  /** A segment of a run is a dropped byte, or a frame next to exactly its encoding. */
  ghost predicate Honest(s: Segment<Frame>) {
    match s
    case Skipped(dropped, _) => |dropped| == 1
    case Emitted(f, raw) => raw == ToBytes(f)
    case Lost(_) => false
  }

  lemma RunIsHonest(buf: bytes)
    ensures forall s :: s in Run(F7Step, buf).segments ==> Honest(s)
  {
    forall s | s in Run(F7Step, buf).segments
      ensures Honest(s)
    {
      var at := RunSegments(F7Step, buf, s);
      if s.Emitted? {
        EncodeDecode(at[..at[4] + FRAME_OVERHEAD]);
      }
    }
  }

  /** Over a whole run every byte fed is counted once: discarded, still buffered, or part of an emitted
      frame; and no rejection goes uncounted among the discarded bytes. */
  lemma Conservation(chunks: seq<bytes>)
    ensures var end := FeedAll(F7Step, Scan([], []), chunks);
            && |Flatten(chunks)| == Dropped(end.segments) + EmittedLength(end.segments) + |end.rest|
            && Rejections(end.segments) <= Dropped(end.segments)
            && BytesOf(end.segments) + end.rest == Flatten(chunks)
            && (forall s :: s in end.segments ==> Honest(s))
  {
    var whole := Flatten(chunks);
    ChunkIndependence(chunks);
    RunIsHonest(whole);
    RunConserves(F7Step, whole);
    LengthsAddUp(Run(F7Step, whole).segments);
    RejectionsAreDropped(Run(F7Step, whole).segments);
  }

  lemma {:induction false} RejectionsAreDropped(segments: seq<Segment<Frame>>)
    requires forall s :: s in segments ==> Honest(s)
    ensures Rejections(segments) <= Dropped(segments)
  {
    if segments != [] {
      assert segments[0] in segments;
      RejectionsAreDropped(segments[1..]);
    }
  }

  /** What stays buffered is empty, or starts with a header and lacks bytes of a frame; 261 bytes at most. */
  lemma RestIsUnfinished(buf: bytes)
    ensures var rest := Run(F7Step, buf).rest; Unfinished(rest) && |rest| <= 261
  {
    RunStops(F7Step, buf);
  }

  /** Noise without a header byte, or the encoding of a frame. */
  ghost predicate Clean(items: seq<Item<Frame>>) {
    forall it :: it in items ==>
      match it
      case Noise(noise) => HEADER !in noise
      case Packet(f, raw) => raw == ToBytes(f)
  }

  lemma F7StepOnPacket(f: Frame, buf: bytes)
    ensures ToBytes(f) <= buf ==> F7Step(buf) == Emit(f, |ToBytes(f)|)
    ensures buf != [] && buf < ToBytes(f) ==> F7Step(buf) == Wait
  {
    var raw := ToBytes(f);
    if raw <= buf {
      assert buf[0] == raw[0] && buf[4] == raw[4];
      assert buf[..|raw|] == raw;
      DecodeEncode(f);
    } else if buf != [] && buf < raw {
      assert buf[0] == raw[0];
      if |buf| >= 5 {
        assert buf[4] == raw[4];
      }
    }
  }

  /** Encoded frames separated by header-free noise come out exactly, in order, for any cut into chunks
      and whatever bytes their payloads hold. */
  lemma CleanStreamDelivered(items: seq<Item<Frame>>, chunks: seq<bytes>)
    requires Clean(items) && Flatten(chunks) == Stream(items)
    ensures var end := FeedAll(F7Step, Scan([], []), chunks);
            FramesOf(end.segments) == Sent(items) && end.rest == []
  {
    forall i | 0 <= i < |items|
      ensures Understood(F7Step, items[i])
    {
      assert items[i] in items;
      match items[i]
      case Noise(noise) =>
      case Packet(f, raw) =>
        forall buf: bytes
          ensures raw <= buf ==> F7Step(buf) == Emit(f, |raw|)
          ensures buf != [] && buf < raw ==> F7Step(buf) == Wait
        {
          F7StepOnPacket(f, buf);
        }
    }
    assert [] + Flatten(chunks) == Stream(items);
    StreamDelivered(F7Step, items, Scan([], []), chunks);
  }
}
