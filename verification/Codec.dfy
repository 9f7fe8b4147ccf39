/** The KS X 4506 codec: a buffer trimmed in place, a fragment timer, and parsers that call each other. */
module Codec {
  import opened Bytes
  import opened Frames
  import opened Wrappers
  import opened Scanner
  import opened CodecStep
  import opened CodecRun
  import opened CodecState

  class Ksx4506Codec {
    const cfg: Config
    const assemblyTimeout: Time
    var buf: bytes
    var fragmentStarted: Option<Time>

    ghost function Abs(): State
      reads this
    {
      State(buf, fragmentStarted)
    }

    /** Between calls: a fragment is timed, starts with a header, and cannot be parsed yet. */
    ghost predicate Valid()
      reads this
    {
      && ValidState(cfg, Abs())
      && assemblyTimeout >= MIN_ASSEMBLY_TIMEOUT
    }

    constructor (cfg: Config, frameAssemblyTimeout: Time)
      ensures Valid() && buf == [] && this.cfg == cfg
      ensures assemblyTimeout == if frameAssemblyTimeout > 30.0 then frameAssemblyTimeout else 30.0
    {
      this.cfg := cfg;
      assemblyTimeout := if frameAssemblyTimeout > MIN_ASSEMBLY_TIMEOUT then frameAssemblyTimeout
      else MIN_ASSEMBLY_TIMEOUT;
      buf, fragmentStarted := [], None;
    }

    method ResetStream()
      modifies this
      ensures Abs() == Effect(cfg, assemblyTimeout, old(Abs()), Reset).0
    {
      buf, fragmentStarted := [], None;
    }

    predicate HasPendingFrame()
      reads this
    {
      buf != []
    }

    method ExpirePartialFrame(now: Time) returns (expired: bool)
      modifies this
      ensures expired == Expired(old(fragmentStarted), assemblyTimeout, now)
      ensures Abs() == Effect(cfg, assemblyTimeout, old(Abs()), Polled(now)).0
    {
      if fragmentStarted.None? || now - fragmentStarted.value < assemblyTimeout {
        return false;
      }
      ResetStream();
      return true;
    }

    /** The accumulating loops over masked values. */
    method CalcChecksum(values: seq<int>) returns (sum: byte)
      ensures sum == StxChecksum(cfg.mode, Masked(values))
    {
      var masked: bytes := [];
      sum := 0;
      for i := 0 to |values|
        invariant masked == Masked(values[..i])
        invariant sum == StxChecksum(cfg.mode, masked)
      {
        var v := values[i] % 256;
        assert Masked(values[..i + 1]) == masked + [v];
        assert (masked + [v])[..i] == masked;
        match cfg.mode {
          case Xor8 =>
            XorOfBytes(sum, v);
            sum := Xor(sum, v);
          case Sum8 => sum := (sum + v) % 256;
        }
        masked := masked + [v];
      }
      assert values[..|values|] == values;
    }

    method BuildPacket(addr: int, cmd: int, payload: bytes) returns (packet: bytes)
      ensures packet == Build(cfg, addr, cmd, payload)
    {
      var values: seq<int> := [addr, cmd, |payload|] + payload;
      var checksum := CalcChecksum(values);
      assert Masked(values) == [addr % 256, cmd % 256, |payload| % 256] + payload;
      packet := [cfg.stx, addr % 256, cmd % 256, |payload| % 256] + payload + [checksum, cfg.etx];
    }

    /** Jumps from F7 byte to F7 byte; -1 when none of them qualifies. */
    method ValidEmbeddedF7Pos(limit: nat) returns (pos: int)
      requires 5 <= limit <= |buf|
      ensures var p := Embedded(buf, 5, limit); pos == if p < limit then p else -1
    {
      var from := 5;
      while from < limit
        invariant 5 <= from <= limit
        invariant Embedded(buf, from, limit) == Embedded(buf, 5, limit)
      {
        var next := IndexFrom(buf[..limit], HEADER, from);
        EmbeddedSkips(buf, from, next, limit);
        if next == limit {
          return -1;
        }
        from := next;
        EmbeddedTries(buf, from, limit);
        var keep := MayStartFrame(from);
        if keep {
          return from;
        }
        from := from + 1;
      }
      return -1;
    }

    /** The F7 candidate at `from` is incomplete or valid. */
    method MayStartFrame(from: nat) returns (keep: bool)
      requires from < |buf| && buf[from] == HEADER
      ensures keep == PlausibleF7At(buf, from)
    {
      keep := |buf| < from + 5;
      if !keep {
        var total := buf[from + 4] + FRAME_OVERHEAD;
        keep := |buf| < from + total || FromBytes(buf[from..from + total]).Ok?;
      }
    }

    method NextHeaderPos(start: nat) returns (pos: int)
      requires start <= |buf|
      ensures var n := NextHeader(cfg, buf, start); pos == if n < |buf| then n else -1
    {
      var s, f := IndexFrom(buf, cfg.stx, start), IndexFrom(buf, HEADER, start);
      if s == |buf| && f == |buf| {
        return -1;
      }
      return if s < f then s else f;
    }

    method ParseBufferHead() returns (frame: Option<KsFrame>, ghost cuts: seq<Segment<KsFrame>>)
      requires buf != [] ==> buf[0] == cfg.stx || buf[0] == HEADER
      modifies this`buf
      ensures Followed(cfg, old(buf), cuts, frame, buf)
      decreases |buf|, 1
    {
      if buf == [] {
        Stay(cfg, buf);
        return None, [];
      }
      if buf[0] == cfg.stx {
        frame, cuts := ParseStxFrame();
      } else {
        frame, cuts := ParseF7Frame();
      }
    }

    method ParseStxFrame() returns (frame: Option<KsFrame>, ghost cuts: seq<Segment<KsFrame>>)
      requires buf != [] && buf[0] == cfg.stx
      modifies this`buf
      ensures Followed(cfg, old(buf), cuts, frame, buf)
      decreases |buf|, 0
    {
      Stay(cfg, buf);
      if |buf| < 6 {
        return None, [];
      }
      var total := buf[3] + STX_OVERHEAD;
      if |buf| < total {
        return None, [];
      }
      var raw := buf[..total];
      ghost var before := buf;
      if raw[|raw| - 1] != cfg.etx || raw[|raw| - 2] != StxChecksum(cfg.mode, raw[1..|raw| - 2]) {
        var n := NextHeaderPos(1);
        assert HeadStep(cfg, before) == Skip(if 0 < n < total then n else 1, true);
        if 0 < n < total {
          buf := buf[n..];
          frame, cuts := ParseBufferHead();
          cuts := Resumes(cfg, before, n, frame, cuts, buf);
          return;
        }
        buf := buf[1..];
        cuts := Drops(cfg, before, 1);
        return None, cuts;
      }
      buf := buf[total..];
      cuts := Takes(cfg, before, StxFrame(raw), total);
      return Some(StxFrame(raw)), cuts;
    }

    method ParseF7Frame() returns (frame: Option<KsFrame>, ghost cuts: seq<Segment<KsFrame>>)
      requires buf != [] && buf[0] == HEADER != cfg.stx
      modifies this`buf
      ensures Followed(cfg, old(buf), cuts, frame, buf)
      decreases |buf|, 0
    {
      Stay(cfg, buf);
      if |buf| < 7 {
        return None, [];
      }
      var total := buf[4] + FRAME_OVERHEAD;
      if |buf| < total {
        return None, [];
      }
      var raw := buf[..total];
      ghost var before := buf;
      match FromBytes(raw) {
        case Ok(parsed) =>
          buf := buf[total..];
          cuts := Takes(cfg, before, F7Frame(parsed, raw), total);
          return Some(F7Frame(parsed, raw)), cuts;
        case Err(_) =>
          var resync := ValidEmbeddedF7Pos(total);
          assert HeadStep(cfg, before) == Skip(if resync > 0 then resync else 1, true);
          if resync > 0 {
            buf := buf[resync..];
            frame, cuts := ParseBufferHead();
            cuts := Resumes(cfg, before, resync, frame, cuts, buf);
            return;
          }
          buf := buf[1..];
          cuts := Drops(cfg, before, 1);
          return None, cuts;
      }
    }

    /** One call: expire, extend the buffer, emit every frame that is complete, set the timer. The clock is
        read on entry and once more when a fragment is left over. */
    method Feed(data: bytes, entered: Time, finished: Time) returns (frames: seq<KsFrame>)
      requires Valid()
      modifies this
      ensures Valid()
      ensures var (after, cuts) := Effect(cfg, assemblyTimeout, old(Abs()), Fed(data, entered, finished));
              Abs() == after && frames == FramesOf(cuts)
      ensures |buf| <= 261
    {
      FedFrames(cfg, assemblyTimeout, Abs(), data, entered, finished);
      var _ := ExpirePartialFrame(entered);
      ghost var timer := fragmentStarted;
      buf := buf + data;
      ghost var whole := buf;
      ghost var done: seq<Segment<KsFrame>> := [];
      Start(cfg, whole);
      frames := [];
      while true
        invariant Reached(cfg, whole, done, buf)
        invariant frames == FramesOf(done)
        invariant fragmentStarted == if frames == [] then timer else None
        decreases |buf|
      {
        var s := NextHeader(cfg, buf, 0);
        done := SkipNoise(cfg, whole, done, buf, s);
        buf := buf[s..];
        if buf == [] {
          break;
        }
        var buffered := |buf|;
        ghost var before := buf;
        var frame, cuts := ParseBufferHead();
        if frame.None? && |buf| == buffered {
          break;
        }
        done := Extend(cfg, whole, done, before, cuts, frame, buf);
        if frame.Some? {
          frames := frames + [frame.value];
          fragmentStarted := None;
        }
      }
      Finish(cfg, whole, done, buf);
      if buf != [] && fragmentStarted.None? {
        fragmentStarted := Some(finished);
      } else if buf == [] {
        fragmentStarted := None;
      }
      if buf != [] {
        WaitingIsShort(cfg, buf);
      }
    }
  }
}
