/** What the two-framing codec decides from the front of its buffer: STX/ETX frames and F7 frames,
    acceptance, rejection and where to resume after a rejection. */
module CodecStep {
  import opened Bytes
  import opened Frames
  import opened Wrappers
  import opened Scanner

  const STX_OVERHEAD: nat := 6

  datatype ChecksumMode = Sum8 | Xor8

  datatype Config = Config(stx: byte, etx: byte, mode: ChecksumMode)

  datatype KsFrame = KsFrame(addr: byte, subId: byte, cmd: byte, payload: bytes, checksum: byte, raw: bytes)

  function StxChecksum(mode: ChecksumMode, s: bytes): byte {
    match mode
    case Xor8 => XorSum(s)
    case Sum8 => Sum(s) % 256
  }

  function Masked(values: seq<int>): (s: bytes)
    ensures |s| == |values|
  {
    seq(|values|, i requires 0 <= i < |values| => values[i] % 256)
  }

  /** Encoding of an STX frame; the length field, like every field, is masked to one byte. */
  function Build(cfg: Config, addr: int, cmd: int, payload: bytes): (s: bytes)
    ensures |s| == |payload| + 6
  {
    var head := [addr % 256, cmd % 256, |payload| % 256];
    [cfg.stx] + head + payload + [StxChecksum(cfg.mode, head + payload), cfg.etx]
  }

  /** Encoding of an F7 frame, with the errors of the frame constructor. */
  function BuildF7(deviceId: int, subId: int, cmd: int, payload: bytes): Result<bytes, BuildError> {
    match MakeFrame(deviceId, subId, cmd, payload)
    case Ok(f) => Ok(ToBytes(f))
    case Err(e) => Err(e)
  }

  /** Position of the next header of either framing at or after `start`, or `|buf|`. */
  function NextHeader(cfg: Config, buf: bytes, start: nat): (n: nat)
    requires start <= |buf|
    ensures start <= n <= |buf|
    ensures n < |buf| ==> buf[n] == cfg.stx || buf[n] == HEADER
    ensures forall k :: start <= k < n ==> buf[k] != cfg.stx && buf[k] != HEADER
  {
    var s, f := IndexFrom(buf, cfg.stx, start), IndexFrom(buf, HEADER, start);
    if s < f then s else f
  }

  /** A complete, checksum-valid F7 frame starts at `pos`. */
  ghost predicate ValidF7At(buf: bytes, pos: nat) {
    && pos + 7 <= |buf|
    && buf[pos] == HEADER
    && pos + buf[pos + 4] + FRAME_OVERHEAD <= |buf|
    && FromBytes(buf[pos..pos + buf[pos + 4] + FRAME_OVERHEAD]).Ok?
  }

  /** The F7 candidate at `pos` still lacks bytes. */
  predicate IncompleteF7At(buf: bytes, pos: nat)
    requires pos < |buf|
  {
    |buf| < pos + 5 || |buf| < pos + buf[pos + 4] + FRAME_OVERHEAD
  }

  /** An F7 byte at `pos` that is not known to be spurious. */
  predicate PlausibleF7At(buf: bytes, pos: nat)
    requires pos < |buf|
  {
    && buf[pos] == HEADER
    && (IncompleteF7At(buf, pos) || FromBytes(buf[pos..pos + buf[pos + 4] + FRAME_OVERHEAD]).Ok?)
  }

  /** The least plausible F7 position in `[pos, limit)`, or `limit` when there is none. */
  function Embedded(buf: bytes, pos: nat, limit: nat): (p: nat)
    requires pos <= limit <= |buf|
    ensures pos <= p <= limit
    ensures p < limit ==> PlausibleF7At(buf, p)
    ensures forall k :: pos <= k < p ==> !PlausibleF7At(buf, k)
    decreases limit - pos
  {
    if pos == limit || PlausibleF7At(buf, pos) then pos else Embedded(buf, pos + 1, limit)
  }

  /** Where scanning resumes after a rejected STX frame of `total` bytes. */
  function StxResync(cfg: Config, buf: bytes, total: nat): (n: nat)
    requires 1 <= total <= |buf|
    ensures 1 <= n <= total
  {
    var n := NextHeader(cfg, buf, 1);
    if n < total then n else 1
  }

  function StxFrame(raw: bytes): KsFrame
    requires |raw| >= 6
  {
    KsFrame(raw[1], 0, raw[2], raw[4..|raw| - 2], raw[|raw| - 2], raw)
  }

  predicate StxAccepts(cfg: Config, raw: bytes)
    requires |raw| >= 6
  {
    raw[|raw| - 1] == cfg.etx && raw[|raw| - 2] == StxChecksum(cfg.mode, raw[1..|raw| - 2])
  }

  function StxStep(cfg: Config, buf: bytes): Step<KsFrame> {
    if |buf| < 6 || |buf| < buf[3] + STX_OVERHEAD then Wait
    else
      var total := buf[3] + STX_OVERHEAD;
      if StxAccepts(cfg, buf[..total]) then Emit(StxFrame(buf[..total]), total)
      else Skip(StxResync(cfg, buf, total), true)
  }

  /** Where scanning resumes after a rejected F7 frame of `total` bytes. */
  function F7Resync(buf: bytes, total: nat): (n: nat)
    requires 7 <= total <= |buf|
    ensures 1 <= n < total
  {
    var n := Embedded(buf, 5, total);
    if n < total then n else 1
  }

  function F7Frame(f: Frame, raw: bytes): KsFrame
    requires |raw| >= 7
  {
    KsFrame(f.deviceId, f.subId, f.commandType, f.data, raw[|raw| - 1], raw)
  }

  function F7Step(buf: bytes): Step<KsFrame> {
    if |buf| < 7 || |buf| < buf[4] + FRAME_OVERHEAD then Wait
    else
      var total := buf[4] + FRAME_OVERHEAD;
      match FromBytes(buf[..total])
      case Ok(f) => Emit(F7Frame(f, buf[..total]), total)
      case Err(_) => Skip(F7Resync(buf, total), true)
  }

  /** The STX header is tested first. */
  function HeadStep(cfg: Config, buf: bytes): Step<KsFrame> {
    if buf == [] then Wait
    else if buf[0] == cfg.stx then StxStep(cfg, buf)
    else if buf[0] == HEADER then F7Step(buf)
    else Skip(1, false)
  }

  function Stepper(cfg: Config): bytes -> Step<KsFrame> {
    buf => HeadStep(cfg, buf)
  }

  /** What waits starts with a header and is shorter than the longest frame: 261 bytes at most. */
  lemma WaitingIsShort(cfg: Config, buf: bytes)
    requires buf != [] && HeadStep(cfg, buf) == Wait
    ensures (buf[0] == cfg.stx || buf[0] == HEADER) && |buf| <= 261
  {
  }

  /** A frame stands next to exactly the bytes that encode its own fields. */
  ghost predicate ReEncodes(cfg: Config, f: KsFrame) {
    && |f.payload| <= 255
    && (|| BuildF7(f.addr, f.subId, f.cmd, f.payload) == Ok(f.raw)
        || (f.subId == 0 && Build(cfg, f.addr, f.cmd, f.payload) == f.raw))
  }

  lemma StxFrameReEncodes(cfg: Config, raw: bytes)
    requires |raw| >= 6 && raw[0] == cfg.stx && |raw| == raw[3] + STX_OVERHEAD && StxAccepts(cfg, raw)
    ensures Build(cfg, raw[1], raw[2], raw[4..|raw| - 2]) == raw
  {
    var payload := raw[4..|raw| - 2];
    var head := [raw[1], raw[2], raw[3]];
    assert |payload| % 256 == raw[3];
    assert head + payload == raw[1..|raw| - 2];
  }

  /** On arbitrary bytes, whatever is emitted is the encoding of its own fields. */
  lemma EmitsOnlyEncodings(cfg: Config, buf: bytes)
    requires buf != [] && HeadStep(cfg, buf).Emit?
    ensures var s := HeadStep(cfg, buf);
            s.n <= |buf| && s.frame.raw == buf[..s.n] && ReEncodes(cfg, s.frame)
  {
    var raw := buf[..HeadStep(cfg, buf).n];
    if buf[0] == cfg.stx {
      StxFrameReEncodes(cfg, raw);
    } else {
      EncodeDecode(raw);
    }
  }

  /** A packet of an STX build is emitted as soon as it is complete and waited for until then. */
  lemma StepOnStxPacket(cfg: Config, addr: int, cmd: int, payload: bytes, buf: bytes)
    requires |payload| <= 255
    ensures var raw := Build(cfg, addr, cmd, payload);
            raw <= buf ==>
              HeadStep(cfg, buf) == Emit(KsFrame(addr % 256, 0, cmd % 256, payload, raw[|raw| - 2], raw), |raw|)
    ensures buf != [] && buf < Build(cfg, addr, cmd, payload) ==> HeadStep(cfg, buf) == Wait
  {
    var raw := Build(cfg, addr, cmd, payload);
    if raw <= buf {
      assert buf[0] == raw[0] && buf[3] == raw[3];
      assert buf[..|raw|] == raw;
      BuiltIsAccepted(cfg, addr, cmd, payload);
    } else if buf != [] && buf < raw {
      assert buf[0] == raw[0];
      if |buf| >= 6 {
        assert buf[3] == raw[3];
      }
    }
  }

  lemma BuiltIsAccepted(cfg: Config, addr: int, cmd: int, payload: bytes)
    requires |payload| <= 255
    ensures var raw := Build(cfg, addr, cmd, payload);
            && StxAccepts(cfg, raw)
            && StxFrame(raw) == KsFrame(addr % 256, 0, cmd % 256, payload, raw[|raw| - 2], raw)
  {
    var raw := Build(cfg, addr, cmd, payload);
    assert raw[1..|raw| - 2] == [addr % 256, cmd % 256, |payload| % 256] + payload;
    assert raw[4..|raw| - 2] == payload;
  }

  /** The same for a packet of an F7 build, unless F7 was configured as the STX header. */
  lemma StepOnF7Packet(cfg: Config, f: Frame, buf: bytes)
    requires cfg.stx != HEADER
    ensures var raw := ToBytes(f);
            raw <= buf ==> HeadStep(cfg, buf) == Emit(F7Frame(f, raw), |raw|)
    ensures buf != [] && buf < ToBytes(f) ==> HeadStep(cfg, buf) == Wait
  {
    var raw := ToBytes(f);
    if raw <= buf {
      assert buf[0] == raw[0] && buf[4] == raw[4];
      assert buf[..|raw|] == raw;
      DecodeEncode(f);
    } else if buf != [] && buf < raw {
      assert buf[0] == raw[0];
      if |buf| >= 7 {
        assert buf[4] == raw[4];
      }
    }
  }

  /** The condition is exact: configured with F7 as STX header, the codec recognises no F7 packet. */
  lemma F7PacketsNeedOwnHeader(cfg: Config, f: Frame)
    ensures HeadStep(cfg, ToBytes(f)) == Emit(F7Frame(f, ToBytes(f)), |ToBytes(f)|) <==> cfg.stx != HEADER
  {
    var raw := ToBytes(f);
    if cfg.stx != HEADER {
      StepOnF7Packet(cfg, f, raw);
    } else {
      assert raw[0] == HEADER;
      if HeadStep(cfg, raw).Emit? {
        assert |HeadStep(cfg, raw).frame.payload| == HeadStep(cfg, raw).n - STX_OVERHEAD;
      }
    }
  }

  /** What a rejection may pass over: never a header after a rejected STX frame, and after a rejected F7
      frame never a complete valid F7 frame from offset 5 on. */
  lemma ResyncLosesNoFrame(cfg: Config, buf: bytes, k: nat)
    requires buf != [] && HeadStep(cfg, buf).Skip? && 0 < k < HeadStep(cfg, buf).n
    ensures buf[0] == cfg.stx ==> buf[k] != cfg.stx && buf[k] != HEADER
    ensures buf[0] != cfg.stx && k >= 5 ==> !ValidF7At(buf, k)
  {
    if buf[0] != cfg.stx && k >= 5 {
      assert !PlausibleF7At(buf, k);
    }
  }

  /** An STX frame is closed by its checksum: in XOR mode all bytes between header and trailer XOR to zero, in sum
      mode the checksum is the low byte of the sum of those before it. */
  ghost predicate Closed(mode: ChecksumMode, raw: bytes)
    requires |raw| >= 6
  {
    match mode
    case Xor8 => XorSum(raw[1..|raw| - 1]) == 0
    case Sum8 => raw[|raw| - 2] == Sum(raw[1..|raw| - 2]) % 256
  }

  lemma ChecksumCloses(mode: ChecksumMode, raw: bytes)
    requires |raw| >= 6
    ensures raw[|raw| - 2] == StxChecksum(mode, raw[1..|raw| - 2]) <==> Closed(mode, raw)
  {
    var n := |raw|;
    assert raw[1..n - 1] == raw[1..n - 2] + [raw[n - 2]];
    XorSumCloses(raw[1..n - 2], raw[n - 2]);
  }

  /** What is accepted as an STX frame. */
  lemma StxAcceptsExactly(cfg: Config, raw: bytes)
    requires |raw| >= 6
    ensures StxAccepts(cfg, raw) <==> raw[|raw| - 1] == cfg.etx && Closed(cfg.mode, raw)
  {
    ChecksumCloses(cfg.mode, raw);
  }

  /** Where everything stands in a built STX packet, each field masked to a byte. */
  lemma StxLayout(cfg: Config, addr: int, cmd: int, payload: bytes)
    ensures var (raw, n) := (Build(cfg, addr, cmd, payload), |payload|);
      && |raw| == n + 6 && raw[0] == cfg.stx && raw[n + 5] == cfg.etx
      && raw[1] == addr % 256 && raw[2] == cmd % 256 && raw[3] == n % 256 && raw[4..n + 4] == payload
      && Closed(cfg.mode, raw)
  {
    var raw := Build(cfg, addr, cmd, payload);
    assert raw[1..|raw| - 2] == [addr % 256, cmd % 256, |payload| % 256] + payload;
    ChecksumCloses(cfg.mode, raw);
  }

  /** What the codec makes of the bytes of a frame. */
  lemma FieldsOf(cfg: Config, buf: bytes)
    requires buf != [] && HeadStep(cfg, buf).Emit?
    ensures var (f, n) := (HeadStep(cfg, buf).frame, HeadStep(cfg, buf).n);
      && n <= |buf| && f.raw == buf[..n]
      && (buf[0] == cfg.stx ==> n - 6 == buf[3] && f.addr == buf[1] && f.subId == 0 && f.cmd == buf[2]
                                && f.payload == buf[4..n - 2] && f.checksum == buf[n - 2])
      && (buf[0] != cfg.stx ==> n - 7 == buf[4] && f.addr == buf[1] && f.subId == buf[2] && f.cmd == buf[3]
                                && f.payload == buf[5..n - 2] && f.checksum == buf[n - 1])
  {
  }

  /** Where a rejected F7 frame resumes, exactly: at the least plausible F7 byte from offset 5 inside the
      rejected frame, else one byte further. */
  lemma F7ResyncIsLeast(cfg: Config, buf: bytes)
    requires buf != [] && buf[0] == HEADER && cfg.stx != HEADER && HeadStep(cfg, buf).Skip?
    ensures var total, n := buf[4] + FRAME_OVERHEAD, HeadStep(cfg, buf).n;
            && total <= |buf|
            && (n == 1 <==> forall k :: 5 <= k < total ==> !PlausibleF7At(buf, k))
            && (n != 1 ==> 5 <= n < total && PlausibleF7At(buf, n) && forall k :: 5 <= k < n ==> !PlausibleF7At(buf, k))
  {
  }

  /** The search begins at offset 5. So a rejected F7 frame passes over a complete valid frame exactly when one
      starts at one of the four bytes behind the header, and there is a plausible one further on to resume at. */
  lemma LosesFrameExactly(cfg: Config, buf: bytes)
    requires buf != [] && buf[0] == HEADER != cfg.stx && HeadStep(cfg, buf).Skip?
    ensures (exists k: nat :: 0 < k < HeadStep(cfg, buf).n && ValidF7At(buf, k))
            <==> (exists k: nat :: 1 <= k <= 4 && ValidF7At(buf, k))
                 && exists p: nat :: 5 <= p < buf[4] + FRAME_OVERHEAD && PlausibleF7At(buf, p)
  {
    var n := HeadStep(cfg, buf).n;
    F7ResyncIsLeast(cfg, buf);
    if k: nat :| 0 < k < n && ValidF7At(buf, k) {
      if k >= 5 { ResyncLosesNoFrame(cfg, buf, k); }
      assert PlausibleF7At(buf, n);
    }
  }

  /** And there are such bytes: a header in front of a complete frame, and another one behind it. */
  lemma FrameIsLost(cfg: Config, f: Frame)
    requires cfg.stx != HEADER && f == RawFrame(0, 0, 2, [])
    ensures var buf := [HEADER] + ToBytes(f) + [HEADER];
      HeadStep(cfg, buf) == Skip(8, true) && ValidF7At(buf, 1) && FromBytes(buf[1..8]) == Ok(f)
  {
    var raw := ToBytes(f);
    var buf := [HEADER] + raw + [HEADER];
    assert WithoutChecksums(f) == [HEADER, 0, 0, 2, 0];
    SumsOfFive();
    assert raw == [HEADER, 0, 0, 2, 0, 0xF5, 0xEE];
    assert buf == [HEADER, HEADER, 0, 0, 2, 0, 0xF5, 0xEE, HEADER];
    assert buf[1..8] == raw;
    DecodeEncode(f);
    assert buf[..9] == buf && buf[..7] == [HEADER, HEADER, 0, 0, 2, 0, 0xF5];
    SumOfSeven();
    assert forall k :: 5 <= k < 8 ==> !PlausibleF7At(buf, k);
    assert PlausibleF7At(buf, 8);
  }

  lemma SumsOfHeader()
    ensures XorSum([HEADER]) == 0xF7 && Sum([HEADER]) == 0xF7
  {
    SumsOfMore([], HEADER);
    assert [] + [HEADER] == [HEADER];
  }

  lemma SumsOfThree()
    ensures XorSum([HEADER, 0, 0]) == 0xF7 && Sum([HEADER, 0, 0]) == 0xF7
  {
    SumsOfHeader();
    SumsOfMore([HEADER], 0);
    SumsOfMore([HEADER] + [0], 0);
    assert [HEADER] + [0] + [0] == [HEADER, 0, 0];
  }

  lemma HeaderXorTwo()
    ensures Xor(HEADER, 2) == 0xF5
  {
  }

  lemma SumsOfFive()
    ensures XorSum([HEADER, 0, 0, 2, 0]) == 0xF5 && Sum([HEADER, 0, 0, 2, 0]) == 0xF9
  {
    SumsOfThree();
    HeaderXorTwo();
    SumsOfMore([HEADER, 0, 0], 2);
    SumsOfMore([HEADER, 0, 0] + [2], 0);
    assert [HEADER, 0, 0] + [2] + [0] == [HEADER, 0, 0, 2, 0];
  }

  lemma SumOfSeven()
    ensures XorSum([HEADER, HEADER, 0, 0, 2, 0, 0xF5]) == 0xF7
  {
    SumsOfFive();
    SumsOfHeader();
    SumsOfConcat([HEADER], [HEADER, 0, 0, 2, 0]);
    SumsOfMore([HEADER] + [HEADER, 0, 0, 2, 0], 0xF5);
    assert Xor(HEADER, 0xF5) == 2 && Xor(2, 0xF5) == 0xF7;
    assert [HEADER] + [HEADER, 0, 0, 2, 0] + [0xF5] == [HEADER, HEADER, 0, 0, 2, 0, 0xF5];
  }

  /** The move is a guess: it resumes at an F7 candidate that has not arrived whole. */
  predicate Speculative(cfg: Config, buf: bytes) {
    && buf != []
    && HeadStep(cfg, buf).Skip?
    && 1 < HeadStep(cfg, buf).n < |buf|
    && buf[0] == HEADER != cfg.stx
    && IncompleteF7At(buf, HeadStep(cfg, buf).n)
  }

  lemma FixedPlausibility(a: bytes, b: bytes, pos: nat)
    requires pos < |a|
    requires a[pos] == HEADER ==> !IncompleteF7At(a, pos)
    ensures PlausibleF7At(a + b, pos) == PlausibleF7At(a, pos)
  {
    if a[pos] == HEADER {
      var total := a[pos + 4] + FRAME_OVERHEAD;
      assert (a + b)[pos..pos + total] == a[pos..pos + total];
    }
  }

  /** The search finds the same position in a longer buffer, if what it found had arrived whole. */
  lemma {:induction false} EmbeddedSettled(a: bytes, b: bytes, pos: nat, limit: nat)
    requires pos <= limit <= |a|
    requires Embedded(a, pos, limit) < limit ==> !IncompleteF7At(a, Embedded(a, pos, limit))
    ensures Embedded(a + b, pos, limit) == Embedded(a, pos, limit)
    decreases limit - pos
  {
    if pos < limit {
      FixedPlausibility(a, b, pos);
      if !PlausibleF7At(a, pos) {
        EmbeddedSettled(a, b, pos + 1, limit);
      }
    }
  }

  lemma IndexSettled(a: bytes, b: bytes, header: byte, start: nat)
    requires start <= |a|
    ensures var i, j := IndexFrom(a, header, start), IndexFrom(a + b, header, start);
            if i < |a| then j == i else j >= |a|
  {
    var i, j := IndexFrom(a, header, start), IndexFrom(a + b, header, start);
    if i < |a| {
      assert (a + b)[i] == header;
    }
    if j < |a| {
      assert (a + b)[j] == a[j];
    }
  }

  lemma StxMovesAreSettled(cfg: Config, a: bytes, b: bytes)
    requires a != [] && a[0] == cfg.stx && HeadStep(cfg, a) != Wait
    ensures HeadStep(cfg, a + b) == HeadStep(cfg, a)
  {
    var total := a[3] + STX_OVERHEAD;
    assert (a + b)[..total] == a[..total];
    IndexSettled(a, b, cfg.stx, 1);
    IndexSettled(a, b, HEADER, 1);
  }

  lemma F7MovesAreSettled(cfg: Config, a: bytes, b: bytes)
    requires a != [] && a[0] == HEADER != cfg.stx && HeadStep(cfg, a) != Wait && !Speculative(cfg, a)
    ensures HeadStep(cfg, a + b) == HeadStep(cfg, a)
  {
    var total := a[4] + FRAME_OVERHEAD;
    assert (a + b)[..total] == a[..total];
    if HeadStep(cfg, a).Skip? {
      EmbeddedSettled(a, b, 5, total);
    }
  }

  /** Every other move looks only at bytes that have arrived: later bytes cannot change it. */
  lemma MovesAreSettled(cfg: Config, a: bytes, b: bytes)
    requires a != [] && HeadStep(cfg, a) != Wait && !Speculative(cfg, a)
    ensures HeadStep(cfg, a + b) == HeadStep(cfg, a)
  {
    if a[0] == cfg.stx {
      StxMovesAreSettled(cfg, a, b);
    } else if a[0] == HEADER {
      F7MovesAreSettled(cfg, a, b);
    }
  }

  /** And a speculative move is one that some later bytes do change. */
  lemma SpeculationCanFail(cfg: Config, a: bytes) returns (b: bytes)
    requires Speculative(cfg, a)
    ensures HeadStep(cfg, a + b) != HeadStep(cfg, a)
  {
    b := SpoilCandidate(a, HeadStep(cfg, a).n);
    var total := a[4] + FRAME_OVERHEAD;
    assert (a + b)[..total] == a[..total];
  }

  /** Bytes that complete the F7 candidate at `p` with a wrong checksum. */
  lemma SpoilCandidate(a: bytes, p: nat) returns (b: bytes)
    requires p < |a| && IncompleteF7At(a, p)
    ensures !PlausibleF7At(a + b, p)
  {
    var head: bytes := a + (if |a| < p + 5 then seq(5, _ => 0) else []);
    var n := p + head[p + 4] + FRAME_OVERHEAD;
    var whole: bytes := head + (if |head| < n then seq(n - |head|, _ => 0) else []);
    var spoiled := SpoilSum(whole, p, n);
    b := spoiled[|a|..];
    assert spoiled[..|a|] == spoiled[..n - 1][..|a|] == whole[..n - 1][..|a|] == a;
    assert spoiled[p + 4] == spoiled[..n - 1][p + 4] == whole[p + 4];
    assert a + b == spoiled;
  }

  /** A change of the last byte that makes the frame between `p` and `n` invalid. */
  lemma SpoilSum(whole: bytes, p: nat, n: nat) returns (spoiled: bytes)
    requires p + FRAME_OVERHEAD <= n <= |whole|
    ensures |spoiled| == |whole| && spoiled[..n - 1] == whole[..n - 1] && FromBytes(spoiled[p..n]).Err?
  {
    var wrong: byte := (Checksums(whole[p..n - 2]).1 + 1) % 256;
    spoiled := whole[n - 1 := wrong];
    assert spoiled[p..n][..n - p - 2] == whole[p..n - 2];
    WrongSumRejected(spoiled[p..n]);
  }

  lemma WrongSumRejected(raw: bytes)
    requires |raw| >= 7 && raw[|raw| - 1] != Checksums(raw[..|raw| - 2]).1
    ensures FromBytes(raw).Err?
  {
  }
}
