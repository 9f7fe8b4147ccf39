/** KS X 4506 application frames: encoding, decoding and what the two checksums detect. */
module Frames {
  import opened Bytes
  import opened Wrappers

  const HEADER: byte := 0xF7
  const FRAME_OVERHEAD: nat := 7

  datatype FrameError = Incomplete | BadHeader | TrailingBytes | BadChecksum

  datatype BuildError = NotAByte | DataTooLong

  datatype RawFrame = RawFrame(deviceId: byte, subId: byte, commandType: byte, data: bytes)

  /** A frame whose payload length fits the one-byte length field. */
  type Frame = f: RawFrame | |f.data| <= 255 witness RawFrame(0, 0, 0, [])

  /** The checks of the frame constructor, on arbitrary integers. */
  function MakeFrame(deviceId: int, subId: int, commandType: int, data: bytes): (r: Result<Frame, BuildError>)
    ensures r.Ok? <==> 0 <= deviceId < 256 && 0 <= subId < 256 && 0 <= commandType < 256 && |data| <= 255
    ensures r.Ok? ==> r.value == RawFrame(deviceId, subId, commandType, data)
  {
    if !(0 <= deviceId < 256 && 0 <= subId < 256 && 0 <= commandType < 256) then Err(NotAByte)
    else if |data| > 255 then Err(DataTooLong)
    else Ok(RawFrame(deviceId, subId, commandType, data))
  }

  /** XOR sum, and the low byte of the sum that includes the XOR sum. */
  function Checksums(s: bytes): (byte, byte) {
    (XorSum(s), (Sum(s) + XorSum(s)) % 256)
  }

  /** Accumulates both sums in one pass; an empty input is an error. */
  method CalculateChecksums(s: bytes) returns (r: Result<(byte, byte), FrameError>)
    ensures r.Err? <==> s == []
    ensures r.Ok? ==> r.value == Checksums(s)
  {
    if |s| == 0 {
      return Err(Incomplete);
    }
    var xorSum: byte, total: nat := 0, 0;
    for i := 0 to |s|
      invariant xorSum == XorSum(s[..i])
      invariant total == Sum(s[..i])
    {
      assert s[..i + 1][..i] == s[..i];
      XorOfBytes(xorSum, s[i]);
      xorSum := Xor(xorSum, s[i]);
      total := total + s[i];
    }
    assert s[..|s|] == s;
    r := Ok((xorSum, (total + xorSum) % 256));
  }

  function WithoutChecksums(f: Frame): (s: bytes)
    ensures |s| == |f.data| + 5
  {
    [HEADER, f.deviceId, f.subId, f.commandType, |f.data|] + f.data
  }

  function ToBytes(f: Frame): (s: bytes)
    ensures |s| == |f.data| + FRAME_OVERHEAD
  {
    var body := WithoutChecksums(f);
    body + [Checksums(body).0, Checksums(body).1]
  }

  function FromBytes(raw: bytes): Result<Frame, FrameError> {
    if |raw| < FRAME_OVERHEAD then Err(Incomplete)
    else if raw[0] != HEADER then Err(BadHeader)
    else if |raw| < raw[4] + FRAME_OVERHEAD then Err(Incomplete)
    else if |raw| > raw[4] + FRAME_OVERHEAD then Err(TrailingBytes)
    else if (raw[|raw| - 2], raw[|raw| - 1]) != Checksums(raw[..|raw| - 2]) then Err(BadChecksum)
    else Ok(RawFrame(raw[1], raw[2], raw[3], raw[5..|raw| - 2]))
  }

  /** Decoding undoes encoding. */
  lemma DecodeEncode(f: Frame)
    ensures FromBytes(ToBytes(f)) == Ok(f)
  {
    var raw := ToBytes(f);
    assert raw[..|raw| - 2] == WithoutChecksums(f);
    assert raw[5..|raw| - 2] == f.data;
  }

  /** Only encodings decode, and each decodes to the frame it encodes. */
  lemma EncodeDecode(raw: bytes)
    requires FromBytes(raw).Ok?
    ensures ToBytes(FromBytes(raw).value) == raw
  {
    var f := FromBytes(raw).value;
    assert raw[..|raw| - 2] == WithoutChecksums(f);
  }

  /** Changing any one byte of an encoded frame makes decoding fail, for every payload length. */
  lemma SingleByteErrorDetected(f: Frame, i: nat, v: byte)
    requires i < |ToBytes(f)| && v != ToBytes(f)[i]
    ensures FromBytes(ToBytes(f)[i := v]).Err?
  {
    var raw := ToBytes(f);
    var bad := raw[i := v];
    var n := |raw|;
    assert raw[..n - 2] == WithoutChecksums(f);
    if i < n - 2 {
      assert bad[..n - 2] == raw[..n - 2][i := v];
      XorSumDetects(raw[..n - 2], i, v);
    } else {
      assert bad[..n - 2] == raw[..n - 2];
    }
  }

  /** The limit of that detection: both sums are blind to order, so exchanging any two payload bytes
      yields the encoding of the frame with the two bytes exchanged, and decoding accepts it. */
  lemma PayloadSwapUndetected(f: Frame, i: nat, j: nat)
    requires i < |f.data| && j < |f.data|
    ensures var raw := ToBytes(f);
            FromBytes(raw[5 + i := raw[5 + j]][5 + j := raw[5 + i]])
            == Ok(f.(data := f.data[i := f.data[j]][j := f.data[i]]))
  {
    var raw := ToBytes(f);
    var n := |raw|;
    var body := raw[..n - 2];
    assert body == WithoutChecksums(f);
    SumsOfSwap(body, 5 + i, 5 + j);
    var bad := raw[5 + i := raw[5 + j]][5 + j := raw[5 + i]];
    assert bad[..n - 2] == body[5 + i := body[5 + j]][5 + j := body[5 + i]];
    assert bad[5..n - 2] == f.data[i := f.data[j]][j := f.data[i]];
  }

  /** Where everything stands on the wire. */
  lemma WireLayout(f: Frame)
    ensures var (raw, n) := (ToBytes(f), |f.data|);
      && |raw| == n + 7
      && raw[0] == 0xF7 && raw[1] == f.deviceId && raw[2] == f.subId && raw[3] == f.commandType && raw[4] == n
      && raw[5..n + 5] == f.data
  {
  }

  /** The two checksum bytes, without naming how they are computed: all bytes up to the first of them XOR to
      zero, and the last byte is the low byte of the sum of all bytes before it. */
  ghost predicate Checked(raw: bytes) {
    |raw| >= 2 && XorSum(raw[..|raw| - 1]) == 0 && raw[|raw| - 1] == Sum(raw[..|raw| - 1]) % 256
  }

  lemma ChecksumsClose(raw: bytes)
    requires |raw| >= 2
    ensures (raw[|raw| - 2], raw[|raw| - 1]) == Checksums(raw[..|raw| - 2]) <==> Checked(raw)
  {
    var n := |raw|;
    assert raw[..n - 1] == raw[..n - 2] + [raw[n - 2]];
    XorSumCloses(raw[..n - 2], raw[n - 2]);
    SumsOfMore(raw[..n - 2], raw[n - 2]);
  }

  lemma EncodingIsChecked(f: Frame)
    ensures Checked(ToBytes(f))
  {
    var raw := ToBytes(f);
    assert raw[..|raw| - 2] == WithoutChecksums(f);
    ChecksumsClose(raw);
  }

  /** What decodes: a header, a length byte that fits, and both checksums. */
  lemma DecodesExactly(raw: bytes)
    ensures FromBytes(raw).Ok? <==> |raw| >= 7 && raw[0] == 0xF7 && |raw| - 7 == raw[4] && Checked(raw)
  {
    if |raw| >= 7 { ChecksumsClose(raw); }
  }
}
