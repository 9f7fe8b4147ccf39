/** Bookkeeping that relates the parsers of the codec to the run of its step function. */
module CodecRun {
  import opened Bytes
  import opened Frames
  import opened Wrappers
  import opened Scanner
  import opened CodecStep

  /** From `before`, the cuts lead to `after`, and cut out no frame or one. */
  ghost predicate Leads(cfg: Config, before: bytes, cuts: seq<Segment<KsFrame>>, frame: Option<KsFrame>, after: bytes) {
    && Run(Stepper(cfg), before) == Then(Scan(cuts, []), Run(Stepper(cfg), after))
    && FramesOf(cuts) == (if frame.Some? then [frame.value] else [])
  }

  function Produced(s: Step<KsFrame>): Option<KsFrame> {
    if s.Emit? then Some(s.frame) else None
  }

  /** No cut leads nowhere. */
  lemma Stay(cfg: Config, buf: bytes)
    ensures Leads(cfg, buf, [], None, buf)
  {
    var r := Run(Stepper(cfg), buf);
    assert [] + r.segments == r.segments;
  }

  /** One move of the step function. */
  lemma One(cfg: Config, before: bytes) returns (cuts: seq<Segment<KsFrame>>)
    requires before != [] && Moves(HeadStep(cfg, before), before)
    ensures var s := HeadStep(cfg, before);
            Leads(cfg, before, cuts, Produced(s), before[Advance(s)..])
  {
    RunMoves(Stepper(cfg), [], before);
    Stay(cfg, before);
    var cut := Cut(HeadStep(cfg, before), before);
    cuts := [cut];
    assert [] + [cut] == cuts;
  }

  /** One skipping move, followed by what the next parser did. */
  lemma Prepend(cfg: Config, before: bytes, frame: Option<KsFrame>, later: seq<Segment<KsFrame>>, after: bytes)
    returns (cuts: seq<Segment<KsFrame>>)
    requires before != [] && Moves(HeadStep(cfg, before), before) && HeadStep(cfg, before).Skip?
    requires Leads(cfg, before[Advance(HeadStep(cfg, before))..], later, frame, after)
    ensures Leads(cfg, before, cuts, frame, after)
  {
    var first := One(cfg, before);
    cuts := first + later;
    FramesOfConcat(first, later);
    ConcatAssociates(first, later, Run(Stepper(cfg), after).segments);
  }

  /** What a parser may do to the buffer: follow the run of the step function up to one frame, and leave
      the buffer alone only when it has to wait. */
  ghost predicate Followed(cfg: Config, before: bytes, cuts: seq<Segment<KsFrame>>, frame: Option<KsFrame>, after: bytes) {
    && Leads(cfg, before, cuts, frame, after)
    && |after| <= |before|
    && (frame.Some? ==> |after| < |before|)
    && (|after| == |before| ==> after == before && (after != [] ==> HeadStep(cfg, after) == Wait))
  }

  /** The parser emits the frame at the front. */
  lemma Takes(cfg: Config, before: bytes, frame: KsFrame, n: nat) returns (cuts: seq<Segment<KsFrame>>)
    requires before != [] && 0 < n <= |before| && HeadStep(cfg, before) == Emit(frame, n)
    ensures Followed(cfg, before, cuts, Some(frame), before[n..])
  {
    cuts := One(cfg, before);
  }

  /** It drops bytes and leaves it at that. */
  lemma Drops(cfg: Config, before: bytes, n: nat) returns (cuts: seq<Segment<KsFrame>>)
    requires before != [] && 0 < n <= |before| && HeadStep(cfg, before) == Skip(n, true)
    ensures Followed(cfg, before, cuts, None, before[n..])
  {
    cuts := One(cfg, before);
  }

  /** It drops bytes and parses on. */
  lemma Resumes(cfg: Config, before: bytes, n: nat, frame: Option<KsFrame>, later: seq<Segment<KsFrame>>, after: bytes)
    returns (cuts: seq<Segment<KsFrame>>)
    requires before != [] && 0 < n <= |before| && HeadStep(cfg, before) == Skip(n, true)
    requires Followed(cfg, before[n..], later, frame, after)
    ensures Followed(cfg, before, cuts, frame, after)
  {
    cuts := Prepend(cfg, before, frame, later, after);
  }

  /** A run over `whole` that has come to `buf` with `done` cut off. */
  ghost predicate Reached(cfg: Config, whole: bytes, done: seq<Segment<KsFrame>>, buf: bytes) {
    Run(Stepper(cfg), whole) == Then(Scan(done, []), Run(Stepper(cfg), buf))
  }

  lemma Start(cfg: Config, whole: bytes)
    ensures Reached(cfg, whole, [], whole)
  {
    Stay(cfg, whole);
  }

  /** Header-free bytes in front of the buffer fall away. */
  lemma SkipNoise(cfg: Config, whole: bytes, done: seq<Segment<KsFrame>>, buf: bytes, n: nat)
    returns (next: seq<Segment<KsFrame>>)
    requires Reached(cfg, whole, done, buf)
    requires n <= |buf| && forall k :: 0 <= k < n ==> buf[k] != cfg.stx && buf[k] != HEADER
    ensures Reached(cfg, whole, next, buf[n..]) && FramesOf(next) == FramesOf(done)
  {
    forall k | 0 <= k < n
      ensures Stepper(cfg)(buf[k..]) == Skip(1, false)
    {
      assert buf[k..][0] == buf[k];
    }
    var skipped := RunSkipsAhead(Stepper(cfg), buf, n);
    next := done + skipped;
    FramesOfConcat(done, skipped);
    ConcatAssociates(done, skipped, Run(Stepper(cfg), buf[n..]).segments);
  }

  lemma Extend(cfg: Config, whole: bytes, done: seq<Segment<KsFrame>>, before: bytes,
               cuts: seq<Segment<KsFrame>>, frame: Option<KsFrame>, buf: bytes)
    returns (next: seq<Segment<KsFrame>>)
    requires Reached(cfg, whole, done, before) && Leads(cfg, before, cuts, frame, buf)
    ensures Reached(cfg, whole, next, buf)
    ensures FramesOf(next) == FramesOf(done) + (if frame.Some? then [frame.value] else [])
  {
    next := done + cuts;
    FramesOfConcat(done, cuts);
    ConcatAssociates(done, cuts, Run(Stepper(cfg), buf).segments);
  }

  /** Nothing moves any more: the run is over. */
  lemma Finish(cfg: Config, whole: bytes, done: seq<Segment<KsFrame>>, buf: bytes)
    requires Reached(cfg, whole, done, buf)
    requires buf != [] ==> HeadStep(cfg, buf) == Wait
    ensures Run(Stepper(cfg), whole) == Scan(done, buf)
  {
    assert Run(Stepper(cfg), buf) == Scan([], buf);
    assert done + [] == done;
  }

  /** Positions without an F7 byte are passed over. */
  lemma {:induction false} EmbeddedSkips(buf: bytes, pos: nat, next: nat, limit: nat)
    requires pos <= next <= limit <= |buf|
    requires forall k :: pos <= k < next ==> buf[k] != HEADER
    ensures Embedded(buf, next, limit) == Embedded(buf, pos, limit)
    decreases next - pos
  {
    if pos < next {
      EmbeddedSkips(buf, pos + 1, next, limit);
    }
  }

  /** At an F7 byte the search ends or goes on behind it. */
  lemma EmbeddedTries(buf: bytes, pos: nat, limit: nat)
    requires pos < limit <= |buf|
    ensures Embedded(buf, pos, limit) == if PlausibleF7At(buf, pos) then pos else Embedded(buf, pos + 1, limit)
  {
  }
}
