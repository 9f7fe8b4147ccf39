/** Incremental scanning of a byte stream, for any step function that looks at the front of the
    buffer: what a run over a buffer is, what it conserves, and when it may be cut into chunks. */
module Scanner {
  import opened Bytes

  /** What the front of a non-empty buffer calls for. */
  datatype Step<+F> = Wait | Skip(n: nat, rejected: bool) | Emit(frame: F, n: nat)

  /** One piece of the input after it has been dealt with. `Lost` bytes are dropped from the buffer
      between runs (a cleared connection, an expired fragment). */
  datatype Segment<+F> = Skipped(dropped: bytes, rejected: bool) | Emitted(frame: F, raw: bytes) | Lost(gone: bytes)

  datatype Scan<+F> = Scan(segments: seq<Segment<F>>, rest: bytes)

  function Advance<F>(s: Step<F>): nat {
    match s
    case Wait => 0
    case Skip(n, _) => n
    case Emit(_, n) => n
  }

  /** The step consumes something that is there. */
  predicate Moves<F>(s: Step<F>, buf: bytes) {
    0 < Advance(s) <= |buf|
  }

  function Cut<F>(s: Step<F>, buf: bytes): Segment<F>
    requires Moves(s, buf)
  {
    match s
    case Skip(n, rejected) => Skipped(buf[..n], rejected)
    case Emit(frame, n) => Emitted(frame, buf[..n])
  }

  /** Steps from the front of the buffer until one has to wait. */
  function Run<F>(step: bytes -> Step<F>, buf: bytes): (r: Scan<F>)
    decreases |buf|
  {
    if buf == [] || !Moves(step(buf), buf) then Scan([], buf)
    else
      var r := Run(step, buf[Advance(step(buf))..]);
      Scan([Cut(step(buf), buf)] + r.segments, r.rest)
  }

  function Raw<F>(s: Segment<F>): bytes {
    match s
    case Skipped(dropped, _) => dropped
    case Emitted(_, raw) => raw
    case Lost(gone) => gone
  }

  /** The input the segments were cut from. */
  function BytesOf<F>(segments: seq<Segment<F>>): bytes {
    if segments == [] then [] else Raw(segments[0]) + BytesOf(segments[1..])
  }

  function FrameOf<F>(s: Segment<F>): seq<F> {
    if s.Emitted? then [s.frame] else []
  }

  function FramesOf<F>(segments: seq<Segment<F>>): seq<F> {
    if segments == [] then [] else FrameOf(segments[0]) + FramesOf(segments[1..])
  }

  function Dropped<F>(segments: seq<Segment<F>>): nat {
    if segments == [] then 0
    else (match segments[0] case Skipped(d, _) => |d| case _ => 0) + Dropped(segments[1..])
  }

  function Rejections<F>(segments: seq<Segment<F>>): nat {
    if segments == [] then 0
    else (match segments[0] case Skipped(_, true) => 1 case _ => 0) + Rejections(segments[1..])
  }

  lemma ConcatAssociates<T>(a: seq<T>, b: seq<T>, c: seq<T>)
    ensures a + (b + c) == (a + b) + c
  {
  }

  lemma {:induction false} BytesOfConcat<F>(a: seq<Segment<F>>, b: seq<Segment<F>>)
    ensures BytesOf(a + b) == BytesOf(a) + BytesOf(b)
  {
    if a == [] {
      assert a + b == b;
    } else {
      assert (a + b)[1..] == a[1..] + b;
      BytesOfConcat(a[1..], b);
      ConcatAssociates(Raw(a[0]), BytesOf(a[1..]), BytesOf(b));
    }
  }

  lemma {:induction false} FramesOfConcat<F>(a: seq<Segment<F>>, b: seq<Segment<F>>)
    ensures FramesOf(a + b) == FramesOf(a) + FramesOf(b)
  {
    if a == [] {
      assert a + b == b;
    } else {
      assert (a + b)[1..] == a[1..] + b;
      FramesOfConcat(a[1..], b);
      ConcatAssociates(FrameOf(a[0]), FramesOf(a[1..]), FramesOf(b));
    }
  }

  lemma {:induction false} CountsOfConcat<F>(a: seq<Segment<F>>, b: seq<Segment<F>>)
    ensures Dropped(a + b) == Dropped(a) + Dropped(b)
    ensures Rejections(a + b) == Rejections(a) + Rejections(b)
  {
    if a == [] {
      assert a + b == b;
    } else {
      assert (a + b)[1..] == a[1..] + b;
      CountsOfConcat(a[1..], b);
    }
  }

  lemma Glue<T>(s: seq<T>, n: nat, inner: seq<T>, rest: seq<T>)
    requires n <= |s| && inner + rest == s[n..]
    ensures (s[..n] + inner) + rest == s
  {
    assert s[..n] + s[n..] == s;
  }

  /** A cut in front of a run. */
  lemma BytesInFront<F>(first: Segment<F>, segments: seq<Segment<F>>)
    ensures BytesOf([first] + segments) == Raw(first) + BytesOf(segments)
  {
    assert ([first] + segments)[1..] == segments;
  }

  /** The segments of a run and its leftover are the buffer, cut into pieces in order. */
  lemma {:induction false} RunConserves<F>(step: bytes -> Step<F>, buf: bytes)
    ensures var r := Run(step, buf); BytesOf(r.segments) + r.rest == buf
    decreases |buf|
  {
    if buf != [] && Moves(step(buf), buf) {
      var n := Advance(step(buf));
      var r := Run(step, buf[n..]);
      RunConserves(step, buf[n..]);
      BytesInFront(Cut(step(buf), buf), r.segments);
      Glue(buf, n, BytesOf(r.segments), r.rest);
    }
  }

  /** Dropped and emitted lengths add up to what was consumed. */
  lemma {:induction false} LengthsAddUp<F>(segments: seq<Segment<F>>)
    requires forall s :: s in segments ==> !s.Lost?
    ensures |BytesOf(segments)| == Dropped(segments) + EmittedLength(segments)
  {
    if segments != [] {
      LengthsAddUp(segments[1..]);
    }
  }

  function EmittedLength<F>(segments: seq<Segment<F>>): nat {
    if segments == [] then 0
    else (match segments[0] case Emitted(_, raw) => |raw| case _ => 0) + EmittedLength(segments[1..])
  }

  /** Every segment of a run was cut by a step, and nothing was lost. */
  lemma {:induction false} RunSegments<F>(step: bytes -> Step<F>, buf: bytes, s: Segment<F>) returns (at: bytes)
    requires s in Run(step, buf).segments
    ensures at != [] && Moves(step(at), at) && s == Cut(step(at), at)
    decreases |buf|
  {
    at := buf;
    if s != Cut(step(buf), buf) {
      at := RunSegments(step, buf[Advance(step(buf))..], s);
    }
  }

  /** What is left over is empty or has to wait. */
  lemma {:induction false} RunStops<F>(step: bytes -> Step<F>, buf: bytes)
    ensures var rest := Run(step, buf).rest; rest == [] || !Moves(step(rest), rest)
    decreases |buf|
  {
    if buf != [] && Moves(step(buf), buf) {
      RunStops(step, buf[Advance(step(buf))..]);
    }
  }

  function Then<F>(r: Scan<F>, next: Scan<F>): Scan<F> {
    Scan(r.segments + next.segments, next.rest)
  }

  /** No step of the run over `a` would have been different had `b` already been there. */
  ghost predicate Undisturbed<F>(step: bytes -> Step<F>, a: bytes, b: bytes)
    decreases |a|
  {
    a != [] && Moves(step(a), a) ==>
      step(a + b) == step(a) && Undisturbed(step, a[Advance(step(a))..], b)
  }

  /** The runs over `a` and then on with `b` give the run over both. */
  ghost predicate SameInTwo<F>(step: bytes -> Step<F>, a: bytes, b: bytes) {
    Run(step, a + b) == Then(Run(step, a), Run(step, Run(step, a).rest + b))
  }

  /** Both runs begin with the same step: cutting matters where it matters after that step. */
  lemma SameAfterStep<F>(step: bytes -> Step<F>, a: bytes, b: bytes)
    requires a != [] && Moves(step(a), a) && step(a + b) == step(a)
    ensures SameInTwo(step, a, b) <==> SameInTwo(step, a[Advance(step(a))..], b)
  {
    var n := Advance(step(a));
    assert (a + b)[n..] == a[n..] + b && (a + b)[..n] == a[..n];
    var (cut, r) := (Cut(step(a), a), Run(step, a[n..]));
    var next := Run(step, r.rest + b);
    SameTail(cut, Run(step, a[n..] + b).segments, r.segments + next.segments);
    assert ([cut] + r.segments) + next.segments == [cut] + (r.segments + next.segments);
  }

  lemma SameTail<T>(x: T, a: seq<T>, b: seq<T>)
    ensures [x] + a == [x] + b <==> a == b
  {
    if [x] + a == [x] + b {
      assert a == ([x] + a)[1..] == ([x] + b)[1..] == b;
    }
  }

  /** A segment tells the step that cut it. */
  lemma CutTellsStep<F>(s: Step<F>, t: Step<F>, a: bytes, b: bytes)
    requires Moves(s, a) && Moves(t, b) && Cut(s, a) == Cut(t, b)
    ensures s == t
  {
    assert |a[..Advance(s)]| == Advance(s) && |b[..Advance(t)]| == Advance(t);
  }

  /** A first step that would have been different shows. */
  lemma DifferentStepShows<F>(step: bytes -> Step<F>, a: bytes, b: bytes)
    requires a != [] && Moves(step(a), a) && SameInTwo(step, a, b)
    ensures step(a + b) == step(a)
  {
    var whole := Run(step, a + b);
    assert whole.segments[0] == Cut(step(a), a);
    CutTellsStep(step(a + b), step(a), a + b, a);
  }

  /** Cutting the input in two changes nothing exactly when the first run took no step that the later bytes would
      have changed. */
  lemma {:induction false} RunInTwo<F>(step: bytes -> Step<F>, a: bytes, b: bytes)
    ensures Undisturbed(step, a, b) <==> SameInTwo(step, a, b)
    decreases |a|
  {
    if a == [] {
      assert a + b == b && Run(step, a).rest + b == b;
    } else if Moves(step(a), a) {
      if step(a + b) == step(a) {
        RunInTwo(step, a[Advance(step(a))..], b);
        SameAfterStep(step, a, b);
      } else if SameInTwo(step, a, b) {
        DifferentStepShows(step, a, b);
      }
    }
  }

  function FeedAll<F>(step: bytes -> Step<F>, r: Scan<F>, chunks: seq<bytes>): Scan<F>
    decreases |chunks|
  {
    if chunks == [] then r
    else FeedAll(step, Then(r, Run(step, r.rest + chunks[0])), chunks[1..])
  }

  /** A step function none of whose moves depends on later bytes. */
  ghost predicate Settled<F>(step: bytes -> Step<F>) {
    forall a: bytes, b: bytes :: a != [] && Moves(step(a), a) ==> step(a + b) == step(a)
  }

  lemma {:induction false} SettledIsUndisturbed<F>(step: bytes -> Step<F>, a: bytes, b: bytes)
    requires Settled(step)
    ensures Undisturbed(step, a, b)
    decreases |a|
  {
    if a != [] && Moves(step(a), a) {
      SettledIsUndisturbed(step, a[Advance(step(a))..], b);
    }
  }

  /** Feeding a chunk to a finished run is running over both. */
  lemma FeedsOne<F>(step: bytes -> Step<F>, buf: bytes, chunks: seq<bytes>)
    requires Settled(step) && chunks != []
    ensures FeedAll(step, Run(step, buf), chunks) == FeedAll(step, Run(step, buf + chunks[0]), chunks[1..])
  {
    SettledIsUndisturbed(step, buf, chunks[0]);
    RunInTwo(step, buf, chunks[0]);
  }

  /** For such a step function, any cut into chunks gives the run over the whole stream. */
  lemma {:induction false} AnyChunking<F>(step: bytes -> Step<F>, buf: bytes, chunks: seq<bytes>)
    requires Settled(step)
    ensures FeedAll(step, Run(step, buf), chunks) == Run(step, buf + Flatten(chunks))
    decreases |chunks|
  {
    if chunks == [] {
      assert buf + Flatten(chunks) == buf;
    } else {
      FeedsOne(step, buf, chunks);
      AnyChunking(step, buf + chunks[0], chunks[1..]);
      assert buf + Flatten(chunks) == buf + chunks[0] + Flatten(chunks[1..]);
    }
  }

  /** Skipping several bytes at once is skipping them one by one. */
  lemma {:induction false} RunSkipsAhead<F>(step: bytes -> Step<F>, buf: bytes, n: nat)
    returns (skipped: seq<Segment<F>>)
    requires n <= |buf|
    requires forall k :: 0 <= k < n ==> step(buf[k..]) == Skip(1, false)
    ensures Run(step, buf) == Then(Scan(skipped, []), Run(step, buf[n..]))
    ensures FramesOf(skipped) == [] && Dropped(skipped) == n && Rejections(skipped) == 0
    decreases n
  {
    if n == 0 {
      assert buf[0..] == buf;
      skipped := [];
    } else {
      assert buf[0..] == buf;
      forall k | 0 <= k < n - 1
        ensures step(buf[1..][k..]) == Skip(1, false)
      {
        assert buf[1..][k..] == buf[k + 1..];
      }
      var others := RunSkipsAhead(step, buf[1..], n - 1);
      assert buf[1..][n - 1..] == buf[n..];
      var first := Skipped(buf[..1], false);
      skipped := [first] + others;
      assert skipped[1..] == others;
      ConcatAssociates([first], others, Run(step, buf[n..]).segments);
    }
  }

  /** One move of a run, after some segments already cut. */
  lemma RunMoves<F>(step: bytes -> Step<F>, done: seq<Segment<F>>, buf: bytes)
    requires buf != [] && Moves(step(buf), buf)
    ensures Then(Scan(done, []), Run(step, buf))
            == Then(Scan(done + [Cut(step(buf), buf)], []), Run(step, buf[Advance(step(buf))..]))
    ensures FramesOf(done + [Cut(step(buf), buf)]) == FramesOf(done) + FrameOf(Cut(step(buf), buf))
    ensures Dropped(done + [Cut(step(buf), buf)]) == Dropped(done) + Dropped([Cut(step(buf), buf)])
    ensures Rejections(done + [Cut(step(buf), buf)]) == Rejections(done) + Rejections([Cut(step(buf), buf)])
  {
    var one := [Cut(step(buf), buf)];
    ConcatAssociates(done, one, Run(step, buf[Advance(step(buf))..]).segments);
    FramesOfConcat(done, one);
    CountsOfConcat(done, one);
    assert FramesOf(one) == FrameOf(one[0]);
  }

  /** A piece of a well-formed stream: noise, or the encoding of a frame. */
  datatype Item<+F> = Noise(noise: bytes) | Packet(frame: F, raw: bytes)

  function Encoding<F>(it: Item<F>): bytes {
    match it
    case Noise(noise) => noise
    case Packet(_, raw) => raw
  }

  function Stream<F>(items: seq<Item<F>>): bytes {
    if items == [] then [] else Encoding(items[0]) + Stream(items[1..])
  }

  function FrameIn<F>(it: Item<F>): seq<F> {
    if it.Packet? then [it.frame] else []
  }

  function Sent<F>(items: seq<Item<F>>): seq<F> {
    if items == [] then [] else FrameIn(items[0]) + Sent(items[1..])
  }

  /** The step function drops a noise byte whatever follows, emits a packet as soon as it is complete
      whatever follows, and waits on every proper prefix of it. */
  ghost predicate Understood<F>(step: bytes -> Step<F>, it: Item<F>) {
    match it
    case Noise(noise) =>
      forall buf: bytes :: buf != [] && buf[0] in noise ==> step(buf) == Skip(1, false)
    case Packet(f, raw) =>
      && raw != []
      && (forall buf: bytes :: raw <= buf ==> step(buf) == Emit(f, |raw|))
      && (forall buf: bytes :: buf != [] && buf < raw ==> step(buf) == Wait)
  }

  ghost predicate AllUnderstood<F>(step: bytes -> Step<F>, items: seq<Item<F>>) {
    forall i :: 0 <= i < |items| ==> Understood(step, items[i])
  }

  lemma {:induction false} RunDropsNoise<F>(step: bytes -> Step<F>, noise: bytes, buf: bytes)
    requires forall b: bytes :: b != [] && b[0] in noise ==> step(b) == Skip(1, false)
    ensures FramesOf(Run(step, noise + buf).segments) == FramesOf(Run(step, buf).segments)
    ensures Run(step, noise + buf).rest == Run(step, buf).rest
  {
    if noise == [] {
      assert noise + buf == buf;
    } else {
      assert noise[0] in noise;
      var all := noise + buf;
      assert all[1..] == noise[1..] + buf;
      RunDropsNoise(step, noise[1..], buf);
      var r := Run(step, all[1..]);
      assert Run(step, all).segments[1..] == r.segments;
    }
  }

  /** An item that has arrived whole is dealt with, whatever follows it. */
  lemma RunTakesItem<F>(step: bytes -> Step<F>, it: Item<F>, after: bytes)
    requires Understood(step, it)
    ensures var r, all := Run(step, after), Run(step, Encoding(it) + after);
            FramesOf(all.segments) == FrameIn(it) + FramesOf(r.segments) && all.rest == r.rest
  {
    match it
    case Noise(noise) =>
      RunDropsNoise(step, noise, after);
      assert FrameIn(it) + FramesOf(Run(step, after).segments) == FramesOf(Run(step, after).segments);
    case Packet(f, raw) =>
      var all := raw + after;
      assert raw <= all && all[|raw|..] == after;
      assert Run(step, all).segments[1..] == Run(step, after).segments;
  }

  /** An item that has arrived in part yields no frame; what it leaves is the rest of the item. */
  lemma RunHoldsItem<F>(step: bytes -> Step<F>, it: Item<F>, buf: bytes) returns (left: Item<F>)
    requires Understood(step, it) && buf < Encoding(it)
    ensures Understood(step, left) && FrameIn(left) == FrameIn(it)
    ensures FramesOf(Run(step, buf).segments) == []
    ensures Run(step, buf).rest + Encoding(it)[|buf|..] == Encoding(left)
  {
    match it
    case Noise(noise) =>
      left := Noise(noise[|buf|..]);
      assert forall b :: b in noise[|buf|..] ==> b in noise;
      assert forall b :: b in buf ==> b in noise;
      RunDropsNoise(step, buf, []);
      assert buf + [] == buf;
      assert Run(step, buf).rest == [];
    case Packet(f, raw) =>
      left := it;
      assert raw == buf + raw[|buf|..];
  }

  /** One feed of a well-formed stream. `buf` is what is buffered plus the new chunk, `todo` what is
      still to come; the items not yet emitted are exactly what is left over and to come. */
  lemma {:induction false} FeedUnderstood<F>(step: bytes -> Step<F>, items: seq<Item<F>>, buf: bytes, todo: bytes)
    returns (left: seq<Item<F>>)
    requires AllUnderstood(step, items) && buf + todo == Stream(items)
    ensures AllUnderstood(step, left)
    ensures Run(step, buf).rest + todo == Stream(left)
    ensures FramesOf(Run(step, buf).segments) + Sent(left) == Sent(items)
    decreases |items|
  {
    if items == [] {
      return items;
    }
    var it, tail := items[0], items[1..];
    var enc := Encoding(it);
    if |enc| <= |buf| {
      var after := buf[|enc|..];
      PrefixSplit(buf, todo, enc, Stream(tail));
      left := FeedUnderstood(step, tail, after, todo);
      RunTakesItem(step, it, after);
      ConcatAssociates(FrameIn(it), FramesOf(Run(step, after).segments), Sent(left));
    } else {
      SuffixSplit(buf, todo, enc, Stream(tail));
      var part := RunHoldsItem(step, it, buf);
      left := [part] + tail;
      assert left[1..] == tail;
      ConcatAssociates(Run(step, buf).rest, enc[|buf|..], Stream(tail));
    }
  }

  lemma PrefixSplit(buf: bytes, todo: bytes, enc: bytes, tail: bytes)
    requires buf + todo == enc + tail && |enc| <= |buf|
    ensures buf == enc + buf[|enc|..] && buf[|enc|..] + todo == tail
  {
    assert buf == (buf + todo)[..|buf|];
    assert tail == (enc + tail)[|enc|..];
  }

  lemma SuffixSplit(buf: bytes, todo: bytes, enc: bytes, tail: bytes)
    requires buf + todo == enc + tail && |buf| < |enc|
    ensures buf < enc && todo == enc[|buf|..] + tail
  {
    assert buf == (buf + todo)[..|buf|] == enc[..|buf|];
    assert todo == (buf + todo)[|buf|..];
  }

  /** A well-formed stream, cut into any chunks, yields exactly the frames that were sent, in order,
      and leaves nothing behind. */
  lemma {:induction false} StreamDelivered<F>(
    step: bytes -> Step<F>, items: seq<Item<F>>, r: Scan<F>, chunks: seq<bytes>)
    requires AllUnderstood(step, items) && r.rest + Flatten(chunks) == Stream(items)
    requires r.rest == [] || !Moves(step(r.rest), r.rest)
    ensures FramesOf(FeedAll(step, r, chunks).segments) == FramesOf(r.segments) + Sent(items)
    ensures FeedAll(step, r, chunks).rest == []
    decreases |chunks|
  {
    if chunks == [] {
      assert r.rest + Flatten(chunks) == r.rest;
      WholeStreamConsumed(step, items);
    } else {
      var buf, todo := r.rest + chunks[0], Flatten(chunks[1..]);
      ConcatAssociates(r.rest, chunks[0], todo);
      var left := FeedUnderstood(step, items, buf, todo);
      var once := Run(step, buf);
      FramesOfConcat(r.segments, once.segments);
      RunStops(step, buf);
      StreamDelivered(step, left, Then(r, once), chunks[1..]);
      ConcatAssociates(FramesOf(r.segments), FramesOf(once.segments), Sent(left));
    }
  }

  /** A complete well-formed stream leaves no rest. */
  lemma {:induction false} WholeStreamConsumed<F>(step: bytes -> Step<F>, items: seq<Item<F>>)
    requires AllUnderstood(step, items)
    ensures Run(step, Stream(items)).rest == []
    ensures FramesOf(Run(step, Stream(items)).segments) == Sent(items)
    decreases |items|
  {
    if items != [] {
      WholeStreamConsumed(step, items[1..]);
      RunTakesItem(step, items[0], Stream(items[1..]));
    }
  }
}
