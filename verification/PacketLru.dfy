/** Diagnostics of packets the registry could not use: one record per signature, for the most recently seen
    signatures of each kind. */
module PacketLru {
  import opened Bytes

  datatype Kind = Unsupported | Candidate

  datatype Signature = Signature(reason: string, addr: byte, subId: byte, cmd: byte, length: nat)

  datatype Packet = Packet(kind: Kind, reason: string, addr: byte, subId: byte, cmd: byte, payload: bytes, raw: bytes)

  datatype Record = Record(
    count: nat, firstSeen: nat, lastSeen: nat, lastPayload: bytes, lastRaw: bytes, samples: seq<bytes>)

  type Records = map<Signature, Record>

  const MAX_SAMPLES: nat := 5

  function Capacity(kind: Kind): nat {
    match kind
    case Unsupported => 50
    case Candidate => 100
  }

  function SignatureOf(p: Packet): Signature {
    Signature(p.reason, p.addr, p.subId, p.cmd, |p.payload|)
  }

  predicate Is(p: Packet, kind: Kind, sig: Signature) {
    p.kind == kind && SignatureOf(p) == sig
  }

  /** The raw packets that entered last, oldest first; one that is there already does not enter again. */
  function Sampled(samples: seq<bytes>, raw: bytes): (r: seq<bytes>)
    ensures raw in r && (|samples| <= MAX_SAMPLES ==> |r| <= MAX_SAMPLES)
  {
    if raw in samples then samples
    else if |samples| >= MAX_SAMPLES then samples[|samples| + 1 - MAX_SAMPLES..] + [raw]
    else samples + [raw]
  }

  function Fresh(now: nat): Record {
    Record(0, now, now, [], [], [])
  }

  function Touched(r: Record, p: Packet, now: nat): Record {
    Record(r.count + 1, r.firstSeen, now, p.payload, p.raw, Sampled(r.samples, p.raw))
  }

  // ---- The reference: a list of all signatures ever seen, most recently seen first ----

  function Without(s: seq<Signature>, x: Signature): (r: seq<Signature>)
    ensures x !in r && |r| <= |s|
  {
    if s == [] then []
    else if s[0] == x then Without(s[1..], x)
    else [s[0]] + Without(s[1..], x)
  }

  function Recent(history: seq<Packet>, kind: Kind): seq<Signature>
    decreases |history|
  {
    if history == [] then []
    else
      var (before, p) := (Recent(history[..|history| - 1], kind), history[|history| - 1]);
      if p.kind == kind then [SignatureOf(p)] + Without(before, SignatureOf(p)) else before
  }

  function Top(s: seq<Signature>, k: nat): seq<Signature> {
    if |s| > k then s[..k] else s
  }

  function Kept(history: seq<Packet>, kind: Kind): seq<Signature> {
    Top(Recent(history, kind), Capacity(kind))
  }

  /** The record of a signature: started afresh when it is not among those kept. */
  function Life(history: seq<Packet>, kind: Kind, sig: Signature): Record
    decreases |history|
  {
    if history == [] then Fresh(0)
    else
      var (before, p) := (history[..|history| - 1], history[|history| - 1]);
      if Is(p, kind, sig) then
        Touched(if sig in Kept(before, kind) then Life(before, kind, sig) else Fresh(|history|), p, |history|)
      else Life(before, kind, sig)
  }

  function Expected(history: seq<Packet>, kind: Kind): Records {
    map sig | sig in Kept(history, kind) :: Life(history, kind, sig)
  }

  // ---- The registry's records ----

  class PacketRecords {
    var unsupported: Records
    var candidates: Records
    var seen: nat
    ghost var history: seq<Packet>

    ghost predicate Valid()
      reads this
    {
      seen == |history| && unsupported == Expected(history, Unsupported) && candidates == Expected(history, Candidate)
    }

    constructor ()
      ensures Valid() && history == []
    {
      unsupported, candidates, seen, history := map[], map[], 0, [];
    }

    method RecordPacket(p: Packet)
      requires Valid()
      modifies this
      ensures Valid() && history == old(history) + [p]
    {
      seen := seen + 1;
      if p.kind == Unsupported {
        unsupported := Enter(history, unsupported, p, seen);
      } else {
        candidates := Enter(history, candidates, p, seen);
      }
      OthersUntouched(history, p);
      history := history + [p];
    }
  }

  /** One dictionary of records: count the packet, and drop the record not seen for longest if they are too many. */
  method Enter(ghost history: seq<Packet>, records: Records, p: Packet, now: nat) returns (r: Records)
    requires records == Expected(history, p.kind) && now == |history| + 1
    ensures r == Expected(history + [p], p.kind)
  {
    var sig := SignatureOf(p);
    var record := if sig in records then records[sig] else Fresh(now);
    r := records[sig := Touched(record, p, now)];
    assert Counted(history, p, r);
    if |r| > Capacity(p.kind) {
      var oldest := Oldest(r);
      OldestIsLast(history, p, r, oldest);
      r := r - {oldest};
    } else {
      Entered(history, p, r);
    }
  }

  method Oldest(records: Records) returns (oldest: Signature)
    requires records != map[]
    ensures oldest in records && forall sig :: sig in records ==> records[oldest].lastSeen <= records[sig].lastSeen
  {
    var rest := records.Keys;
    oldest :| oldest in rest;
    rest := rest - {oldest};
    while rest != {}
      invariant rest <= records.Keys && oldest in records
      invariant forall sig :: sig in records && sig !in rest ==> records[oldest].lastSeen <= records[sig].lastSeen
      decreases |rest|
    {
      var next :| next in rest;
      if records[next].lastSeen < records[oldest].lastSeen {
        oldest := next;
      }
      rest := rest - {next};
    }
  }

  // ---- The list ----

  predicate Distinct(s: seq<Signature>) {
    forall i, j :: 0 <= i < j < |s| ==> s[i] != s[j]
  }

  lemma {:induction false} WithoutKeeps(s: seq<Signature>, x: Signature)
    requires Distinct(s)
    ensures Distinct(Without(s, x))
    ensures forall y :: y in Without(s, x) <==> y in s && y != x
    ensures x !in s ==> Without(s, x) == s
    decreases |s|
  {
    if s != [] {
      WithoutKeeps(s[1..], x);
      assert s == [s[0]] + s[1..];
      var rest := Without(s[1..], x);
      assert forall j :: 0 <= j < |rest| ==> rest[j] in s[1..];
    }
  }

  /** Taking out something at or behind position `k` leaves the first `k`. */
  lemma {:induction false} WithoutFurtherBack(s: seq<Signature>, x: Signature, k: nat)
    requires Distinct(s) && k <= |s| && x !in s[..k]
    ensures k <= |Without(s, x)| && Without(s, x)[..k] == s[..k]
    decreases |s|
  {
    if k > 0 {
      assert s[0] == s[..k][0];
      assert s[1..][..k - 1] == s[..k][1..];
      WithoutFurtherBack(s[1..], x, k - 1);
    }
  }

  /** Taking out one of the first `k` leaves one less of them, and everything behind. */
  lemma {:induction false} WithoutAmongFirst(s: seq<Signature>, x: Signature, k: nat)
    requires Distinct(s) && k <= |s| && x in s[..k]
    ensures |Without(s, x)| == |s| - 1
    ensures forall y :: y in Without(s, x)[..k - 1] <==> y in s[..k] && y != x
    decreases |s|
  {
    if s[0] == x {
      assert x !in s[1..];
      WithoutKeeps(s[1..], x);
      assert s[..k] == [s[0]] + s[1..][..k - 1];
    } else {
      assert s[..k] == [s[0]] + s[1..][..k - 1];
      WithoutAmongFirst(s[1..], x, k - 1);
      var rest := Without(s[1..], x);
      assert ([s[0]] + rest)[..k - 1] == [s[0]] + rest[..k - 2];
    }
  }

  lemma Snoc(history: seq<Packet>, p: Packet)
    ensures (history + [p])[..|history + [p]| - 1] == history && (history + [p])[|history + [p]| - 1] == p
  {
  }

  lemma {:induction false} RecentIsDistinct(history: seq<Packet>, kind: Kind)
    ensures Distinct(Recent(history, kind))
    decreases |history|
  {
    if history != [] {
      var (before, p) := (history[..|history| - 1], history[|history| - 1]);
      RecentIsDistinct(before, kind);
      WithoutKeeps(Recent(before, kind), SignatureOf(p));
    }
  }

  lemma {:induction false} SizeOfSet(s: seq<Signature>)
    requires Distinct(s)
    ensures |set x | x in s| == |s|
    decreases |s|
  {
    if s != [] {
      SizeOfSet(s[1..]);
      assert s == [s[0]] + s[1..];
      assert (set x | x in s) == {s[0]} + set x | x in s[1..];
    }
  }

  lemma ExpectedSize(history: seq<Packet>, kind: Kind)
    ensures |Expected(history, kind)| == |Kept(history, kind)|
  {
    RecentIsDistinct(history, kind);
    SizeOfSet(Kept(history, kind));
    assert Expected(history, kind).Keys == set x | x in Kept(history, kind);
  }

  lemma OthersUntouched(history: seq<Packet>, p: Packet)
    ensures forall kind :: kind != p.kind ==> Expected(history + [p], kind) == Expected(history, kind)
  {
    Snoc(history, p);
  }

  // ---- What entering a packet does to the list ----

  /** A signature that is kept, or for which there is room, pushes nobody out. */
  lemma NobodyPushedOut(s: seq<Signature>, x: Signature, k: nat)
    requires Distinct(s) && k > 0 && (x in Top(s, k) || |s| < k)
    ensures forall y :: y in Top([x] + Without(s, x), k) <==> y == x || y in Top(s, k)
  {
    var t := [x] + Without(s, x);
    WithoutKeeps(s, x);
    if |s| <= k {
      if x in s {
        assert s[..|s|] == s;
        WithoutAmongFirst(s, x, |s|);
      }
      assert Top(t, k) == t;
    } else {
      WithoutAmongFirst(s, x, k);
      assert t[..k] == [x] + Without(s, x)[..k - 1];
    }
  }

  /** Otherwise the last of those kept makes room. */
  lemma LastPushedOut(s: seq<Signature>, x: Signature, k: nat)
    requires Distinct(s) && 0 < k <= |s| && x !in Top(s, k)
    ensures Top([x] + Without(s, x), k) == [x] + s[..k - 1]
    ensures forall y :: y in [x] + s[..k - 1] <==> y == x || (y in Top(s, k) && y != s[k - 1])
  {
    assert Top(s, k) == s[..k];
    WithoutFurtherBack(s, x, k);
    var t := [x] + Without(s, x);
    assert t[..k] == [x] + Without(s, x)[..k - 1];
    assert Without(s, x)[..k - 1] == Without(s, x)[..k][..k - 1];
    assert s[..k] == s[..k - 1] + [s[k - 1]];
  }

  lemma RecentAfter(history: seq<Packet>, p: Packet)
    ensures Recent(history + [p], p.kind) == [SignatureOf(p)] + Without(Recent(history, p.kind), SignatureOf(p))
    ensures forall sig :: sig != SignatureOf(p) ==> Life(history + [p], p.kind, sig) == Life(history, p.kind, sig)
  {
    Snoc(history, p);
  }

  /** The records after counting the packet and before dropping any. */
  ghost predicate Counted(history: seq<Packet>, p: Packet, r: Records) {
    var (m, sig) := (Expected(history, p.kind), SignatureOf(p));
    r == m[sig := Touched(if sig in m then m[sig] else Fresh(|history| + 1), p, |history| + 1)]
  }

  lemma CountedLives(history: seq<Packet>, p: Packet, r: Records)
    requires Counted(history, p, r)
    ensures forall x :: x in r <==> x == SignatureOf(p) || x in Kept(history, p.kind)
    ensures forall x :: x in r ==> r[x] == Life(history + [p], p.kind, x)
  {
    Snoc(history, p);
    RecentAfter(history, p);
  }

  lemma SameKeys(history: seq<Packet>, kind: Kind, r: Records)
    requires forall x :: x in r ==> r[x] == Life(history, kind, x)
    requires forall x :: x in r <==> x in Kept(history, kind)
    ensures r == Expected(history, kind)
  {
    assert r.Keys == Expected(history, kind).Keys;
  }

  lemma CountedSize(history: seq<Packet>, p: Packet, r: Records)
    requires Counted(history, p, r)
    ensures |r| > Capacity(p.kind) <==>
      |Recent(history, p.kind)| >= Capacity(p.kind) && SignatureOf(p) !in Kept(history, p.kind)
  {
    ExpectedSize(history, p.kind);
    assert r.Keys == Expected(history, p.kind).Keys + {SignatureOf(p)};
  }

  lemma Entered(history: seq<Packet>, p: Packet, r: Records)
    requires Counted(history, p, r) && |r| <= Capacity(p.kind)
    ensures r == Expected(history + [p], p.kind)
  {
    CountedSize(history, p, r);
    CountedLives(history, p, r);
    RecentAfter(history, p);
    RecentIsDistinct(history, p.kind);
    NobodyPushedOut(Recent(history, p.kind), SignatureOf(p), Capacity(p.kind));
    SameKeys(history + [p], p.kind, r);
  }

  predicate Descending(rank: Signature -> nat, s: seq<Signature>) {
    forall i, j :: 0 <= i < j < |s| ==> rank(s[j]) < rank(s[i])
  }

  function SeenAt(history: seq<Packet>, kind: Kind): Signature -> nat {
    sig => LastSeen(history, kind, sig)
  }

  /** The reference list is ordered by when its signatures were last seen. */
  lemma {:induction false} SeenInOrder(history: seq<Packet>, kind: Kind)
    ensures Descending(SeenAt(history, kind), Recent(history, kind))
    decreases |history|
  {
    if history != [] {
      var (before, p) := (history[..|history| - 1], history[|history| - 1]);
      SeenInOrder(before, kind);
      if p.kind == kind {
        RecentIsDistinct(before, kind);
        WithoutKeepsOrder(SeenAt(before, kind), Recent(before, kind), SignatureOf(p));
        SeenFirst(history, kind, Without(Recent(before, kind), SignatureOf(p)));
      } else {
        SameOrder(SeenAt(before, kind), SeenAt(history, kind), Recent(before, kind));
      }
    }
  }

  lemma SameOrder(rank: Signature -> nat, other: Signature -> nat, s: seq<Signature>)
    requires Descending(rank, s) && forall x :: x in s ==> other(x) == rank(x)
    ensures Descending(other, s)
  {
    assert forall i :: 0 <= i < |s| ==> s[i] in s;
  }

  lemma SeenFirst(history: seq<Packet>, kind: Kind, s: seq<Signature>)
    requires history != [] && history[|history| - 1].kind == kind && SignatureOf(history[|history| - 1]) !in s
    requires Descending(SeenAt(history[..|history| - 1], kind), s)
    ensures Descending(SeenAt(history, kind), [SignatureOf(history[|history| - 1])] + s)
  {
    SameOrder(SeenAt(history[..|history| - 1], kind), SeenAt(history, kind), s);
    assert forall i :: 0 <= i < |s| ==> s[i] in s && LastSeen(history, kind, s[i]) < |history|;
  }

  lemma {:induction false} WithoutKeepsOrder(rank: Signature -> nat, s: seq<Signature>, x: Signature)
    requires Descending(rank, s)
    ensures Descending(rank, Without(s, x)) && forall y :: y in Without(s, x) ==> y in s
    decreases |s|
  {
    if s != [] {
      WithoutKeepsOrder(rank, s[1..], x);
      var rest := Without(s[1..], x);
      assert forall y :: y in s[1..] ==> rank(y) < rank(s[0]);
      assert forall i :: 0 <= i < |rest| ==> rest[i] in s[1..];
    }
  }

  /** Of the first `k`, the last one is the one not seen for longest. */
  lemma LastIsOldest(history: seq<Packet>, kind: Kind, k: nat)
    requires 0 < k <= |Recent(history, kind)|
    ensures var (s, last) := (Recent(history, kind), Recent(history, kind)[k - 1]);
      && last in Top(s, k) && Life(history, kind, last).lastSeen <= |history|
      && forall x :: x in Top(s, k) && x != last ==> Life(history, kind, last).lastSeen < Life(history, kind, x).lastSeen
  {
    SeenInOrder(history, kind);
    var s := Recent(history, kind);
    assert Top(s, k) == s[..k];
    assert s[k - 1] == s[..k][k - 1];
    forall x ensures Life(history, kind, x).lastSeen == LastSeen(history, kind, x) { LifeSeen(history, kind, x); }
    forall x | x in Top(s, k) && x != s[k - 1]
      ensures LastSeen(history, kind, s[k - 1]) < LastSeen(history, kind, x)
    {
      var i :| 0 <= i < k && s[..k][i] == x;
      assert s[i] == x && i < k - 1;
      assert SeenAt(history, kind)(s[k - 1]) < SeenAt(history, kind)(s[i]);
    }
  }

  lemma OldestIsLast(history: seq<Packet>, p: Packet, r: Records, oldest: Signature)
    requires Counted(history, p, r) && |r| > Capacity(p.kind) && oldest in r
    requires forall sig :: sig in r ==> r[oldest].lastSeen <= r[sig].lastSeen
    ensures r - {oldest} == Expected(history + [p], p.kind)
  {
    var (s, k) := (Recent(history, p.kind), Capacity(p.kind));
    CountedSize(history, p, r);
    CountedLives(history, p, r);
    LastIsOldest(history, p.kind, k);
    RecentAfter(history, p);
    Snoc(history, p);
    assert Life(history + [p], p.kind, SignatureOf(p)).lastSeen == |history| + 1;
    assert oldest == s[k - 1];
    RecentIsDistinct(history, p.kind);
    LastPushedOut(s, SignatureOf(p), k);
    SameKeys(history + [p], p.kind, r - {oldest});
  }

  // ---- What the reference means ----

  predicate Occurs(history: seq<Packet>, kind: Kind, sig: Signature) {
    exists i :: 0 <= i < |history| && Is(history[i], kind, sig)
  }

  /** When a signature was last seen, counting from one; zero if never. */
  function LastSeen(history: seq<Packet>, kind: Kind, sig: Signature): (n: nat)
    ensures n <= |history|
    decreases |history|
  {
    if history == [] then 0
    else if Is(history[|history| - 1], kind, sig) then |history|
    else LastSeen(history[..|history| - 1], kind, sig)
  }

  function Occurrences(history: seq<Packet>, kind: Kind, sig: Signature): nat
    decreases |history|
  {
    if history == [] then 0
    else Occurrences(history[..|history| - 1], kind, sig) + if Is(history[|history| - 1], kind, sig) then 1 else 0
  }

  lemma {:induction false} LifeSeen(history: seq<Packet>, kind: Kind, sig: Signature)
    ensures Life(history, kind, sig).lastSeen == LastSeen(history, kind, sig)
    decreases |history|
  {
    if history != [] { LifeSeen(history[..|history| - 1], kind, sig); }
  }

  lemma {:induction false} RecentOccur(history: seq<Packet>, kind: Kind, sig: Signature)
    ensures sig in Recent(history, kind) <==> LastSeen(history, kind, sig) > 0
    decreases |history|
  {
    if history != [] {
      var (before, p) := (history[..|history| - 1], history[|history| - 1]);
      RecentOccur(before, kind, sig);
      RecentIsDistinct(before, kind);
      WithoutKeeps(Recent(before, kind), SignatureOf(p));
    }
  }

  lemma {:induction false} LastSeenOccurs(history: seq<Packet>, kind: Kind, sig: Signature)
    ensures LastSeen(history, kind, sig) > 0 <==> Occurs(history, kind, sig)
    decreases |history|
  {
    if history != [] {
      var (before, p) := (history[..|history| - 1], history[|history| - 1]);
      LastSeenOccurs(before, kind, sig);
      assert history == before + [p];
      if Occurs(before, kind, sig) {
        var i :| 0 <= i < |before| && Is(before[i], kind, sig);
        assert Is(history[i], kind, sig);
      }
    }
  }

  /** Whatever the history, the signatures on record are as many of those seen as there is room for, none of
      them twice, and whoever is not on record was last seen before everyone who is. */
  lemma KeptAreMostRecent(history: seq<Packet>, kind: Kind)
    ensures |Expected(history, kind)| <= if kind == Unsupported then 50 else 100
    ensures forall x :: x in Expected(history, kind) ==> Occurs(history, kind, x)
    ensures forall x :: Occurs(history, kind, x) && x !in Expected(history, kind) ==>
      && |Expected(history, kind)| == (if kind == Unsupported then 50 else 100)
      && forall y :: y in Expected(history, kind) ==> LastSeen(history, kind, x) < LastSeen(history, kind, y)
  {
    var s := Recent(history, kind);
    ExpectedSize(history, kind);
    forall x ensures x in s <==> Occurs(history, kind, x) {
      RecentOccur(history, kind, x);
      LastSeenOccurs(history, kind, x);
    }
    forall x, y | x in s && x !in Kept(history, kind) && y in Kept(history, kind)
      ensures LastSeen(history, kind, x) < LastSeen(history, kind, y)
    {
      var i, j := Behind(s, Capacity(kind), x, y);
      SeenInOrder(history, kind);
      assert SeenAt(history, kind)(s[j]) < SeenAt(history, kind)(s[i]);
    }
  }

  lemma Behind(s: seq<Signature>, k: nat, x: Signature, y: Signature) returns (i: nat, j: nat)
    requires x in s && x !in Top(s, k) && y in Top(s, k)
    ensures |s| > k && i < j < |s| && s[i] == y && s[j] == x
  {
    j :| 0 <= j < |s| && s[j] == x;
    i :| 0 <= i < |Top(s, k)| && Top(s, k)[i] == y;
    assert forall l :: 0 <= l < |Top(s, k)| ==> Top(s, k)[l] == s[l];
  }

  /** `sig` was put on record at `i` and has stayed there. */
  ghost predicate OnRecordSince(history: seq<Packet>, kind: Kind, sig: Signature, i: nat) {
    && i < |history| && Is(history[i], kind, sig) && sig !in Kept(history[..i], kind)
    && forall j :: i < j <= |history| ==> sig in Kept(history[..j], kind)
  }

  /** A record holds what its newest packet brought. */
  lemma {:induction false} LifeHoldsNewest(history: seq<Packet>, kind: Kind, sig: Signature)
    requires LastSeen(history, kind, sig) > 0
    ensures var (r, p) := (Life(history, kind, sig), history[LastSeen(history, kind, sig) - 1]);
      && r.lastSeen == LastSeen(history, kind, sig)
      && r.lastRaw == p.raw && r.lastPayload == p.payload && p.raw in r.samples
    decreases |history|
  {
    LastSeenOccurs(history, kind, sig);
    if !Is(history[|history| - 1], kind, sig) { LifeHoldsNewest(history[..|history| - 1], kind, sig); }
  }

  lemma {:induction false} FewSamples(history: seq<Packet>, kind: Kind, sig: Signature)
    ensures |Life(history, kind, sig).samples| <= MAX_SAMPLES
    decreases |history|
  {
    if history != [] { FewSamples(history[..|history| - 1], kind, sig); }
  }

  lemma StaysOnRecord(history: seq<Packet>, p: Packet, kind: Kind, sig: Signature, i: nat)
    requires OnRecordSince(history, kind, sig, i) && sig in Kept(history + [p], kind)
    ensures OnRecordSince(history + [p], kind, sig, i)
    ensures Occurrences((history + [p])[i..], kind, sig)
            == Occurrences(history[i..], kind, sig) + if Is(p, kind, sig) then 1 else 0
  {
    var later := history + [p];
    assert later[..i] == history[..i] && later[..|later|] == later;
    forall j | i < j <= |later| ensures sig in Kept(later[..j], kind) {
      if j < |later| { assert later[..j] == history[..j]; }
    }
    assert later[i..] == history[i..] + [p];
    Snoc(history[i..], p);
  }

  lemma PutOnRecord(history: seq<Packet>, p: Packet, kind: Kind, sig: Signature)
    requires Is(p, kind, sig) && sig !in Kept(history, kind) && sig in Kept(history + [p], kind)
    ensures OnRecordSince(history + [p], kind, sig, |history|)
    ensures Occurrences((history + [p])[|history|..], kind, sig) == 1
  {
    var later := history + [p];
    assert later[..|history|] == history && later[..|later|] == later;
    assert later[|history|..] == [p] && [p][..0] == [];
  }

  /** A record counts the packets since its signature was last put on record. */
  lemma {:induction false} CountsSinceInsertion(history: seq<Packet>, kind: Kind, sig: Signature) returns (i: nat)
    requires sig in Kept(history, kind)
    ensures OnRecordSince(history, kind, sig, i)
    ensures Life(history, kind, sig).count == Occurrences(history[i..], kind, sig)
    ensures Life(history, kind, sig).firstSeen == i + 1
    decreases |history|
  {
    assert history != [];
    var (before, p) := (history[..|history| - 1], history[|history| - 1]);
    assert before + [p] == history;
    if sig in Kept(before, kind) {
      i := CountsSinceInsertion(before, kind, sig);
      StaysOnRecord(before, p, kind, sig, i);
    } else {
      i := |before|;
      NewcomerIsPacket(history, kind, sig);
      PutOnRecord(before, p, kind, sig);
    }
  }

  lemma NewcomerIsPacket(history: seq<Packet>, kind: Kind, sig: Signature)
    requires history != [] && sig in Kept(history, kind) && sig !in Kept(history[..|history| - 1], kind)
    ensures Is(history[|history| - 1], kind, sig)
  {
    var (before, p) := (history[..|history| - 1], history[|history| - 1]);
    if p.kind == kind && SignatureOf(p) != sig {
      var (s, k, x) := (Recent(before, kind), Capacity(kind), SignatureOf(p));
      RecentIsDistinct(before, kind);
      if x in Top(s, k) || |s| < k { NobodyPushedOut(s, x, k); } else { LastPushedOut(s, x, k); }
    }
  }

  // ---- Samples ----

  function SampledAll(raws: seq<bytes>): seq<bytes> {
    if raws == [] then [] else Sampled(SampledAll(raws[..|raws| - 1]), raws[|raws| - 1])
  }

  /** The raw packets of a signature since it was last put on record. */
  function RawsSince(history: seq<Packet>, kind: Kind, sig: Signature): seq<bytes>
    decreases |history|
  {
    if history == [] then []
    else
      var (before, p) := (history[..|history| - 1], history[|history| - 1]);
      if Is(p, kind, sig) then (if sig in Kept(before, kind) then RawsSince(before, kind, sig) else []) + [p.raw]
      else RawsSince(before, kind, sig)
  }

  lemma SampleOneMore(raws: seq<bytes>, raw: bytes)
    ensures SampledAll(raws + [raw]) == Sampled(SampledAll(raws), raw)
  {
    assert (raws + [raw])[..|raws|] == raws;
  }

  /** The samples of a record are those of its packets since then. */
  lemma {:induction false} SamplesAreOfRaws(history: seq<Packet>, kind: Kind, sig: Signature)
    ensures Life(history, kind, sig).samples == SampledAll(RawsSince(history, kind, sig))
    decreases |history|
  {
    if history != [] {
      var (before, p) := (history[..|history| - 1], history[|history| - 1]);
      SamplesAreOfRaws(before, kind, sig);
      if Is(p, kind, sig) {
        SampleOneMore(if sig in Kept(before, kind) then RawsSince(before, kind, sig) else [], p.raw);
      }
    }
  }

  predicate NoneTwice(s: seq<bytes>) {
    forall i, j :: 0 <= i < j < |s| ==> s[i] != s[j]
  }

  /** Samples are distinct packets of the record, five at most, the newest one included; and with fewer than five
      there is none that is not sampled. */
  lemma {:induction false} SamplesAreDistinct(raws: seq<bytes>)
    ensures var s := SampledAll(raws);
      && NoneTwice(s) && |s| <= 5 && (forall r :: r in s ==> r in raws)
      && (raws != [] ==> raws[|raws| - 1] in s) && (|s| < 5 ==> forall r :: r in raws ==> r in s)
    decreases |raws|
  {
    if raws != [] {
      var before := raws[..|raws| - 1];
      SamplesAreDistinct(before);
      assert raws == before + [raws[|raws| - 1]];
      SampleKeepsDistinct(SampledAll(before), raws[|raws| - 1]);
    }
  }

  lemma SampleKeepsDistinct(s: seq<bytes>, raw: bytes)
    requires NoneTwice(s) && |s| <= 5
    ensures var t := Sampled(s, raw);
      && NoneTwice(t) && |t| <= 5 && raw in t && (forall r :: r in t ==> r == raw || r in s)
      && (|t| < 5 ==> forall r :: r in s ==> r in t)
      && (raw !in s ==> t == (if |s| == 5 then s[1..] else s) + [raw])
  {
  }

  lemma {:induction false} DistinctFill(raws: seq<bytes>)
    requires NoneTwice(raws) && |raws| <= 5
    ensures SampledAll(raws) == raws
    decreases |raws|
  {
    if raws != [] {
      var (before, raw) := (raws[..|raws| - 1], raws[|raws| - 1]);
      DistinctFill(before);
      assert raws == before + [raw];
      assert raw !in before;
    }
  }

  /** They are the last to have entered, not the last to have been seen: a packet seen again, `again`, does not move
      up. So when `again` is the first of five, it goes before the four that were seen less recently. */
  lemma RepeatDoesNotRefresh(raws: seq<bytes>, again: bytes, next: bytes)
    requires NoneTwice(raws) && |raws| == 5 && again in raws && next !in raws
    ensures SampledAll(raws + [again] + [next]) == raws[1..] + [next]
  {
    DistinctFill(raws);
    SampleOneMore(raws, again);
    SampleOneMore(raws + [again], next);
  }
}
