/** What the disk holds when something takes effect: the guard's own snapshot, with the approvals in it. */
module RuntimeDisk {
  import opened Bytes
  import opened Wrappers
  import opened Dicts
  import opened Evidence
  import opened GuardState
  import GuardTrace
  import opened GuardRecords
  import opened Runtime

  /** Every noted approval the log has held since is in `events`, if it was made by `revision`. */
  ghost predicate Holds(s: State, events: seq<Event>, revision: nat) {
    forall e :: e in s.notes && s.notes[e].kept && e in s.approvals && s.approvals[e] <= revision ==>
      s.notes[e].event in events
  }

  /** The snapshot is the guard's of revision `revision`. */
  ghost predicate Current(s: State, snapshot: Snapshot, revision: nat) {
    && (revision == s.guard.evidence.revision ==> snapshot == SnapshotOf(s.guard))
    && Holds(s, snapshot.events, revision)
  }

  ghost predicate SaversCurrent(s: State) {
    forall id :: id in s.savers && !s.savers[id].stage.Waiting? ==>
      Current(s, s.savers[id].stage.snapshot, s.savers[id].stage.revision)
  }

  /** Once a save has been verified, `start` being the revision loaded, the disk holds what it says. */
  ghost predicate DiskCurrent(s: State, start: nat) {
    && (s.savedRevision != start && s.savedRevision == s.guard.evidence.revision ==> s.disk == Some(SnapshotOf(s.guard)))
    && (forall e :: e in s.notes && s.notes[e].kept && e in s.approvals && s.approvals[e] <= s.savedRevision ==>
          s.disk.Some? && s.notes[e].event in s.disk.value.events)
  }

  /** The note of an approved candidate is about its endpoint and its keys. */
  ghost predicate NotesTrue(s: State) {
    && (forall e :: e in s.approvals <==> e in s.notes)
    && (forall e :: Approved(s.guard, e) && e in s.notes ==>
          && s.notes[e].event.endpoint == e && s.notes[e].event.action == UserApproved
          && s.notes[e].event.keys == s.guard.pending.m[e].observation.keys)
  }

  ghost predicate KeptTrue(s: State) {
    forall e :: e in s.notes && s.notes[e].kept ==> s.notes[e].event in s.guard.evidence.events
  }

  /** Candidates are filed under their own endpoints. */
  ghost predicate Keyed(g: Guard) {
    forall e :: e in g.pending.m ==> g.pending.m[e].observation.endpoint == e
  }

  ghost predicate Stored(s: State, start: nat) {
    SaversCurrent(s) && DiskCurrent(s, start) && NotesTrue(s) && KeptTrue(s) && Keyed(s.guard)
  }

  /** Where the log still holds what it held, nothing is to be marked. */
  lemma WatchedStays(s: State)
    requires KeptTrue(s)
    ensures Watched(s) == s
  {
    assert Watched(s).notes == s.notes;
  }

  /** The guard moves on without approving anything. */
  lemma GuardMoves(s: State, g: Guard, start: nat)
    requires Inv(s) && Stored(s, start) && Tracks(s.guard, g) && KeepsKeys(s.guard, g)
    ensures Stored(Watched(s.(guard := g)), start)
  {
    var t := Watched(s.(guard := g));
    assert SaversCurrent(t);
    assert DiskCurrent(t, start);
    assert NotesTrue(t);
  }

  /** Nothing is approved, and what stays approved keeps its keys. */
  ghost predicate KeepsKeys(g: Guard, h: Guard) {
    && (Keyed(g) ==> Keyed(h))
    && forall e :: Approved(h, e) ==>
         Approved(g, e) && h.pending.m[e].observation.keys == g.pending.m[e].observation.keys
  }

  lemma ExpiryKeepsKeys(g: Guard, now: Time)
    ensures KeepsKeys(g, Expired(g, now).0)
    ensures forall e :: e in Expired(g, now).0.pending.m ==> e in g.pending.m && Expired(g, now).0.pending.m[e] == g.pending.m[e]
  {
    var unblocked := UnblockDue(g, g.blocked.order, now);
    DiscardStaleSpares(unblocked, g.pending.order, now);
    var h := DiscardStale(unblocked, g.pending.order, now).0;
    assert Expired(g, now).0.pending == h.pending;
  }

  lemma BegunKeepsKeys(g: Guard, o: Observation, now: Time)
    ensures KeepsKeys(g, Begun(g, o, now).0)
  {
  }

  lemma SeenAgainKeepsKeys(g: Guard, o: Observation, now: Time, linkHealthy: bool)
    requires o.endpoint in g.pending.m && g.pending.m[o.endpoint].observation.keys == o.keys
    ensures KeepsKeys(g, SeenAgain(g, o, now, linkHealthy).0)
  {
  }

  lemma JudgedKeepsKeys(g: Guard, o: Observation, now: Time, linkHealthy: bool)
    ensures KeepsKeys(g, Judged(g, o, now, linkHealthy).0)
  {
    var e := o.endpoint;
    if e in g.pending.m && g.pending.m[e].observation.keys == o.keys {
      SeenAgainKeepsKeys(g, o, now, linkHealthy);
    } else if e in g.pending.m && Recordable(g.pending.m[e].observation) {
      BegunKeepsKeys(Note(g, g.pending.m[e].observation, TopologyChanged, now), o, now);
    } else {
      BegunKeepsKeys(g, o, now);
    }
  }

  lemma ProbeKeepsKeys(g: Guard, o: Observation, success: bool, now: Time)
    ensures KeepsKeys(g, RecordProbe(g, o, success, now).0)
  {
  }

  lemma GuardedKeepsKeys(g: Guard, h: GuardTrace.Happening)
    requires !h.Verification? && !h.Reviewed?
    ensures KeepsKeys(g, GuardTrace.Do(g, h)) && Tracks(g, GuardTrace.Do(g, h))
  {
    match h
    case Observed(o, now, linkHealthy) =>
      ExpiryKeepsKeys(g, now);
      JudgedKeepsKeys(Expired(g, now).0, o, now, linkHealthy);
      RevisionTracksSnapshot(g, o, o.endpoint, true, now, linkHealthy);
    case Ticked(now) =>
      ExpiryKeepsKeys(g, now);
      ExpiryTracks(g, now);
    case Probed(o, success, now) =>
      ProbeKeepsKeys(g, o, success, now);
      RevisionTracksSnapshot(g, o, o.endpoint, success, now, true);
    case _ =>
  }

  /** A decision that approves nothing. */
  lemma DecidedKeepsKeys(g: Guard, endpoint: Endpoint, approve: bool, now: Time)
    requires Decided(g, endpoint, approve, now).1 != Yes || !approve
    ensures KeepsKeys(g, Decided(g, endpoint, approve, now).0)
  {
  }

  /** A decision that approves, or unblocks. */
  lemma DecidedApproves(g: Guard, endpoint: Endpoint, now: Time)
    requires Decided(g, endpoint, true, now).1 == Yes
    ensures var h := Decided(g, endpoint, true, now).0;
      && h.evidence.revision > g.evidence.revision && (Keyed(g) ==> Keyed(h))
      && (forall e :: Approved(h, e) && e != endpoint ==>
            Approved(g, e) && h.pending.m[e].observation.keys == g.pending.m[e].observation.keys)
      && (endpoint in h.pending.m ==>
            endpoint in g.pending.m && h.pending.m[endpoint].observation == g.pending.m[endpoint].observation)
  {
  }

  /** A review that approves nothing. */
  lemma ReviewKeepsKeys(g: Guard, endpoint: Endpoint, approve: bool, now: Time)
    requires GuardState.Review(g, endpoint, approve, now).1 != Yes || !approve
    ensures KeepsKeys(g, GuardState.Review(g, endpoint, approve, now).0)
  {
    ExpiryKeepsKeys(g, now);
    if !Expired(g, now).1 { DecidedKeepsKeys(Expired(g, now).0, endpoint, approve, now); }
  }

  /** What an approval leaves behind: its event at the end of the log, about its keys, at a new revision. */
  ghost predicate Approves(g: Guard, h: Guard, endpoint: Endpoint) {
    && h.evidence.revision > g.evidence.revision && h.evidence.events != [] && (Keyed(g) ==> Keyed(h))
    && (forall e :: Approved(h, e) && e != endpoint ==>
          Approved(g, e) && h.pending.m[e].observation.keys == g.pending.m[e].observation.keys)
    && var last := h.evidence.events[|h.evidence.events| - 1];
       endpoint in h.pending.m && Keyed(g) ==>
         last.endpoint == endpoint && last.action == UserApproved && last.keys == h.pending.m[endpoint].observation.keys
  }

  lemma ReviewApproving(g: Guard, endpoint: Endpoint, now: Time)
    requires GuardState.Review(g, endpoint, true, now).1 == Yes
    ensures Approves(g, GuardState.Review(g, endpoint, true, now).0, endpoint)
  {
    ExpiryKeepsKeys(g, now);
    DecidedApproves(Expired(g, now).0, endpoint, now);
    ReviewIsSaid(g, endpoint, true, now);
  }

  lemma ApprovalMoves(s: State, g: Guard, endpoint: Endpoint, start: nat)
    requires Inv(s) && Stored(s, start) && Approves(s.guard, g, endpoint)
    ensures Stored(Watched(s.(guard := g, approvals := s.approvals[endpoint := g.evidence.revision],
                              notes := Noted(s.notes, endpoint, g))), start)
  {
    ApprovalIsLater(s, g, endpoint);
    ApprovalIsTrue(s, g, endpoint);
    var t := Watched(s.(guard := g, approvals := s.approvals[endpoint := g.evidence.revision],
                        notes := Noted(s.notes, endpoint, g)));
    assert DiskCurrent(t, start);
  }

  lemma ApprovalIsLater(s: State, g: Guard, endpoint: Endpoint)
    requires Inv(s) && SaversCurrent(s) && Approves(s.guard, g, endpoint)
    ensures SaversCurrent(Watched(s.(guard := g, approvals := s.approvals[endpoint := g.evidence.revision],
                                     notes := Noted(s.notes, endpoint, g))))
  {
  }

  lemma ApprovalIsTrue(s: State, g: Guard, endpoint: Endpoint)
    requires NotesTrue(s) && Keyed(s.guard) && Approves(s.guard, g, endpoint)
    ensures NotesTrue(Watched(s.(guard := g, approvals := s.approvals[endpoint := g.evidence.revision],
                                 notes := Noted(s.notes, endpoint, g))))
  {
  }

  predicate SameSave(s: State, t: State, id: nat)
    requires id in t.savers && !t.savers[id].stage.Waiting?
  {
    && id in s.savers && !s.savers[id].stage.Waiting?
    && t.savers[id].stage.snapshot == s.savers[id].stage.snapshot
    && t.savers[id].stage.revision == s.savers[id].stage.revision
  }

  /** Coroutines come, go and wait; admission is switched. */
  lemma OthersStay(s: State, t: State, start: nat)
    requires Stored(s, start) && t.disk == s.disk && t.savedRevision == s.savedRevision
    requires t.approvals == s.approvals && t.notes == s.notes
    requires t.guard == s.guard.(verification := t.guard.verification)
    requires forall id :: id in t.savers && !t.savers[id].stage.Waiting? ==> SameSave(s, t, id)
    ensures Stored(t, start)
  {
    assert SnapshotOf(t.guard) == SnapshotOf(s.guard);
  }

  lemma WritingStays(s: State, id: nat, start: nat)
    requires Inv(s) && Stored(s, start) && id in s.savers
    ensures var stage := Writing(SnapshotOf(s.guard), s.guard.evidence.revision);
      Stored(s.(savers := s.savers[id := s.savers[id].(stage := stage)], saving := Some(id)), start)
  {
  }

  /** The save that is entered: the guard expires first, then it ends at once or its snapshot is taken. */
  lemma EnteredIs(s: State, a: Runtime.Action)
    requires a.EnterSave? && Enabled(s, a)
    ensures var (g, raised) := Expired(s.guard, a.now);
      var t := s.(guard := g);
      Next(s, a) == if raised then Gone(t, a.id)
                    else if g.evidence.revision == s.savedRevision then Returned(t, a.id, a.linkHealthy)
                    else t.(savers := s.savers[a.id := s.savers[a.id].(stage := Writing(SnapshotOf(g), g.evidence.revision))],
                            saving := Some(a.id))
  {
  }

  lemma EndedStays(t: State, id: nat, linkHealthy: bool, start: nat)
    requires Stored(Watched(t), start) && id in t.savers
    ensures Stored(Watched(Gone(t, id)), start) && Stored(Watched(Returned(t, id, linkHealthy)), start)
  {
    assert Watched(Gone(t, id)).notes == Watched(t).notes;
    OthersStay(Watched(t), Watched(Gone(t, id)), start);
    assert Watched(Returned(t, id, linkHealthy)).notes == Watched(t).notes;
    OthersStay(Watched(t), Watched(Returned(t, id, linkHealthy)), start);
  }

  lemma EnterSaveStays(s: State, a: Runtime.Action, start: nat)
    requires Inv(s) && Stored(s, start) && a.EnterSave? && Enabled(s, a)
    ensures Stored(Watched(Next(s, a)), start)
  {
    ExpiryKeepsKeys(s.guard, a.now);
    ExpiryTracks(s.guard, a.now);
    var g := Expired(s.guard, a.now).0;
    GuardMoves(s, g, start);
    ExpiryApproves(s.guard, a.now);
    GuardMovesKeep(s, g);
    EnteredIs(s, a);
    EndedStays(s.(guard := g), a.id, a.linkHealthy, start);
    SnapshotStays(s.(guard := g), a.id, start);
  }

  lemma SnapshotStays(t: State, id: nat, start: nat)
    requires Inv(t) && Stored(Watched(t), start) && id in t.savers
    ensures var stage := Writing(SnapshotOf(t.guard), t.guard.evidence.revision);
      Stored(Watched(t.(savers := t.savers[id := t.savers[id].(stage := stage)], saving := Some(id))), start)
  {
    InvIgnoresNotes(t, Watched(t).notes);
    WritingStays(Watched(t), id, start);
    var stage := Writing(SnapshotOf(t.guard), t.guard.evidence.revision);
    assert Watched(t.(savers := t.savers[id := t.savers[id].(stage := stage)], saving := Some(id))).notes == Watched(t).notes;
  }

  lemma WriteEndsStays(s: State, a: Runtime.Action, start: nat)
    requires Inv(s) && Stored(s, start) && a.WriteEnds? && Enabled(s, a)
    ensures Stored(Next(s, a), start)
  {
    var t := if a.written then s.(disk := Some(s.savers[a.id].stage.snapshot)) else s;
    assert Stored(t, start);
    OthersStay(t, Next(s, a), start);
  }

  lemma CheckEndsStays(s: State, a: Runtime.Action, start: nat)
    requires Inv(s) && Stored(s, start) && a.CheckEnds? && Enabled(s, a)
    ensures Stored(Next(s, a), start)
  {
    if a.matches {
      var t := s.(savedRevision := s.savers[a.id].stage.revision);
      assert Current(s, s.savers[a.id].stage.snapshot, s.savers[a.id].stage.revision);
      assert Stored(t, start);
      OthersStay(t, Next(s, a), start);
    } else {
      OthersStay(s, Next(s, a), start);
    }
  }

  /** A coroutine begins to wait, with admission off. */
  lemma WaitingStays(s: State, id: nat, kind: Kind, start: nat)
    requires Stored(s, start)
    ensures var off := WithVerification(s, false);
      && Stored(off, start) && Watched(off) == off
      && Stored(off.(savers := s.savers[id := Saver(kind, Waiting)], operation := Some(id)), start)
  {
    OthersStay(s, WithVerification(s, false), start);
    OthersStay(s, WithVerification(s, false).(savers := s.savers[id := Saver(kind, Waiting)], operation := Some(id)), start);
    WatchedStays(WithVerification(s, false));
  }

  /** Watching looks at the log and the notes only. */
  lemma WatchedLater(s: State, id: nat, kind: Kind)
    ensures Watched(WithVerification(s, false)) == WithVerification(Watched(s), false)
    ensures Watched(WithVerification(s.(savers := s.savers[id := Saver(kind, Waiting)], operation := Some(id)), false))
            == WithVerification(Watched(s), false).(savers := s.savers[id := Saver(kind, Waiting)], operation := Some(id))
  {
  }

  lemma BeginTickStays(s: State, a: Runtime.Action, start: nat)
    requires Inv(s) && Stored(s, start) && a.BeginTick? && Enabled(s, a)
    ensures Stored(Watched(Next(s, a)), start)
  {
    var (g, raised) := Expired(s.guard, a.now);
    var noted := if a.rxError.Some? && !raised then Note(g, RxError(a.rxError.value), RxValidationFailed, a.now) else g;
    ExpiryKeepsKeys(s.guard, a.now);
    ExpiryTracks(s.guard, a.now);
    GuardMoves(s, noted, start);
    WaitingStays(Watched(s.(guard := noted)), a.id, Tick, start);
    WatchedLater(s.(guard := noted), a.id, Tick);
  }

  /** The state after the review itself. */
  function ReviewedState(s: State, endpoint: Endpoint, approve: bool, now: Time): State {
    var (g, answer) := GuardState.Review(s.guard, endpoint, approve, now);
    if answer == Yes && approve then
      s.(guard := g, approvals := s.approvals[endpoint := g.evidence.revision], notes := Noted(s.notes, endpoint, g))
    else s.(guard := g)
  }

  lemma ReviewMoves(s: State, endpoint: Endpoint, approve: bool, now: Time, start: nat)
    requires Inv(s) && Stored(s, start)
    ensures Stored(Watched(ReviewedState(s, endpoint, approve, now)), start)
  {
    var (g, answer) := GuardState.Review(s.guard, endpoint, approve, now);
    if answer == Yes && approve {
      ReviewApproving(s.guard, endpoint, now);
      ApprovalMoves(s, g, endpoint, start);
    } else {
      ReviewKeepsKeys(s.guard, endpoint, approve, now);
      RevisionTracksSnapshot(s.guard, Observation(endpoint, {}, [], false), endpoint, approve, now, true);
      GuardMoves(s, g, start);
    }
  }

  lemma NextReview(s: State, a: Runtime.Action)
    requires a.BeginReview? && Enabled(s, a)
    ensures var t := ReviewedState(WithVerification(s, false), a.endpoint, a.approve, a.now);
      Next(s, a) == if GuardState.Review(WithVerification(s, false).guard, a.endpoint, a.approve, a.now).1 == Yes
                    then t.(savers := s.savers[a.id := Saver(Review, Waiting)], operation := Some(a.id)) else t
  {
  }

  lemma BeginReviewStays(s: State, a: Runtime.Action, start: nat)
    requires Inv(s) && Stored(s, start) && a.BeginReview? && Enabled(s, a)
    ensures Stored(Watched(Next(s, a)), start)
  {
    var off := WithVerification(s, false);
    SwitchingOffKeeps(s);
    OthersStay(s, off, start);
    ReviewMoves(off, a.endpoint, a.approve, a.now, start);
    NextReview(s, a);
    JoinedStays(ReviewedState(off, a.endpoint, a.approve, a.now), a.id, start);
  }

  lemma JoinedStays(t: State, id: nat, start: nat)
    requires Stored(Watched(t), start)
    ensures Stored(Watched(t.(savers := t.savers[id := Saver(Review, Waiting)], operation := Some(id))), start)
  {
    var u := t.(savers := t.savers[id := Saver(Review, Waiting)], operation := Some(id));
    assert Watched(u).notes == Watched(t).notes;
    OthersStay(Watched(t), Watched(u), start);
  }

  lemma StepStays(s: State, a: Runtime.Action, start: nat)
    requires Inv(s) && Stored(s, start) && Enabled(s, a)
    ensures Stored(Watched(Next(s, a)), start)
  {
    match a
    case BeginTick(_, _, _) => BeginTickStays(s, a, start);
    case BeginReview(_, _, _, _) => BeginReviewStays(s, a, start);
    case EnterSave(_, _, _) => EnterSaveStays(s, a, start);
    case Guarded(h) =>
      GuardedKeepsKeys(s.guard, h);
      GuardMoves(s, GuardTrace.Do(s.guard, h), start);
    case WriteEnds(_, _, _, _) => WriteEndsStays(s, a, start); WatchedStays(Next(s, a));
    case CheckEnds(_, _, _) => CheckEndsStays(s, a, start); WatchedStays(Next(s, a));
    case BeginShutdown(_) => OthersStay(s, Next(s, a), start); WatchedStays(Next(s, a));
    case Interrupt(_) => OthersStay(s, Next(s, a), start); WatchedStays(Next(s, a));
    case Stopping => OthersStay(s, Next(s, a), start); WatchedStays(Next(s, a));
  }

  lemma {:induction false} RunStored(s: State, run: seq<Runtime.Action>)
    requires Start(s)
    ensures Stored(After(s, run), s.savedRevision)
    decreases |run|
  {
    if run != [] {
      var (before, a) := (run[..|run| - 1], run[|run| - 1]);
      RunStored(s, before);
      Reachable(s, before);
      if Enabled(After(s, before), a) { StepStays(After(s, before), a, s.savedRevision); }
    }
  }

  /** In every reachable state after a verified save: while the guard's revision is the saved one, the disk holds
      the guard's events and blocks, neither more nor less. */
  lemma SavedMeansOnDisk(s: State, run: seq<Runtime.Action>)
    requires Start(s) && After(s, run).savedRevision != s.savedRevision
    requires After(s, run).savedRevision == After(s, run).guard.evidence.revision
    ensures After(s, run).disk == Some(SnapshotOf(After(s, run).guard))
  {
    RunStored(s, run);
  }

  /** In every run, over all interleavings of ticks, reviews, saves, failures, cancellations, shutdown and
      frames: when a frame is admitted, the approval it rests on had been saved and read back, and no review
      or tick is in the middle of its save. The disk holds the very event of that approval, for these keys, unless
      the bounded log itself has let go of it. A failed or unfinished save never leads to an admission. */
  lemma DurableBeforeEffective(s: State, run: seq<Runtime.Action>, h: GuardTrace.Happening)
    requires Start(s) && Enabled(After(s, run), Guarded(h))
    requires h.Observed? && h.o.keys != {} && Observe(After(s, run).guard, h.o, h.now, h.linkHealthy).1 == Yes
    ensures var (t, e) := (After(s, run), h.o.endpoint);
            && e in t.approvals && t.approvals[e] <= t.savedRevision
            && t.operation.None? && !t.stopping
            && e in t.notes && t.notes[e].event.action == UserApproved && t.notes[e].event.endpoint == e
            && t.notes[e].event.keys == h.o.keys
            && (t.notes[e].kept ==> t.disk.Some? && t.notes[e].event in t.disk.value.events)
  {
    Reachable(s, run);
    RunStored(s, run);
    var t := After(s, run);
    GuardTrace.AdmissionComesFromCandidate(Expired(t.guard, h.now).0, h.o, h.now, h.linkHealthy);
    ExpiryKeepsKeys(t.guard, h.now);
    assert Approved(Expired(t.guard, h.now).0, h.o.endpoint);
  }

  lemma SavingNotesNothing(s: State, a: Runtime.Action)
    requires Enabled(s, a) && (a.EnterSave? || a.WriteEnds? || a.CheckEnds? || a.Interrupt?)
    ensures Next(s, a).notes == s.notes
  {
  }

  lemma OnlyReviewsNote(s: State, a: Runtime.Action)
    requires Enabled(s, a) && !a.BeginReview?
    ensures Next(s, a).notes == s.notes
  {
    if a.EnterSave? || a.WriteEnds? || a.CheckEnds? || a.Interrupt? { SavingNotesNothing(s, a); }
  }

  /** As long as nobody reviews and the log holds the event, the note is not marked. */
  lemma KeptWhileHeld(s: State, a: Runtime.Action, e: Endpoint)
    requires Enabled(s, a) && !a.BeginReview? && e in s.notes
    ensures e in Watched(Next(s, a)).notes
    ensures Watched(Next(s, a)).notes[e].kept <==> s.notes[e].kept && s.notes[e].event in Next(s, a).guard.evidence.events
  {
    OnlyReviewsNote(s, a);
  }
}
