/** Durable before effective: the runtime that saves the guard's evidence and switches admission on, as
    steps between suspension points of its ticks, reviews and saves. */
module Runtime {
  import opened Bytes
  import opened Wrappers
  import opened Dicts
  import opened Evidence
  import opened GuardState
  import opened GuardTrace

  /** The coroutines that save. Ticks and reviews hold the operation lock; a shutdown save does not. */
  datatype Kind = Tick | Review | Shutdown

  /** Where a save is suspended: before the save lock, during the write, or during the read-back. */
  datatype Stage = Waiting | Writing(snapshot: Snapshot, revision: nat) | Checking(snapshot: Snapshot, revision: nat)

  datatype Saver = Saver(kind: Kind, stage: Stage)

  datatype State = State(
    guard: Guard,
    savedRevision: nat,
    disk: Option<Snapshot>,
    stopping: bool,
    savers: map<nat, Saver>,
    operation: Option<nat>,        // holder of the operation lock
    saving: Option<nat>,           // holder of the save lock
    approvals: map<Endpoint, nat>, // the revision at which each endpoint was last approved
    notes: map<Endpoint, Approval>)

  /** The event that notes an approval, and whether the log has held it ever since. */
  datatype Approval = Approval(event: Event, kept: bool)

  datatype Action =
    | BeginTick(id: nat, now: Time, rxError: Option<bytes>)
    | BeginReview(id: nat, endpoint: Endpoint, approve: bool, now: Time)
    | BeginShutdown(id: nat)
    | EnterSave(id: nat, now: Time, linkHealthy: bool)
    | WriteEnds(id: nat, written: bool, ok: bool, linkHealthy: bool)
    | CheckEnds(id: nat, matches: bool, linkHealthy: bool)
    | Interrupt(id: nat)
    | Guarded(h: Happening)
    | Stopping

  /** The link never counts as healthy once shutdown has begun. */
  predicate LinkPossible(s: State, linkHealthy: bool) {
    linkHealthy ==> !s.stopping
  }

  predicate Enabled(s: State, a: Action) {
    match a
    case BeginTick(id, _, _) => id !in s.savers && s.operation.None?
    case BeginReview(id, _, _, _) => id !in s.savers && s.operation.None?
    case BeginShutdown(id) => id !in s.savers
    case EnterSave(id, _, link) => id in s.savers && s.savers[id].stage.Waiting? && s.saving.None? && LinkPossible(s, link)
    case WriteEnds(id, written, ok, link) =>
      id in s.savers && s.savers[id].stage.Writing? && (ok ==> written) && LinkPossible(s, link)
    case CheckEnds(id, matches, link) =>
      && id in s.savers && s.savers[id].stage.Checking? && LinkPossible(s, link)
      && (matches ==> s.disk == Some(s.savers[id].stage.snapshot))
    case Interrupt(id) => id in s.savers
    case Guarded(h) =>
      !h.Verification? && !h.Reviewed? && (h.Observed? ==> LinkPossible(s, h.linkHealthy))
    case Stopping => true
  }

  /** The newest event of the log is the one about `endpoint`. */
  function Noted(notes: map<Endpoint, Approval>, endpoint: Endpoint, g: Guard): map<Endpoint, Approval> {
    if g.evidence.events == [] then notes
    else notes[endpoint := Approval(g.evidence.events[|g.evidence.events| - 1], true)]
  }

  /** An approval that the log no longer holds is marked, once and for all. */
  function Watched(s: State): State {
    s.(notes := map e | e in s.notes :: s.notes[e].(kept := s.notes[e].kept && s.notes[e].event in s.guard.evidence.events))
  }

  /** What is noted about bytes that failed their checks. */
  function RxError(raw: bytes): Observation {
    Observation(Receiver, {}, raw, false)
  }

  function WithVerification(s: State, on: bool): State {
    s.(guard := s.guard.(verification := on))
  }

  /** The coroutine ends and gives back what it holds. */
  function Gone(s: State, id: nat): State {
    s.(savers := s.savers - {id},
       operation := if s.operation == Some(id) then None else s.operation,
       saving := if s.saving == Some(id) then None else s.saving)
  }

  /** `async_save` has returned: a tick switches admission by the link, a review leaves it off. */
  function Returned(s: State, id: nat, linkHealthy: bool): State
    requires id in s.savers
  {
    Gone(if s.savers[id].kind == Tick then WithVerification(s, linkHealthy) else s, id)
  }

  function Next(s: State, a: Action): State
    requires Enabled(s, a)
  {
    match a
    case BeginTick(id, now, rxError) =>
      var (g, raised) := Expired(s.guard, now);
      var noted := if rxError.Some? && !raised then Note(g, RxError(rxError.value), RxValidationFailed, now) else g;
      var off := WithVerification(s.(guard := noted), false);
      if raised then off else off.(savers := s.savers[id := Saver(Tick, Waiting)], operation := Some(id))
    case BeginReview(id, endpoint, approve, now) =>
      var off := WithVerification(s, false);
      var (g, answer) := GuardState.Review(off.guard, endpoint, approve, now);
      var reviewed := off.(
        guard := g,
        approvals := if answer == Yes && approve then s.approvals[endpoint := g.evidence.revision] else s.approvals,
        notes := if answer == Yes && approve then Noted(s.notes, endpoint, g) else s.notes);
      if answer == Yes then reviewed.(savers := s.savers[id := Saver(Review, Waiting)], operation := Some(id)) else reviewed
    case BeginShutdown(id) => s.(savers := s.savers[id := Saver(Shutdown, Waiting)])
    case EnterSave(id, now, linkHealthy) =>
      var t := s.(guard := Expired(s.guard, now).0);
      if Expired(s.guard, now).1 then Gone(t, id)
      else if t.guard.evidence.revision == s.savedRevision then Returned(t, id, linkHealthy)
      else
        var stage := Writing(SnapshotOf(t.guard), t.guard.evidence.revision);
        t.(savers := s.savers[id := s.savers[id].(stage := stage)], saving := Some(id))
    case WriteEnds(id, written, ok, linkHealthy) =>
      var stage := s.savers[id].stage;
      var t := if written then s.(disk := Some(stage.snapshot)) else s;
      if !ok then Gone(t, id)
      else if s.stopping then Returned(WithVerification(t, false), id, linkHealthy)
      else t.(savers := s.savers[id := s.savers[id].(stage := Checking(stage.snapshot, stage.revision))])
    case CheckEnds(id, matches, linkHealthy) =>
      if matches then Returned(s.(savedRevision := s.savers[id].stage.revision), id, linkHealthy) else Gone(s, id)
    case Interrupt(id) => Gone(s, id)
    case Guarded(h) => s.(guard := Do(s.guard, h))
    case Stopping => s.(stopping := true)
  }

  /** After loading: no candidate, admission off, and what was loaded counts as saved. */
  ghost predicate Start(s: State) {
    && GuardTrace.Initial(s.guard) && !s.guard.verification
    && s.savedRevision == s.guard.evidence.revision
    && s.savers == map[] && s.operation.None? && s.saving.None? && s.approvals == map[] && s.notes == map[]
  }

  /** A run of attempted actions; one that is not enabled does nothing. */
  function After(s: State, run: seq<Action>): State {
    if run == [] then s
    else
      var t := After(s, run[..|run| - 1]);
      var a := run[|run| - 1];
      if Enabled(t, a) then Watched(Next(t, a)) else t
  }

  /** An approved candidate that can be recorded; no other is ever admitted. */
  predicate Approved(g: Guard, e: Endpoint) {
    e in g.pending.m && g.pending.m[e].approved && Recordable(g.pending.m[e].observation)
  }

  /** Every approved candidate was approved at a known revision, no later than `limit`. */
  ghost predicate ApprovedBy(s: State, limit: nat) {
    forall e :: Approved(s.guard, e) ==> e in s.approvals && s.approvals[e] <= limit
  }

  /** The promise: while admission is on, every approved candidate was approved before the snapshot of the
      last verified save was taken. */
  ghost predicate Durable(s: State) {
    s.guard.verification ==> ApprovedBy(s, s.savedRevision)
  }

  function RevisionOf(stage: Stage): nat {
    if stage.Waiting? then 0 else stage.revision
  }

  /** What every step keeps. */
  ghost predicate Inv(s: State) {
    && Durable(s)
    && ApprovedBy(s, s.guard.evidence.revision)
    && s.savedRevision <= s.guard.evidence.revision
    && (s.operation.Some? ==> !s.guard.verification && s.operation.value in s.savers)
    && (s.saving.Some? ==> s.saving.value in s.savers)
    && (forall id :: id in s.savers ==>
          && (s.savers[id].kind != Shutdown ==> s.operation == Some(id))
          && (!s.savers[id].stage.Waiting? ==>
                && s.saving == Some(id)
                && s.savedRevision < RevisionOf(s.savers[id].stage) <= s.guard.evidence.revision)
          && (s.savers[id].kind == Tick && !s.savers[id].stage.Waiting? ==>
                ApprovedBy(s, RevisionOf(s.savers[id].stage))))
  }

  lemma {:induction false} DiscardingApproves(g: Guard, keys: seq<Endpoint>, now: Time)
    ensures forall e :: Approved(DiscardStale(g, keys, now).0, e) ==> Approved(g, e)
  {
    DiscardStaleSpares(g, keys, now);
  }

  lemma ExpiryApproves(g: Guard, now: Time)
    ensures forall e :: Approved(Expired(g, now).0, e) ==> Approved(g, e)
  {
    var unblocked := UnblockDue(g, g.blocked.order, now);
    DiscardingApproves(unblocked, unblocked.pending.order, now);
    forall e | Approved(Expired(g, now).0, e) ensures Approved(g, e) {
      assert Approved(DiscardStale(unblocked, unblocked.pending.order, now).0, e);
    }
  }

  lemma JudgedApproves(g: Guard, o: Observation, now: Time, linkHealthy: bool)
    ensures var h := Judged(g, o, now, linkHealthy).0;
            && h.verification == g.verification && g.evidence.revision <= h.evidence.revision
            && forall e :: Approved(h, e) ==> Approved(g, e)
  {
  }

  /** Nothing but a review approves, and nothing but the runtime switches admission. */
  lemma GuardedStepsDoNotApprove(g: Guard, h: Happening)
    requires !h.Verification? && !h.Reviewed?
    ensures Do(g, h).verification == g.verification
    ensures g.evidence.revision <= Do(g, h).evidence.revision
    ensures forall e :: Approved(Do(g, h), e) ==> Approved(g, e)
  {
    match h
    case Observed(o, now, linkHealthy) =>
      ExpiryApproves(g, now);
      JudgedApproves(Expired(g, now).0, o, now, linkHealthy);
    case Ticked(now) => ExpiryApproves(g, now);
    case _ =>
  }

  lemma DecidedApproves(g: Guard, endpoint: Endpoint, approve: bool, now: Time)
    ensures var (h, answer) := Decided(g, endpoint, approve, now);
            && h.verification == g.verification && g.evidence.revision <= h.evidence.revision
            && forall e :: Approved(h, e) ==> Approved(g, e) || (answer == Yes && approve && e == endpoint)
  {
  }

  lemma ReviewApproves(g: Guard, endpoint: Endpoint, approve: bool, now: Time)
    ensures var (h, answer) := GuardState.Review(g, endpoint, approve, now);
            && h.verification == g.verification && g.evidence.revision <= h.evidence.revision
            && forall e :: Approved(h, e) ==> Approved(g, e) || (answer == Yes && approve && e == endpoint)
  {
    ExpiryApproves(g, now);
    DecidedApproves(Expired(g, now).0, endpoint, approve, now);
  }

  /** A change of the guard that approves nothing and switches nothing. */
  lemma GuardMovesKeep(s: State, g: Guard)
    requires Inv(s) && g.verification == s.guard.verification
    requires s.guard.evidence.revision <= g.evidence.revision
    requires forall e :: Approved(g, e) ==> Approved(s.guard, e)
    ensures Inv(s.(guard := g))
  {
  }

  lemma SwitchingOffKeeps(s: State)
    requires Inv(s)
    ensures Inv(WithVerification(s, false))
  {
  }

  /** A tick or review that has done its part takes the operation lock and goes on to save. */
  lemma JoiningKeeps(s: State, id: nat, kind: Kind)
    requires Inv(s) && id !in s.savers && s.operation.None? && !s.guard.verification && kind != Shutdown
    ensures Inv(s.(savers := s.savers[id := Saver(kind, Waiting)], operation := Some(id)))
  {
  }

  lemma BeginTickKeeps(s: State, a: Action)
    requires Inv(s) && a.BeginTick? && Enabled(s, a)
    ensures Inv(Next(s, a))
  {
    var (g, raised) := Expired(s.guard, a.now);
    var noted := if a.rxError.Some? && !raised then Note(g, RxError(a.rxError.value), RxValidationFailed, a.now) else g;
    ExpiryApproves(s.guard, a.now);
    GuardMovesKeep(s, noted);
    var t := s.(guard := noted);
    SwitchingOffKeeps(t);
    if !raised { JoiningKeeps(WithVerification(t, false), a.id, Tick); }
  }

  /** A review may approve one endpoint, at the revision it leaves behind. */
  lemma ReviewingKeeps(s: State, endpoint: Endpoint, approve: bool, now: Time)
    requires Inv(s) && s.operation.None? && !s.guard.verification
    ensures var (g, answer) := GuardState.Review(s.guard, endpoint, approve, now);
            var approvals := if answer == Yes && approve then s.approvals[endpoint := g.evidence.revision] else s.approvals;
            Inv(s.(guard := g, approvals := approvals))
  {
    ReviewApproves(s.guard, endpoint, approve, now);
  }

  lemma InvIgnoresNotes(s: State, notes: map<Endpoint, Approval>)
    requires Inv(s)
    ensures Inv(s.(notes := notes))
  {
  }

  lemma BeginReviewKeeps(s: State, a: Action)
    requires Inv(s) && a.BeginReview? && Enabled(s, a)
    ensures Inv(Next(s, a))
  {
    SwitchingOffKeeps(s);
    var off := WithVerification(s, false);
    ReviewingKeeps(off, a.endpoint, a.approve, a.now);
    ReviewApproves(off.guard, a.endpoint, a.approve, a.now);
    var (g, answer) := GuardState.Review(off.guard, a.endpoint, a.approve, a.now);
    var approvals := if answer == Yes && a.approve then s.approvals[a.endpoint := g.evidence.revision] else s.approvals;
    var notes := if answer == Yes && a.approve then Noted(s.notes, a.endpoint, g) else s.notes;
    InvIgnoresNotes(off.(guard := g, approvals := approvals), notes);
    var reviewed := off.(guard := g, approvals := approvals, notes := notes);
    if answer == Yes {
      JoiningKeeps(reviewed, a.id, Review);
    }
  }

  /** Ending a coroutine gives back its locks; a tick whose save went through may switch admission on. */
  lemma EndingKeeps(s: State, id: nat, linkHealthy: bool)
    requires Inv(s) && id in s.savers
    ensures Inv(Gone(s, id))
    ensures (s.savers[id].kind == Tick ==> ApprovedBy(s, s.savedRevision)) ==> Inv(Returned(s, id, linkHealthy))
  {
  }

  /** The snapshot is taken and the write begins. */
  lemma WritingKeeps(s: State, id: nat)
    requires Inv(s) && id in s.savers && s.savers[id].stage.Waiting? && s.saving.None?
    requires s.guard.evidence.revision != s.savedRevision
    ensures var stage := Writing(SnapshotOf(s.guard), s.guard.evidence.revision);
            Inv(s.(savers := s.savers[id := s.savers[id].(stage := stage)], saving := Some(id)))
  {
  }

  lemma EnterSaveKeeps(s: State, a: Action)
    requires Inv(s) && a.EnterSave? && Enabled(s, a)
    ensures Inv(Next(s, a))
  {
    ExpiryApproves(s.guard, a.now);
    GuardMovesKeep(s, Expired(s.guard, a.now).0);
    var t := s.(guard := Expired(s.guard, a.now).0);
    if Expired(s.guard, a.now).1 {
      EndingKeeps(t, a.id, false);
    } else if t.guard.evidence.revision == s.savedRevision {
      EndingKeeps(t, a.id, a.linkHealthy);
    } else {
      WritingKeeps(t, a.id);
    }
  }

  /** The write went through and is read back. */
  lemma CheckingKeeps(s: State, id: nat)
    requires Inv(s) && id in s.savers && s.savers[id].stage.Writing?
    ensures var stage := s.savers[id].stage;
            Inv(s.(savers := s.savers[id := s.savers[id].(stage := Checking(stage.snapshot, stage.revision))]))
  {
  }

  lemma WriteEndsKeeps(s: State, a: Action)
    requires Inv(s) && a.WriteEnds? && Enabled(s, a)
    ensures Inv(Next(s, a))
  {
    var t := if a.written then s.(disk := Some(s.savers[a.id].stage.snapshot)) else s;
    assert Inv(t);
    if !a.ok {
      EndingKeeps(t, a.id, false);
    } else if s.stopping {
      SwitchingOffKeeps(t);
      EndingKeeps(WithVerification(t, false), a.id, false);
      assert Returned(WithVerification(t, false), a.id, false) == Gone(WithVerification(t, false), a.id);
    } else {
      CheckingKeeps(t, a.id);
    }
  }

  lemma CheckEndsKeeps(s: State, a: Action)
    requires Inv(s) && a.CheckEnds? && Enabled(s, a)
    ensures Inv(Next(s, a))
  {
    EndingKeeps(s, a.id, a.linkHealthy);
  }

  lemma GuardedKeeps(s: State, a: Action)
    requires Inv(s) && a.Guarded? && Enabled(s, a)
    ensures Inv(Next(s, a))
  {
    GuardedStepsDoNotApprove(s.guard, a.h);
  }

  lemma StepKeeps(s: State, a: Action)
    requires Inv(s) && Enabled(s, a)
    ensures Inv(Next(s, a))
  {
    match a
    case BeginTick(_, _, _) => BeginTickKeeps(s, a);
    case BeginReview(_, _, _, _) => BeginReviewKeeps(s, a);
    case EnterSave(_, _, _) => EnterSaveKeeps(s, a);
    case Guarded(_) => GuardedKeeps(s, a);
    case WriteEnds(_, _, _, _) => WriteEndsKeeps(s, a);
    case CheckEnds(_, _, _) => CheckEndsKeeps(s, a);
    case Interrupt(id) => EndingKeeps(s, id, false);
    case _ =>
  }

  lemma {:induction false} Reachable(s: State, run: seq<Action>)
    requires Start(s)
    ensures Inv(After(s, run))
  {
    if run != [] {
      Reachable(s, run[..|run| - 1]);
      var t, a := After(s, run[..|run| - 1]), run[|run| - 1];
      if Enabled(t, a) {
        StepKeeps(t, a);
        InvIgnoresNotes(Next(t, a), Watched(Next(t, a)).notes);
      }
    }
  }

  /** Admission is switched on exactly when a tick's save has gone through, or had nothing to save, and the link
      is healthy. */
  lemma SwitchedOnExactly(s: State, a: Action)
    requires Inv(s) && Enabled(s, a) && !s.guard.verification
    ensures Next(s, a).guard.verification <==>
      && (a.EnterSave? || a.CheckEnds?) && a.linkHealthy && s.savers[a.id].kind == Tick
      && (a.EnterSave? ==> !Expired(s.guard, a.now).1 && Expired(s.guard, a.now).0.evidence.revision == s.savedRevision)
      && (a.CheckEnds? ==> a.matches)
  {
    match a
    case BeginTick(_, _, _) =>
    case BeginReview(id, endpoint, approve, now) => ReviewApproves(WithVerification(s, false).guard, endpoint, approve, now);
    case Guarded(h) => GuardedStepsDoNotApprove(s.guard, h);
    case _ =>
  }
}
