/** The power-cycle journal: `restore` and `cycle` as steps between suspension points, over crashes, saves
    and switch calls that fail or are cancelled half-way. */
module Power {
  type Time = real

  const DAY: Time := 86400.0

  datatype Journal = Journal(lastAttempt: Time, restorePending: bool)

  /** Why power is being restored: at set-up, at the beginning of a cycle, or at its end. */
  datatype Purpose = SetUp | First | Last

  /** Where the one running operation is suspended; the lock admits only one. */
  datatype Phase =
    | Down
    | Idle
    | SwitchingOn(purpose: Purpose)
    | SavingRestored(purpose: Purpose)
    | Deciding
    | SavingAttempt
    | SwitchingOff
    | Resting

  /** A switch-off: the clock reading of the attempt it belongs to, and when the power went. */
  datatype Cut = Cut(attempted: Time, at: Time)

  datatype State = State(phase: Phase, journal: Journal, disk: Journal, cut: bool, cuts: seq<Cut>)

  datatype Action =
    | Crash(inFlight: bool, now: Time)           // the suspended call may still have had its effect
    | Restart
    | Cycle
    | SwitchEnds(ok: bool, took: bool, now: Time)
    | SaveEnds(ok: bool, persisted: bool)
    | Decide(now: Time, ready: bool)
    | RestEnds

  predicate Enabled(s: State, a: Action) {
    match a
    case Crash(_, _) => !s.phase.Down?
    case Restart => s.phase.Down?
    case Cycle => s.phase.Idle?
    case SwitchEnds(ok, took, _) => (s.phase.SwitchingOn? || s.phase.SwitchingOff?) && (ok ==> took)
    case SaveEnds(ok, persisted) => (s.phase.SavingRestored? || s.phase.SavingAttempt?) && (ok ==> persisted)
    case Decide(_, _) => s.phase.Deciding?
    case RestEnds => s.phase.Resting?
  }

  /** Where an operation goes on once `restore` has returned. */
  function Resumed(p: Purpose): Phase {
    if p == First then Deciding else Idle
  }

  /** Where it goes when `restore` raises: at set-up the component does not come up. */
  function Failed(p: Purpose): Phase {
    if p == SetUp then Down else Idle
  }

  /** `restore` up to its first suspension. */
  function Restore(s: State, p: Purpose): State {
    s.(phase := if s.journal.restorePending then SwitchingOn(p) else Resumed(p))
  }

  /** What a switch call or a save does when it takes effect. */
  function Effect(s: State, now: Time): State {
    match s.phase
    case SwitchingOn(_) => s.(cut := false)
    case SwitchingOff => s.(cut := true, cuts := s.cuts + [Cut(s.journal.lastAttempt, now)])
    case SavingRestored(_) => s.(disk := s.journal)
    case SavingAttempt => s.(disk := s.journal)
    case _ => s
  }

  function Next(s: State, a: Action): State
    requires Enabled(s, a)
  {
    match a
    case Crash(inFlight, now) => (if inFlight then Effect(s, now) else s).(phase := Down)
    case Restart => Restore(s.(journal := s.disk), SetUp)
    case Cycle => Restore(s, First)
    case SwitchEnds(ok, took, now) =>
      var t := if took then Effect(s, now) else s;
      if s.phase.SwitchingOff? then
        if ok then t.(phase := Resting) else Restore(t, Last)
      else if ok then
        t.(phase := SavingRestored(s.phase.purpose), journal := s.journal.(restorePending := false))
      else t.(phase := Failed(s.phase.purpose))
    case SaveEnds(ok, persisted) =>
      var t := if persisted then Effect(s, 0.0) else s;
      if s.phase.SavingAttempt? then t.(phase := if ok then SwitchingOff else Idle)
      else t.(phase := if ok then Resumed(s.phase.purpose) else Failed(s.phase.purpose))
    case Decide(now, ready) =>
      if !ready || now - s.journal.lastAttempt < DAY then s.(phase := Idle)
      else s.(journal := Journal(now, true), phase := SavingAttempt)
    case RestEnds => Restore(s, Last)
  }

  /** An action that is not enabled does nothing. */
  function Tried(s: State, a: Action): State {
    if Enabled(s, a) then Next(s, a) else s
  }

  /** A run of attempted actions. */
  function After(s: State, run: seq<Action>): State {
    if run == [] then s else Tried(After(s, run[..|run| - 1]), run[|run| - 1])
  }

  /** Nothing is running, the power has not been cut, and the journal is whatever was on disk. */
  predicate Fresh(s: State) {
    s.phase.Down? && !s.cut && s.cuts == []
  }

  /** The next attempt must keep a day's distance from every cut already made. */
  ghost predicate Remembers(t: Time, cuts: seq<Cut>) {
    forall i :: 0 <= i < |cuts| ==> cuts[i].attempted <= t
  }

  ghost predicate DaysApart(cuts: seq<Cut>) {
    forall i, j :: 0 <= i < j < |cuts| ==> cuts[i].attempted + DAY <= cuts[j].attempted
  }

  /** What every step keeps. */
  ghost predicate Inv(s: State) {
    && (s.cut ==> s.disk.restorePending)
    && Remembers(s.disk.lastAttempt, s.cuts) && DaysApart(s.cuts)
    && (!s.phase.Down? ==>
          && (s.cut ==> s.journal.restorePending)
          && Remembers(s.journal.lastAttempt, s.cuts)
          && (s.phase.SavingRestored? ==> !s.journal.restorePending)
          && (s.phase.SavingAttempt? ==> s.journal.restorePending)
          && (s.phase.SavingRestored? || s.phase.Deciding? || s.phase.SavingAttempt? || s.phase.SwitchingOff? ==> !s.cut)
          && (s.phase.SwitchingOff? || s.phase.Resting? ==> s.disk == s.journal && s.journal.restorePending)
          && (s.phase.SavingAttempt? || s.phase.SwitchingOff? ==> Remembers(s.journal.lastAttempt - DAY, s.cuts)))
  }

  lemma RemembersLater(t: Time, u: Time, cuts: seq<Cut>)
    requires Remembers(t, cuts) && t <= u
    ensures Remembers(u, cuts)
  {
  }

  lemma EffectKeeps(s: State, now: Time)
    requires Inv(s) && !s.phase.Down?
    ensures var t := Effect(s, now);
      && t.phase == s.phase && t.journal == s.journal
      && (t.cut ==> t.disk.restorePending && t.journal.restorePending)
      && Remembers(t.disk.lastAttempt, t.cuts) && Remembers(t.journal.lastAttempt, t.cuts) && DaysApart(t.cuts)
      && (t.cut ==> s.cut || s.phase.SwitchingOff?)
      && (s.phase.SwitchingOn? ==> !t.cut)
      && (s.phase.SavingAttempt? ==> t.disk == t.journal && t.cuts == s.cuts)
      && (s.phase.SwitchingOff? ==> t.disk == t.journal)
  {
  }

  lemma SwitchEndsKeeps(s: State, a: Action)
    requires Inv(s) && a.SwitchEnds? && Enabled(s, a)
    ensures Inv(Next(s, a))
  {
    EffectKeeps(s, a.now);
  }

  lemma SaveEndsKeeps(s: State, a: Action)
    requires Inv(s) && a.SaveEnds? && Enabled(s, a)
    ensures Inv(Next(s, a))
  {
    EffectKeeps(s, 0.0);
  }

  lemma DecideKeeps(s: State, a: Action)
    requires Inv(s) && a.Decide? && Enabled(s, a)
    ensures Inv(Next(s, a))
  {
    if a.now - s.journal.lastAttempt >= DAY {
      RemembersLater(s.journal.lastAttempt, a.now - DAY, s.cuts);
    }
  }

  lemma StepKeeps(s: State, a: Action)
    requires Inv(s) && Enabled(s, a)
    ensures Inv(Next(s, a))
  {
    match a
    case Crash(_, now) => EffectKeeps(s, now);
    case SwitchEnds(_, _, _) => SwitchEndsKeeps(s, a);
    case SaveEnds(_, _) => SaveEndsKeeps(s, a);
    case Decide(_, _) => DecideKeeps(s, a);
    case _ =>
  }

  lemma {:induction false} Reachable(s: State, run: seq<Action>)
    requires Fresh(s)
    ensures Inv(After(s, run))
    decreases |run|
  {
    if run != [] {
      var (before, a) := (run[..|run| - 1], run[|run| - 1]);
      Reachable(s, before);
      if Enabled(After(s, before), a) { StepKeeps(After(s, before), a); }
    }
  }

  /** Whatever fails, is cancelled or crashes: power that a cycle has cut is on record, on disk, as to be
      restored, and no cycle decides, saves or cuts again before the power is back. */
  lemma CutIsOnRecord(s: State, run: seq<Action>)
    requires Fresh(s)
    ensures var t := After(s, run);
      && (t.cut ==> t.disk.restorePending)
      && (t.phase.Deciding? || t.phase.SavingAttempt? || t.phase.SwitchingOff? ==> !t.cut)
  {
    Reachable(s, run);
  }

  /** Set-up only finishes, and a cycle only returns normally, with the power back on. */
  lemma SuccessMeansPowerOn(s: State, run: seq<Action>, a: Action)
    requires Fresh(s) && Enabled(After(s, run), a) && a.SaveEnds? && a.ok
    requires After(s, run).phase.SavingRestored?
    ensures !Next(After(s, run), a).cut && !Next(After(s, run), a).disk.restorePending
  {
    Reachable(s, run);
  }

  /** After a crash with the power cut, the next start begins by switching it on. */
  lemma RestartRestores(s: State, run: seq<Action>)
    requires Fresh(s) && After(s, run).cut && After(s, run).phase.Down?
    ensures Next(After(s, run), Restart).phase == SwitchingOn(SetUp)
  {
    Reachable(s, run);
  }

  /** Any two cuts belong to attempts at least a day apart, across restarts and clock changes. */
  lemma CutsAreDaysApart(s: State, run: seq<Action>, i: nat, j: nat)
    requires Fresh(s) && i < j < |After(s, run).cuts|
    ensures var cuts := After(s, run).cuts; cuts[i].attempted + 86400.0 <= cuts[j].attempted
  {
    Reachable(s, run);
  }

  /** The cut came no more than `d` after the clock reading of its attempt. */
  predicate Within(c: Cut, d: Time) {
    c.at <= c.attempted + d
  }

  /** Two cuts of one run, the first delayed by no more than `d`, and no clock running backwards in the second. */
  ghost predicate Delayed(s: State, run: seq<Action>, i: nat, j: nat, d: Time) {
    && Fresh(s) && i < j < |After(s, run).cuts|
    && Within(After(s, run).cuts[i], d) && After(s, run).cuts[j].attempted <= After(s, run).cuts[j].at
  }

  function Gap(s: State, run: seq<Action>, i: nat, j: nat): Time
    requires i < j < |After(s, run).cuts|
  {
    After(s, run).cuts[j].at - After(s, run).cuts[i].at
  }

  /** The day counts from the attempt, not from the cut, which comes after a save. So over all runs, failures and
      crashes included, cuts are apart by a day less the delay of the earlier one. */
  lemma CutsApartByDelay(s: State, run: seq<Action>, i: nat, j: nat, d: Time)
    requires Delayed(s, run, i, j, d)
    ensures Gap(s, run, i, j) >= DAY - d
  {
    CutsAreDaysApart(s, run, i, j);
  }

  /** And no better promise holds: for every delay `d` there is a run whose cuts are apart by just that. */
  lemma DelayIsFelt(d: Time) returns (s: State, run: seq<Action>)
    requires d >= 0.0
    ensures Delayed(s, run, 0, 1, d) && Gap(s, run, 0, 1) == DAY - d
  {
    s := State(Down, Journal(0.0, false), Journal(0.0, false), false, []);
    var one := [Restart, Cycle, Decide(DAY, true), SaveEnds(true, true)];
    var two := [SwitchEnds(true, true, DAY + d), RestEnds, SwitchEnds(true, true, DAY + d), SaveEnds(true, true)];
    var three := [Cycle, Decide(2.0 * DAY, true), SaveEnds(true, true), SwitchEnds(true, true, 2.0 * DAY)];
    run := one + two + three;
    FirstDecision(s, one);
    var t := State(SwitchingOff, Journal(DAY, true), Journal(DAY, true), false, []);
    FirstCut(t, two, d);
    var u := State(Idle, Journal(DAY, false), Journal(DAY, false), false, [Cut(DAY, DAY + d)]);
    SecondCut(u, three, d);
    AfterTwo(s, one, two);
    AfterTwo(s, one + two, three);
    assert After(s, run).cuts == [Cut(DAY, DAY + d), Cut(2.0 * DAY, 2.0 * DAY)];
  }

  lemma FirstDecision(s: State, one: seq<Action>)
    requires s == State(Down, Journal(0.0, false), Journal(0.0, false), false, [])
    requires one == [Restart, Cycle, Decide(DAY, true), SaveEnds(true, true)]
    ensures After(s, one) == State(SwitchingOff, Journal(DAY, true), Journal(DAY, true), false, [])
  {
    Four(s, one);
  }

  lemma FirstCut(t: State, two: seq<Action>, d: Time)
    requires t == State(SwitchingOff, Journal(DAY, true), Journal(DAY, true), false, [])
    requires two == [SwitchEnds(true, true, DAY + d), RestEnds, SwitchEnds(true, true, DAY + d), SaveEnds(true, true)]
    ensures After(t, two) == State(Idle, Journal(DAY, false), Journal(DAY, false), false, [Cut(DAY, DAY + d)])
  {
    Four(t, two);
  }

  lemma SecondCut(u: State, three: seq<Action>, d: Time)
    requires u == State(Idle, Journal(DAY, false), Journal(DAY, false), false, [Cut(DAY, DAY + d)])
    requires three == [Cycle, Decide(2.0 * DAY, true), SaveEnds(true, true), SwitchEnds(true, true, 2.0 * DAY)]
    ensures After(u, three).cuts == [Cut(DAY, DAY + d), Cut(2.0 * DAY, 2.0 * DAY)]
  {
    Four(u, three);
  }

  /** All cuts delayed by no more than `d` keep the distance `gap` from later ones. */
  ghost predicate Guaranteed(gap: Time, d: Time) {
    forall s: State, run: seq<Action>, i: nat, j: nat :: Delayed(s, run, i, j, d) ==> Gap(s, run, i, j) >= gap
  }

  /** The distance that is guaranteed for a delay, exactly; a whole day only when nothing is ever delayed. */
  lemma GuaranteedExactly(gap: Time, d: Time)
    requires d >= 0.0
    ensures Guaranteed(gap, d) <==> gap <= DAY - d
    ensures Guaranteed(DAY, d) <==> d == 0.0
  {
    var s, run := DelayIsFelt(d);
    assert Guaranteed(gap, d) ==> Gap(s, run, 0, 1) >= gap;
    assert Guaranteed(DAY, d) ==> Gap(s, run, 0, 1) >= DAY;
    forall s: State, run: seq<Action>, i: nat, j: nat | Delayed(s, run, i, j, d)
      ensures Gap(s, run, i, j) >= DAY - d
    {
      CutsApartByDelay(s, run, i, j, d);
    }
  }

  lemma Four(s: State, run: seq<Action>)
    requires |run| == 4
    ensures After(s, run) == Tried(Tried(Tried(Tried(s, run[0]), run[1]), run[2]), run[3])
  {
    assert run[..3][..2] == run[..2] && run[..2][..1] == run[..1] && run[..1][..0] == [];
    assert After(s, run[..1]) == Tried(s, run[0]);
    assert After(s, run[..2]) == Tried(After(s, run[..1]), run[1]);
    assert After(s, run[..3]) == Tried(After(s, run[..2]), run[2]);
  }

  lemma {:induction false} AfterTwo(s: State, run: seq<Action>, more: seq<Action>)
    ensures After(s, run + more) == After(After(s, run), more)
    decreases |more|
  {
    if more == [] {
      assert run + more == run;
    } else {
      assert (run + more)[..|run + more| - 1] == run + more[..|more| - 1];
      AfterTwo(s, run, more[..|more| - 1]);
    }
  }

  // ---- What is always attempted ----

  predicate Cutting(p: Phase) {
    p.SwitchingOff? || p.Resting?
  }

  /** However the switch-off or the rest ends, by success, failure or cancellation: the next thing is to switch the
      power on again. Only a crash prevents it. */
  lemma CutIsAnswered(s: State, run: seq<Action>, a: Action)
    requires Fresh(s) && Enabled(After(s, run), a) && Cutting(After(s, run).phase)
    ensures var t := Next(After(s, run), a);
      Cutting(t.phase) || t.phase == SwitchingOn(Last) || (a.Crash? && t.phase.Down?)
  {
    Reachable(s, run);
  }

  /** A switch call meant to restore power has failed since power was last cut. */
  function RestoreFailed(s: State, run: seq<Action>): bool
    decreases |run|
  {
    if run == [] then false
    else
      var (before, a) := (run[..|run| - 1], run[|run| - 1]);
      var t := After(s, before);
      if !Enabled(t, a) then RestoreFailed(s, before)
      else if |Next(t, a).cuts| > |t.cuts| then false
      else (a.SwitchEnds? && t.phase.SwitchingOn? && !a.ok) || RestoreFailed(s, before)
  }

  /** When an operation is over with the power still cut, switching it on was tried and failed. */
  lemma {:induction false} CutOnlyAfterFailure(s: State, run: seq<Action>)
    requires Fresh(s) && After(s, run).phase.Idle? && After(s, run).cut
    ensures RestoreFailed(s, run)
    decreases |run|
  {
    var (before, a) := (run[..|run| - 1], run[|run| - 1]);
    Reachable(s, before);
    if After(s, before).phase.Idle? && After(s, before).cut { CutOnlyAfterFailure(s, before); }
  }

  /** And the next cycle begins by trying again. */
  lemma NextCycleRestores(s: State, run: seq<Action>)
    requires Fresh(s) && After(s, run).phase.Idle? && After(s, run).cut
    ensures Next(After(s, run), Cycle).phase == SwitchingOn(First)
  {
    Reachable(s, run);
  }

  /** An attempt begins exactly when the switch is ready and the last one is a day old; it is then on the journal
      before anything else happens. A refusal changes nothing. */
  lemma AttemptExactly(s: State, now: Time, ready: bool)
    requires Enabled(s, Decide(now, ready))
    ensures Next(s, Decide(now, ready))
            == if ready && now - s.journal.lastAttempt >= 86400.0
               then s.(phase := SavingAttempt, journal := Journal(now, true)) else s.(phase := Idle)
  {
  }

  /** Power is only cut for an attempt whose journal has been saved. */
  lemma CutOnlyAfterSave(s: State, run: seq<Action>, a: Action)
    requires Fresh(s) && Enabled(After(s, run), a) && Next(After(s, run), a).cut && !After(s, run).cut
    ensures After(s, run).phase.SwitchingOff? && After(s, run).disk == After(s, run).journal
    ensures After(s, run).disk.restorePending
  {
    Reachable(s, run);
  }

  /** A cycle in which everything succeeds cuts the power once, restores it, and leaves the journal with the attempt
      and nothing to restore, in memory and on disk. */
  lemma CycleGoesThrough(s: State, now: Time, off: Time, on: Time)
    requires s.phase.Idle? && !s.journal.restorePending && now - s.journal.lastAttempt >= 86400.0
    ensures After(s, [Cycle, Decide(now, true), SaveEnds(true, true), SwitchEnds(true, true, off)]
                     + [RestEnds, SwitchEnds(true, true, on), SaveEnds(true, true), RestEnds])
            == State(Idle, Journal(now, false), Journal(now, false), false, s.cuts + [Cut(now, off)])
  {
    var one := [Cycle, Decide(now, true), SaveEnds(true, true), SwitchEnds(true, true, off)];
    var two := [RestEnds, SwitchEnds(true, true, on), SaveEnds(true, true), RestEnds];
    CycleCuts(s, one, now, off);
    CycleRestores(After(s, one), two, on);
    AfterTwo(s, one, two);
  }

  lemma CycleCuts(s: State, one: seq<Action>, now: Time, off: Time)
    requires s.phase.Idle? && !s.journal.restorePending && now - s.journal.lastAttempt >= 86400.0
    requires one == [Cycle, Decide(now, true), SaveEnds(true, true), SwitchEnds(true, true, off)]
    ensures After(s, one) == State(Resting, Journal(now, true), Journal(now, true), true, s.cuts + [Cut(now, off)])
  {
    Four(s, one);
  }

  lemma CycleRestores(s: State, two: seq<Action>, on: Time)
    requires s.phase.Resting? && s.journal.restorePending
    requires two == [RestEnds, SwitchEnds(true, true, on), SaveEnds(true, true), RestEnds]
    ensures After(s, two) == s.(phase := Idle, journal := s.journal.(restorePending := false),
                                disk := s.journal.(restorePending := false), cut := false)
  {
    Four(s, two);
  }
}
