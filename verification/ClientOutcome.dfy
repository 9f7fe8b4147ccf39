/** What a sender is told, what a shutdown does to those who wait, and when a client comes up. */
module ClientOutcome {
  import opened Wrappers
  import opened Client
  import opened ClientLaws
  import opened ClientLife

  // ---- How a future is settled ----

  /** The worker has written and drained the command. */
  predicate Delivers(s: State, a: Action, c: nat) {
    a.Drained? && Enabled(s, a) && a.ok && s.workers[a.worker].work.command == c
  }

  /** The worker gives up on the command: attempts, time or client have run out. */
  predicate GivesUp(s: State, a: Action, c: nat) {
    && a.Try? && Enabled(s, a) && s.workers[a.worker].work.command == c
    && (!MayWrite(s, c, s.workers[a.worker].work.attempt, a.now) || a.after >= s.commands[c].deadline)
  }

  /** A stop or reconnect takes the client down while the command is queued or being worked on. */
  predicate CutsOff(s: State, a: Action, c: nat) {
    TakesDown(s, a) && (c in s.queue || s.active == Some(c))
  }

  /** The sender's wait ends first, by time or cancellation. */
  predicate Withdraws(s: State, a: Action, c: nat) {
    a == SendEnds(c) && Enabled(s, a)
  }

  /** What the action makes of a future that is still pending. */
  function Settling(s: State, a: Action, c: nat): Future {
    if Delivers(s, a, c) then Resolved(true)
    else if GivesUp(s, a, c) || CutsOff(s, a, c) then Resolved(false)
    else if Withdraws(s, a, c) then Cancelled
    else Pending
  }

  lemma WorkSettles(s: State, a: Action, c: nat)
    requires Enabled(s, a) && c in s.commands && (a.Try? || a.Drained? || a.Wake? || a.Pick? || a.Die?)
    ensures c in Next(s, a).commands
    ensures Next(s, a).commands[c].future
            == if s.commands[c].future.Pending? then Settling(s, a, c) else s.commands[c].future
  {
  }

  lemma CallsSettle(s: State, a: Action, c: nat)
    requires Enabled(s, a) && c in s.commands && !(a.Try? || a.Drained? || a.Wake? || a.Pick? || a.Die?)
    ensures c in Next(s, a).commands
    ensures Next(s, a).commands[c].future
            == if s.commands[c].future.Pending? then Settling(s, a, c) else s.commands[c].future
  {
  }

  /** A future is settled once, by exactly these events. */
  lemma StepSettles(s: State, a: Action, c: nat)
    requires Enabled(s, a) && c in s.commands
    ensures c in Next(s, a).commands
    ensures Next(s, a).commands[c].future
            == if s.commands[c].future.Pending? then Settling(s, a, c) else s.commands[c].future
  {
    if a.Try? || a.Drained? || a.Wake? || a.Pick? || a.Die? { WorkSettles(s, a, c); } else { CallsSettle(s, a, c); }
  }

  lemma NewcomersWait(s: State, a: Action, c: nat)
    requires Enabled(s, a) && c !in s.commands && c in Next(s, a).commands
    ensures a.Send? && a.command == c && Next(s, a).commands[c].future == Pending
  {
  }

  /** The first event of the run that settles the command's future, as what it settles it to. */
  function Verdict(s: State, run: seq<Action>, c: nat): Future
    decreases |run|
  {
    if run == [] then Pending
    else
      var (before, a) := (run[..|run| - 1], run[|run| - 1]);
      var t := After(s, before);
      if !Verdict(s, before, c).Pending? then Verdict(s, before, c)
      else if Enabled(t, a) && c in t.commands then Settling(t, a, c) else Pending
  }

  /** Over all runs, what a sender is told is the verdict of the first such event. */
  lemma {:induction false} ToldExactly(s: State, run: seq<Action>, c: nat)
    requires Fresh(s)
    ensures c in After(s, run).commands ==> After(s, run).commands[c].future == Verdict(s, run, c)
    ensures c !in After(s, run).commands ==> Verdict(s, run, c) == Pending
    decreases |run|
  {
    if run != [] {
      var (before, a) := (run[..|run| - 1], run[|run| - 1]);
      var t := After(s, before);
      ToldExactly(s, before, c);
      if Enabled(t, a) {
        if c in t.commands { StepSettles(t, a, c); } else if c in Next(t, a).commands { NewcomersWait(t, a, c); }
      }
    }
  }

  ghost predicate DeliveredWhilePending(s: State, run: seq<Action>, c: nat, i: nat) {
    && i < |run| && Delivers(After(s, run[..i]), run[i], c)
    && c in After(s, run[..i]).commands && After(s, run[..i]).commands[c].future.Pending?
  }

  /** A sender is told `True` if and only if its command was drained while it was waiting. */
  lemma {:induction false} TrueMeansDelivered(s: State, run: seq<Action>, c: nat)
    requires Fresh(s)
    ensures c in After(s, run).commands && After(s, run).commands[c].future == Resolved(true)
            <==> exists i: nat :: DeliveredWhilePending(s, run, c, i)
    decreases |run|
  {
    if run != [] {
      var (before, a) := (run[..|run| - 1], run[|run| - 1]);
      var (t, n) := (After(s, before), |run| - 1);
      TrueMeansDelivered(s, before, c);
      assert run[..n] == before;
      assert forall i: nat :: i < n ==> before[..i] == run[..i] by { Prefixes(run, n); }
      assert forall i: nat :: i < n ==> (DeliveredWhilePending(s, before, c, i) <==> DeliveredWhilePending(s, run, c, i));
      if Enabled(t, a) {
        if c in t.commands { StepSettles(t, a, c); } else if c in Next(t, a).commands { NewcomersWait(t, a, c); }
      }
      assert DeliveredWhilePending(s, run, c, n) <==>
        Delivers(t, a, c) && c in t.commands && t.commands[c].future.Pending?;
    }
  }

  lemma Prefixes(run: seq<Action>, n: nat)
    requires n <= |run|
    ensures forall i: nat :: i < n ==> run[..n][..i] == run[..i]
  {
  }

  // ---- Nobody is left waiting by a shutdown ----

  predicate Waits(s: State, c: nat) {
    c in s.commands && s.commands[c].future.Pending?
  }

  /** Every pending command is queued, being worked on, or was lost with a worker that died; a client that is down
      has only the last kind; and an idle worker has no pending command. */
  ghost predicate Attended(s: State, orphans: set<nat>) {
    && (forall c :: Waits(s, c) ==> c in s.queue || s.active == Some(c) || c in orphans)
    && (!s.running ==> s.queue == [] && (s.active.Some? ==> !Waits(s, s.active.value)))
    && (!s.running ==> forall c :: Waits(s, c) ==> c in orphans)
    && (s.active.Some? ==> s.active.value in s.commands)
    && (forall w :: w in s.workers && !s.workers[w].cancelled && s.active.Some? && Waits(s, s.active.value) ==>
          Busy(s.workers[w].work) && s.workers[w].work.command == s.active.value)
  }

  /** The commands whose worker died with them: an exception the worker does not catch. */
  function Orphaned(s: State, a: Action): set<nat> {
    if a.Die? && Enabled(s, a) && Busy(s.workers[a.worker].work) && s.active.Some? then {s.active.value} else {}
  }

  function Orphans(s: State, run: seq<Action>): set<nat>
    decreases |run|
  {
    if run == [] then {} else Orphans(s, run[..|run| - 1]) + Orphaned(After(s, run[..|run| - 1]), run[|run| - 1])
  }

  lemma ShutDownAttends(s: State, orphans: set<nat>)
    requires Attended(s, orphans)
    ensures forall c :: Waits(ShutDown(s), c) ==> Waits(s, c) && c in orphans
    ensures Attended(ShutDown(s), orphans)
  {
  }

  lemma StartUpAttends(s: State, w: nat, orphans: set<nat>)
    requires Attended(s, orphans) && w !in s.workers
    ensures Attended(StartUp(s, w), orphans)
  {
  }

  lemma StopAttends(s: State, id: nat, orphans: set<nat>)
    requires Attended(s, orphans) && id in s.ops
    ensures Attended(ShutDown(s).(lock := Some(id), ops := s.ops[id := s.ops[id].(closing := true)]), orphans)
  {
    ShutDownAttends(s, orphans);
  }

  lemma FreedAttends(s: State, id: nat, w: nat, invoked: nat, orphans: set<nat>)
    requires Attended(s, orphans) && id in s.ops && w !in s.workers
    ensures Attended(s.(ops := s.ops - {id}), orphans)
    ensures Attended(StartUp(s.(ops := s.ops - {id}), w).(startedAt := invoked), orphans)
  {
    StartUpAttends(s.(ops := s.ops - {id}), w, orphans);
  }

  lemma AcquireAttends(s: State, id: nat, w: nat, orphans: set<nat>)
    requires Attended(s, orphans) && Enabled(s, Acquire(id, w))
    ensures Attended(Acquired(s, id, w), orphans)
  {
    StopAttends(s, id, orphans);
    FreedAttends(s, id, w, s.ops[id].invoked, orphans);
  }

  lemma ClosedAttends(s: State, id: nat, w: nat, orphans: set<nat>)
    requires Attended(s, orphans) && LockOk(s) && Enabled(s, Closed(id, w))
    ensures Attended(Ended(s, id, w), orphans)
  {
    var free := s.(lock := None, ops := s.ops - {id}, active := None, current := None);
    assert Attended(free, orphans);
    StartUpAttends(free, w, orphans);
  }

  lemma AbandonAttends(s: State, a: Action, orphans: set<nat>)
    requires Attended(s, orphans) && LockOk(s) && a.Abandon? && Enabled(s, a)
    ensures Attended(Next(s, a), orphans)
  {
  }

  lemma SendAttends(s: State, a: Action, orphans: set<nat>)
    requires Attended(s, orphans) && (a.Send? || a.SendEnds? || a.Invoke?) && Enabled(s, a)
    ensures Attended(Next(s, a), orphans)
  {
    assert forall c :: Waits(Next(s, a), c) ==> Waits(s, c) || (a.Send? && c == a.command);
  }

  lemma PickAttends(s: State, a: Action, orphans: set<nat>)
    requires Attended(s, orphans) && WorkersOk(s) && a.Pick? && Enabled(s, a)
    ensures Attended(Next(s, a), orphans)
  {
    assert s.running && s.current == Some(a.worker);
    assert s.active.Some? ==> !Waits(s, s.active.value);
    assert s.queue == [s.queue[0]] + s.queue[1..];
    assert forall c :: Waits(Next(s, a), c) == Waits(s, c);
    assert forall w :: w in s.workers && !s.workers[w].cancelled ==> w == a.worker;
  }

  lemma FinishedAttends(s: State, w: nat, c: nat, ok: bool, orphans: set<nat>)
    requires Attended(s, orphans) && w in s.workers && !s.workers[w].cancelled
    requires Busy(s.workers[w].work) && s.workers[w].work.command == c && c in s.commands
    ensures Attended(Finished(s, w, c, ok), orphans)
  {
    assert forall d :: Waits(Finished(s, w, c, ok), d) ==> Waits(s, d) && d != c;
  }

  lemma DoingAttends(s: State, w: nat, work: Work, orphans: set<nat>)
    requires Attended(s, orphans) && w in s.workers && Busy(s.workers[w].work)
    requires Busy(work) && work.command == s.workers[w].work.command
    ensures Attended(Doing(s, w, work), orphans)
  {
    assert forall c :: Waits(Doing(s, w, work), c) == Waits(s, c);
  }

  lemma TryAttends(s: State, a: Action, orphans: set<nat>)
    requires Attended(s, orphans) && WorkersOk(s) && a.Try? && Enabled(s, a)
    ensures Attended(Next(s, a), orphans)
  {
    var (w, c, n) := (a.worker, s.workers[a.worker].work.command, s.workers[a.worker].work.attempt);
    FinishedAttends(s, w, c, false, orphans);
    DoingAttends(s, w, Waiting(c, n), orphans);
    var written := s.(commands := s.commands[c := s.commands[c].(writes := s.commands[c].writes + 1)]);
    WrittenAttends(s, c, orphans);
    FinishedAttends(written, w, c, false, orphans);
    DoingAttends(written, w, Draining(c, n + 1), orphans);
  }

  lemma WrittenAttends(s: State, c: nat, orphans: set<nat>)
    requires Attended(s, orphans) && WorkersOk(s) && c in s.commands
    ensures var written := s.(commands := s.commands[c := s.commands[c].(writes := s.commands[c].writes + 1)]);
      Attended(written, orphans)
  {
    var written := s.(commands := s.commands[c := s.commands[c].(writes := s.commands[c].writes + 1)]);
    assert forall d :: Waits(written, d) == Waits(s, d);
  }

  lemma WorkAttends(s: State, a: Action, orphans: set<nat>)
    requires Attended(s, orphans) && WorkersOk(s) && (a.Wake? || a.Drained?) && Enabled(s, a)
    ensures Attended(Next(s, a), orphans)
  {
    var (w, c, n) := (a.worker, s.workers[a.worker].work.command, s.workers[a.worker].work.attempt);
    if a.Wake? {
      DoingAttends(s, w, Trying(c, n), orphans);
    } else {
      FinishedAttends(s, w, c, true, orphans);
      DoingAttends(s, w, Waiting(c, n), orphans);
    }
  }

  lemma DieAttends(s: State, a: Action, orphans: set<nat>)
    requires Attended(s, orphans) && a.Die? && Enabled(s, a)
    ensures Attended(Next(s, a), orphans + Orphaned(s, a))
  {
    assert forall d :: Waits(Next(s, a), d) == Waits(s, d);
  }

  lemma StepAttends(s: State, a: Action, orphans: set<nat>)
    requires Attended(s, orphans) && WorkersOk(s) && LockOk(s) && Enabled(s, a)
    ensures Attended(Next(s, a), orphans + Orphaned(s, a))
  {
    if a.Die? {
      DieAttends(s, a, orphans);
    } else {
      assert orphans + Orphaned(s, a) == orphans;
      if a.Acquire? { AcquireAttends(s, a.op, a.worker, orphans); }
      else if a.Closed? { ClosedAttends(s, a.op, a.worker, orphans); }
      else if a.Abandon? { AbandonAttends(s, a, orphans); }
      else if a.Pick? { PickAttends(s, a, orphans); }
      else if a.Try? { TryAttends(s, a, orphans); }
      else if a.Wake? || a.Drained? { WorkAttends(s, a, orphans); }
      else { SendAttends(s, a, orphans); }
    }
  }

  lemma CountingAttends(s: State, orphans: set<nat>, n: nat)
    requires Attended(s, orphans)
    ensures Attended(s.(steps := n), orphans)
  {
    assert forall d :: Waits(s.(steps := n), d) == Waits(s, d);
  }

  lemma {:induction false} RunAttends(s: State, run: seq<Action>)
    requires Fresh(s)
    ensures Attended(After(s, run), Orphans(s, run))
    decreases |run|
  {
    if run != [] {
      var (before, a) := (run[..|run| - 1], run[|run| - 1]);
      var t := After(s, before);
      RunAttends(s, before);
      RunKeeps(s, before);
      if Enabled(t, a) {
        StepAttends(t, a, Orphans(s, before));
        CountingAttends(Next(t, a), Orphans(s, run), |run|);
      } else {
        CountingAttends(t, Orphans(s, run), |run|);
      }
    }
  }

  /** Every command that is pending when a stop or reconnect takes the client down is told `False` there and then,
      unless its worker has died with it; and while the client is down nobody waits. */
  lemma ShutdownTellsAll(s: State, run: seq<Action>, a: Action, c: nat)
    requires Fresh(s) && TakesDown(After(s, run), a) && Waits(After(s, run), c)
    ensures CutsOff(After(s, run), a, c) || c in Orphans(s, run)
    ensures Next(After(s, run), a).commands[c].future == Resolved(false) || c in Orphans(s, run)
  {
    RunAttends(s, run);
    StepSettles(After(s, run), a, c);
  }

  lemma NobodyWaitsWhileDown(s: State, run: seq<Action>, c: nat)
    requires Fresh(s) && !After(s, run).running && Waits(After(s, run), c)
    ensures c in Orphans(s, run)
  {
    RunAttends(s, run);
  }

  // ---- When the client comes up ----

  /** A call is current when no stop was called since. */
  ghost predicate CallsCurrent(s: State, last: int) {
    forall o :: o in s.ops && s.ops[o].kind != Stop && last < s.ops[o].invoked ==> s.ops[o].generation == s.generation
  }

  lemma StepCurrent(s: State, a: Action, last: int)
    requires CallsCurrent(s, last) && Enabled(s, a) && last < s.steps
    ensures var t := Next(s, a).(steps := s.steps + 1);
      CallsCurrent(t, if a.Invoke? && a.kind == Stop then s.steps else last)
    requires forall o :: o in s.ops ==> s.ops[o].invoked < s.steps
  {
    if !a.Acquire? && !a.Closed? && !a.Abandon? && !a.Invoke? { OthersLeaveCalls(s, a); }
  }

  lemma {:induction false} RunCurrent(s: State, run: seq<Action>)
    requires Fresh(s)
    ensures CallsCurrent(After(s, run), LastStop(s, run))
    decreases |run|
  {
    if run != [] {
      var (before, a) := (run[..|run| - 1], run[|run| - 1]);
      var t := After(s, before);
      RunCurrent(s, before);
      RunLives(s, before);
      StepsCount(s, before);
      if Enabled(t, a) {
        StepCurrent(t, a, LastStop(s, before));
        StepsStay(t, a);
      }
    }
  }

  /** A `start` that gets the lock, and a reconnect whose shutdown has ended, bring the client up if and only if no
      stop was called since they were called. */
  lemma ComesUpExactly(s: State, run: seq<Action>, a: Action)
    requires Fresh(s) && Enabled(After(s, run), a) && !After(s, run).running
    requires (a.Acquire? && After(s, run).ops[a.op].kind == Start) || (a.Closed? && After(s, run).ops[a.op].kind == Reconnect)
    ensures Next(After(s, run), a).running <==>
      forall i: nat :: After(s, run).ops[a.op].invoked <= i < |run| ==> !Invoked(s, run, i, Stop)
  {
    var t := After(s, run);
    RunCurrent(s, run);
    RunLives(s, run);
    if t.ops[a.op].invoked <= LastStop(s, run) {
      LastStopIsLast(s, run, LastStop(s, run));
    } else {
      forall i: nat | t.ops[a.op].invoked <= i < |run| ensures !Invoked(s, run, i, Stop) { LastStopIsLast(s, run, i); }
    }
  }

  /** The client that has come up has a worker of its own, waiting for commands. */
  lemma ComesUpReady(s: State, a: Action)
    requires Enabled(s, a) && !s.running && Next(s, a).running
    ensures (a.Acquire? || a.Closed?) && var t := Next(s, a);
      t.current == Some(a.worker) && a.worker in t.workers && t.workers[a.worker] == Worker(false, Idle)
  {
    OnlyCallsRevive(s, a);
  }

  /** A stop that gets the lock takes the client down. */
  lemma StopTakesDown(s: State, a: Action)
    requires Enabled(s, a) && a.Acquire? && s.ops[a.op].kind == Stop
    ensures TakesDown(s, a) && !Next(s, a).running && Next(s, a).queue == []
  {
  }

  // ---- The queue ----

  /** Commands are worked on in the order they were queued; the queue never holds more than 64. */
  lemma QueueMoves(s: State, a: Action)
    requires Enabled(s, a) && |s.queue| <= 64
    ensures var t := Next(s, a);
      && |t.queue| <= 64
      && (a.Pick? ==> s.queue == [t.workers[a.worker].work.command] + t.queue && t.active == Some(s.queue[0]))
      && (a.Send? ==> t.queue == if s.running && |s.queue| < 64 then s.queue + [a.command] else s.queue)
      && (!a.Pick? && !a.Send? ==> t.queue == if TakesDown(s, a) then [] else s.queue)
  {
    if a.Pick? { assert s.queue == [s.queue[0]] + s.queue[1..]; }
  }
}
