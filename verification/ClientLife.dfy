/** What whole runs of the EW11 client promise: how often and until when a command is written, and which
    start a running client runs by. */
module ClientLife {
  import opened Client
  import opened ClientLaws

  predicate WritesAt(s: State, run: seq<Action>, i: nat, c: nat)
    requires i < |run|
  {
    Writes(After(s, run[..i]), run[i], c)
  }

  /** How often a run writes a command to the socket. */
  function WriteCount(s: State, run: seq<Action>, c: nat): nat
    decreases |run|
  {
    if run == [] then 0
    else WriteCount(s, run[..|run| - 1], c) + if WritesAt(s, run, |run| - 1, c) then 1 else 0
  }

  /** A step takes the stop or reconnect lock and brings the session down. */
  predicate TakesDown(s: State, a: Action) {
    && a.Acquire? && Enabled(s, a)
    && var op := s.ops[a.op];
       op.kind == Stop || (op.kind == Reconnect && s.running && op.generation == s.generation)
  }

  /** A command keeps what it was queued with; its counter counts writes; a returned sender stays returned. */
  ghost predicate Same(s: State, t: State, c: nat) {
    c in s.commands ==>
      && c in t.commands
      && t.commands[c].limit == s.commands[c].limit && t.commands[c].deadline == s.commands[c].deadline
      && t.commands[c].era == s.commands[c].era
      && (s.commands[c].returned ==> t.commands[c].returned)
  }

  function Counted(s: State, c: nat): nat {
    if c in s.commands then s.commands[c].writes else 0
  }

  lemma TriedCounts(s: State, a: Action, c: nat)
    requires Enabled(s, a) && a.Try?
    ensures Same(s, Next(s, a), c) && Next(s, a).era == s.era
    ensures Counted(Next(s, a), c) == Counted(s, c) + if Writes(s, a, c) then 1 else 0
  {
    var w := a.worker;
    var (d, attempt) := (s.workers[w].work.command, s.workers[w].work.attempt);
    if Writes(s, a, d) {
      var written := s.(commands := s.commands[d := s.commands[d].(writes := s.commands[d].writes + 1)]);
      assert Counted(written, c) == Counted(s, c) + if c == d then 1 else 0;
      assert Next(s, a).commands[d].writes == written.commands[d].writes;
    }
  }

  lemma LifecycleCounts(s: State, a: Action, c: nat)
    requires Enabled(s, a) && (a.Acquire? || a.Closed? || a.Abandon? || a.Invoke?)
    ensures Same(s, Next(s, a), c) && Counted(Next(s, a), c) == Counted(s, c)
    ensures Next(s, a).era == s.era + if TakesDown(s, a) then 1 else 0
  {
    if a.Acquire? {
      assert Same(s, ShutDown(s), c);
    }
  }

  lemma StepCounts(s: State, a: Action, c: nat)
    requires Enabled(s, a)
    ensures Same(s, Next(s, a), c)
    ensures Counted(Next(s, a), c) == Counted(s, c) + if Writes(s, a, c) then 1 else 0
    ensures Next(s, a).era == s.era + if TakesDown(s, a) then 1 else 0
  {
    match a
    case Try(_, _, _, _) => TriedCounts(s, a, c);
    case Acquire(_, _) => LifecycleCounts(s, a, c);
    case Closed(_, _) => LifecycleCounts(s, a, c);
    case Abandon(_, _) => LifecycleCounts(s, a, c);
    case Invoke(_, _) => LifecycleCounts(s, a, c);
    case _ =>
  }

  /** The commands' own counters are the true number of socket writes in the run, and a command is never
      written more often than its attempts. */
  lemma {:induction false} AttemptsAreBounded(s: State, run: seq<Action>, c: nat)
    requires Fresh(s)
    ensures Counted(After(s, run), c) == WriteCount(s, run, c)
    ensures c in After(s, run).commands ==> WriteCount(s, run, c) <= After(s, run).commands[c].limit
    ensures c !in After(s, run).commands ==> WriteCount(s, run, c) == 0
    decreases |run|
  {
    RunKeeps(s, run);
    if run != [] {
      var (before, a) := (run[..|run| - 1], run[|run| - 1]);
      AttemptsAreBounded(s, before, c);
      if Enabled(After(s, before), a) { StepCounts(After(s, before), a, c); }
    }
  }

  /** Between two points of a run. */
  lemma {:induction false} LaterKeeps(s: State, run: seq<Action>, i: nat, c: nat)
    requires i <= |run|
    ensures Same(After(s, run[..i]), After(s, run), c) && After(s, run[..i]).era <= After(s, run).era
    decreases |run|
  {
    if i == |run| {
      assert run[..i] == run;
    } else {
      var (before, a) := (run[..|run| - 1], run[|run| - 1]);
      assert before[..i] == run[..i];
      LaterKeeps(s, before, i, c);
      if Enabled(After(s, before), a) { StepCounts(After(s, before), a, c); }
    }
  }

  lemma OneMore(s: State, run: seq<Action>, i: nat)
    requires i < |run|
    ensures After(s, run[..i + 1])
            == (if Enabled(After(s, run[..i]), run[i]) then Next(After(s, run[..i]), run[i]) else After(s, run[..i])).(steps := i + 1)
  {
    assert run[..i + 1][..i] == run[..i];
  }

  /** A command sent with `max_attempts` is written at most that often (once, when it asked for less than one),
      and never more than `retry + 1` times. */
  lemma WrittenAsAsked(s: State, run: seq<Action>, i: nat, c: nat)
    requires Fresh(s) && i < |run| && run[i].Send? && run[i].command == c
    requires c !in After(s, run[..i]).commands && c in After(s, run[..i + 1]).commands
    ensures WriteCount(s, run, c) <= Limit(run[i].retry, run[i].maxAttempts)
  {
    OneMore(s, run, i);
    assert After(s, run[..i + 1]).commands[c].limit == Limit(run[i].retry, run[i].maxAttempts);
    LaterKeeps(s, run, i + 1, c);
    AttemptsAreBounded(s, run, c);
  }

  /** A command queued before a stop or a reconnect took the client down is never written after it. */
  lemma NoWriteAfterShutdown(s: State, run: seq<Action>, i: nat, j: nat, c: nat)
    requires Fresh(s) && i < j < |run|
    requires c in After(s, run[..i]).commands && TakesDown(After(s, run[..i]), run[i])
    ensures !WritesAt(s, run, j, c)
  {
    if WritesAt(s, run, j, c) {
      WriteIsSafe(s, run[..j], run[j], c);
      RunKeeps(s, run[..i]);
      StepCounts(After(s, run[..i]), run[i], c);
      OneMore(s, run, i);
      assert run[..j][..i] == run[..i] && run[..j][..i + 1] == run[..i + 1];
      LaterKeeps(s, run[..j], i, c);
      LaterKeeps(s, run[..j], i + 1, c);
      assert false;
    }
  }

  /** Once `send_with_retry` has returned, or was cancelled, its command is never written again. */
  lemma NoWriteAfterReturn(s: State, run: seq<Action>, i: nat, j: nat, c: nat)
    requires Fresh(s) && i < j < |run|
    requires run[i] == SendEnds(c) && c in After(s, run[..i]).commands
    ensures !WritesAt(s, run, j, c)
  {
    if WritesAt(s, run, j, c) {
      WriteIsSafe(s, run[..j], run[j], c);
      OneMore(s, run, i);
      assert run[..j][..i + 1] == run[..i + 1];
      LaterKeeps(s, run[..j], i + 1, c);
      assert false;
    }
  }

  // ---- Starts, stops and reconnects ----

  predicate Invoked(s: State, run: seq<Action>, i: nat, kind: OpKind)
    requires i < |run|
  {
    run[i].Invoke? && run[i].kind == kind && Enabled(After(s, run[..i]), run[i])
  }

  /** The last time `stop` was called (and so the stop generation bumped), or -1. */
  function LastStop(s: State, run: seq<Action>): (i: int)
    ensures -1 <= i < |run|
    decreases |run|
  {
    if run == [] then -1
    else if Invoked(s, run, |run| - 1, Stop) then |run| - 1
    else LastStop(s, run[..|run| - 1])
  }

  lemma {:induction false} LastStopIsLast(s: State, run: seq<Action>, i: nat)
    requires i < |run|
    ensures Invoked(s, run, i, Stop) ==> i <= LastStop(s, run)
    ensures LastStop(s, run) >= 0 ==> Invoked(s, run, LastStop(s, run), Stop)
    decreases |run|
  {
    var before := run[..|run| - 1];
    var last := LastStop(s, run);
    if last < |run| - 1 && 0 < |before| {
      LastStopIsLast(s, before, if i < |before| then i else 0);
      if last >= 0 { assert before[..last] == run[..last]; }
      if i < |before| { assert before[..i] == run[..i]; }
    }
  }

  /** Senders and the worker leave the lifecycle alone. */
  lemma OthersLeaveCalls(s: State, a: Action)
    requires Enabled(s, a) && !a.Acquire? && !a.Closed? && !a.Abandon? && !a.Invoke?
    ensures var t := Next(s, a);
      && t.ops == s.ops && t.running == s.running && t.generation == s.generation && t.steps == s.steps
      && t.startedAt == s.startedAt && t.returnedStops == s.returnedStops
  {
  }

  /** What the client's own bookkeeping says about the stops so far. */
  ghost predicate Lived(s: State, last: int) {
    && last < s.steps
    && (forall p :: p in s.returnedStops ==> p <= last)
    && (forall o :: o in s.ops ==>
          && s.ops[o].invoked < s.steps && s.ops[o].generation <= s.generation
          && (s.ops[o].kind == Stop ==> s.ops[o].invoked <= last)
          && (s.ops[o].kind != Stop && s.ops[o].generation == s.generation ==> last < s.ops[o].invoked))
  }

  ghost predicate Reconnecting(s: State) {
    exists o :: o in s.ops && s.ops[o].closing && s.ops[o].kind == Reconnect
  }

  /** A running client, or one being reconnected, runs by a start called after every stop that returned. */
  ghost predicate Backed(s: State) {
    s.running || Reconnecting(s) ==>
      s.startedAt < s.steps && forall p :: p in s.returnedStops ==> p < s.startedAt
  }

  lemma AcquireLives(s: State, id: nat, w: nat, last: int)
    requires Lived(s, last) && Enabled(s, Acquire(id, w))
    ensures Lived(Acquired(s, id, w), last)
  {
  }

  lemma AcquireBacks(s: State, id: nat, w: nat, last: int)
    requires Lived(s, last) && LockOk(s) && Backed(s) && Enabled(s, Acquire(id, w))
    ensures Backed(Acquired(s, id, w))
  {
    var t := Acquired(s, id, w);
    assert !Reconnecting(s);
    if Reconnecting(t) {
      assert s.running;
    }
  }

  lemma ClosedLives(s: State, id: nat, w: nat, last: int)
    requires Lived(s, last) && LockOk(s) && Backed(s) && Enabled(s, Closed(id, w))
    ensures Lived(Ended(s, id, w), last) && Backed(Ended(s, id, w))
  {
    assert !s.running;
    assert s.ops[id].kind == Reconnect ==> Reconnecting(s);
  }

  /** Everything but a new call. */
  lemma StepLives(s: State, a: Action, last: int)
    requires Lived(s, last) && LockOk(s) && Backed(s) && Enabled(s, a) && !a.Invoke?
    ensures Lived(Next(s, a), last) && Backed(Next(s, a))
  {
    if a.Acquire? {
      AcquireLives(s, a.op, a.worker, last);
      AcquireBacks(s, a.op, a.worker, last);
    } else if a.Closed? {
      ClosedLives(s, a.op, a.worker, last);
    } else {
      if !a.Abandon? { OthersLeaveCalls(s, a); }
      assert Reconnecting(Next(s, a)) ==> Reconnecting(s);
    }
  }

  lemma InvokeLives(s: State, a: Action, last: int)
    requires Lived(s, last) && Backed(s) && Enabled(s, a) && a.Invoke?
    ensures Lived(Next(s, a).(steps := s.steps + 1), if a.kind == Stop then s.steps else last)
    ensures Backed(Next(s, a).(steps := s.steps + 1))
  {
    var t := Next(s, a);
    assert Reconnecting(t) ==> Reconnecting(s);
  }

  lemma TickLives(s: State, last: int)
    requires Lived(s, last) && Backed(s)
    ensures Lived(s.(steps := s.steps + 1), last) && Backed(s.(steps := s.steps + 1))
  {
    assert Reconnecting(s.(steps := s.steps + 1)) ==> Reconnecting(s);
  }

  lemma StepsCount(s: State, run: seq<Action>)
    requires s.steps == 0
    ensures After(s, run).steps == |run|
  {
  }

  lemma StepsStay(s: State, a: Action)
    requires Enabled(s, a)
    ensures Next(s, a).steps == s.steps
  {
    if !a.Acquire? && !a.Closed? && !a.Abandon? && !a.Invoke? { OthersLeaveCalls(s, a); }
  }

  lemma {:induction false} RunLives(s: State, run: seq<Action>)
    requires Fresh(s)
    ensures Lived(After(s, run), LastStop(s, run)) && Backed(After(s, run))
    decreases |run|
  {
    if run != [] {
      var (before, a) := (run[..|run| - 1], run[|run| - 1]);
      var t := After(s, before);
      RunLives(s, before);
      RunKeeps(s, before);
      StepsCount(s, before);
      if !Enabled(t, a) {
        TickLives(t, LastStop(s, before));
      } else if a.Invoke? {
        InvokeLives(t, a, LastStop(s, before));
      } else {
        StepLives(t, a, LastStop(s, before));
        StepsStay(t, a);
        TickLives(Next(t, a), LastStop(s, before));
      }
    }
  }

  // ---- The start a client runs by was really called ----

  ghost predicate Called(s: State, run: seq<Action>, i: nat, kind: OpKind) {
    i < |run| && Invoked(s, run, i, kind)
  }

  ghost predicate CallsAreReal(s: State, run: seq<Action>, t: State) {
    && (forall o :: o in t.ops ==> Called(s, run, t.ops[o].invoked, t.ops[o].kind))
    && (t.running || Reconnecting(t) ==> Called(s, run, t.startedAt, Start))
  }

  lemma CalledEarlier(s: State, run: seq<Action>, i: nat, kind: OpKind)
    requires run != [] && Called(s, run[..|run| - 1], i, kind)
    ensures Called(s, run, i, kind)
  {
    assert run[..|run| - 1][..i] == run[..i];
  }

  lemma CallsStay(s: State, run: seq<Action>, t: State)
    requires run != [] && CallsAreReal(s, run[..|run| - 1], t)
    ensures CallsAreReal(s, run, t)
  {
    forall o | o in t.ops ensures Called(s, run, t.ops[o].invoked, t.ops[o].kind) {
      CalledEarlier(s, run, t.ops[o].invoked, t.ops[o].kind);
    }
    if t.running || Reconnecting(t) { CalledEarlier(s, run, t.startedAt, Start); }
  }

  lemma AcquireIsReal(s: State, run: seq<Action>, t: State, id: nat, w: nat)
    requires CallsAreReal(s, run, t) && LockOk(t) && Enabled(t, Acquire(id, w))
    ensures CallsAreReal(s, run, Acquired(t, id, w))
  {
    assert !Reconnecting(t);
    assert Called(s, run, t.ops[id].invoked, t.ops[id].kind);
    if Reconnecting(Acquired(t, id, w)) {
      assert t.running;
    }
  }

  lemma ClosedIsReal(s: State, run: seq<Action>, t: State, id: nat, w: nat)
    requires CallsAreReal(s, run, t) && LockOk(t) && Enabled(t, Closed(id, w))
    ensures CallsAreReal(s, run, Ended(t, id, w))
  {
    assert t.ops[id].kind == Reconnect ==> Reconnecting(t);
  }

  lemma StepIsReal(s: State, run: seq<Action>, t: State, a: Action)
    requires CallsAreReal(s, run, t) && LockOk(t) && Enabled(t, a) && !a.Invoke?
    ensures CallsAreReal(s, run, Next(t, a))
  {
    if a.Acquire? {
      AcquireIsReal(s, run, t, a.op, a.worker);
    } else if a.Closed? {
      ClosedIsReal(s, run, t, a.op, a.worker);
    } else {
      if !a.Abandon? { OthersLeaveCalls(t, a); }
      assert Reconnecting(Next(t, a)) ==> Reconnecting(t);
    }
  }

  lemma {:induction false} RunIsReal(s: State, run: seq<Action>)
    requires Fresh(s)
    ensures CallsAreReal(s, run, After(s, run))
    decreases |run|
  {
    if run != [] {
      var (before, a) := (run[..|run| - 1], run[|run| - 1]);
      var t := After(s, before);
      RunIsReal(s, before);
      RunKeeps(s, before);
      StepsCount(s, before);
      CallsStay(s, run, t);
      if Enabled(t, a) {
        if a.Invoke? {
          assert Called(s, run, |run| - 1, a.kind);
          assert Reconnecting(Next(t, a)) ==> Reconnecting(t);
        } else {
          StepIsReal(s, run, t, a);
        }
        RelabelReal(s, run, Next(t, a), |run|);
      } else {
        RelabelReal(s, run, t, |run|);
      }
    }
  }

  lemma RelabelReal(s: State, run: seq<Action>, t: State, n: nat)
    requires CallsAreReal(s, run, t)
    ensures CallsAreReal(s, run, t.(steps := n))
  {
    assert Reconnecting(t.(steps := n)) ==> Reconnecting(t);
  }

  /** When every stop that was called has returned, a client runs only if some `start` was called after the
      last of them. */
  lemma RunningNeedsAStart(s: State, run: seq<Action>) returns (k: nat)
    requires Fresh(s) && After(s, run).running
    requires forall i: nat :: i < |run| && Invoked(s, run, i, Stop) ==> i in After(s, run).returnedStops
    ensures k < |run| && Invoked(s, run, k, Start)
    ensures forall i: nat :: i < |run| && Invoked(s, run, i, Stop) ==> i < k
  {
    RunLives(s, run);
    RunIsReal(s, run);
    k := After(s, run).startedAt;
    assert Called(s, run, k, Start);
  }

  /** A call of `start` or `async_reconnect` makes a client that is down run again only if no stop was called
      since. */
  lemma RevivalIsUncontested(s: State, run: seq<Action>, a: Action, i: nat)
    requires Fresh(s) && (a.Acquire? || a.Closed?) && Enabled(After(s, run), a)
    requires !After(s, run).running && Next(After(s, run), a).running
    requires After(s, run).ops[a.op].invoked <= i < |run|
    ensures After(s, run).ops[a.op].kind == if a.Acquire? then Start else Reconnect
    ensures !Invoked(s, run, i, Stop)
  {
    RunLives(s, run);
    LastStopIsLast(s, run, i);
  }

  /** Nothing else starts the client. */
  lemma OnlyCallsRevive(s: State, a: Action)
    requires Enabled(s, a) && !s.running && Next(s, a).running
    ensures a.Acquire? || a.Closed?
  {
    if !a.Acquire? && !a.Closed? && !a.Abandon? && !a.Invoke? { OthersLeaveCalls(s, a); }
  }
}
