/** Safety of the EW11 client over all interleavings. */
module ClientLaws {
  import opened Wrappers
  import opened Client

  predicate Busy(w: Work) {
    !w.Idle?
  }

  /** Commands: who has returned has a settled future, and no command exceeds its attempts. */
  ghost predicate CommandsOk(s: State) {
    forall c :: c in s.commands ==>
      && (s.commands[c].returned ==> !s.commands[c].future.Pending?)
      && s.commands[c].writes <= s.commands[c].limit
      && s.commands[c].era <= s.era
  }

  /** The queue holds distinct commands of this era that nobody has written. */
  ghost predicate QueueOk(s: State) {
    && (forall i :: 0 <= i < |s.queue| ==>
          s.queue[i] in s.commands && s.commands[s.queue[i]].writes == 0 && s.commands[s.queue[i]].era == s.era)
    && (forall i, j :: 0 <= i < j < |s.queue| ==> s.queue[i] != s.queue[j])
  }

  /** A worker that has not been cancelled is the current one of a running client; its command is of this
      era, is not in the queue, and has been written once per attempt. */
  ghost predicate WorkerOk(s: State, w: nat)
    requires w in s.workers
  {
    !s.workers[w].cancelled ==>
      && s.running && s.current == Some(w)
      && (Busy(s.workers[w].work) ==>
            var (c, attempt) := (s.workers[w].work.command, s.workers[w].work.attempt);
            && c in s.commands && c !in s.queue
            && s.commands[c].era == s.era && s.commands[c].writes == attempt <= s.commands[c].limit)
  }

  ghost predicate WorkersOk(s: State) {
    forall w :: w in s.workers ==> WorkerOk(s, w)
  }

  /** Only the holder of the lock is closing, and while it is the client is down. */
  ghost predicate LockOk(s: State) {
    && (s.lock.Some? ==> s.lock.value in s.ops && s.ops[s.lock.value].closing)
    && (forall o :: o in s.ops && s.ops[o].closing ==> s.lock == Some(o) && !s.running && s.ops[o].kind != Start)
  }

  ghost predicate QueueInv(s: State) {
    CommandsOk(s) && QueueOk(s) && WorkersOk(s) && LockOk(s)
  }

  lemma ShutDownKeeps(s: State)
    requires CommandsOk(s) && QueueOk(s) && WorkersOk(s)
    ensures CommandsOk(ShutDown(s)) && QueueOk(ShutDown(s)) && WorkersOk(ShutDown(s))
  {
  }

  lemma StartUpKeeps(s: State, w: nat)
    requires CommandsOk(s) && QueueOk(s) && WorkersOk(s) && w !in s.workers
    ensures CommandsOk(StartUp(s, w)) && QueueOk(StartUp(s, w)) && WorkersOk(StartUp(s, w))
  {
  }

  lemma StopTakesOver(s: State, id: nat)
    requires QueueInv(s) && id in s.ops && s.lock.None? && s.ops[id].kind != Start
    ensures QueueInv(ShutDown(s).(lock := Some(id), ops := s.ops[id := s.ops[id].(closing := true)]))
  {
    ShutDownKeeps(s);
  }

  lemma StartTakesOver(s: State, id: nat, w: nat, invoked: nat)
    requires QueueInv(s) && id in s.ops && s.lock.None? && w !in s.workers
    ensures QueueInv(s.(ops := s.ops - {id}))
    ensures QueueInv(StartUp(s.(ops := s.ops - {id}), w).(startedAt := invoked))
  {
    StartUpKeeps(s.(ops := s.ops - {id}), w);
  }

  lemma AcquireKeeps(s: State, id: nat, w: nat)
    requires QueueInv(s) && Enabled(s, Acquire(id, w))
    ensures QueueInv(Acquired(s, id, w))
  {
    StartTakesOver(s, id, w, s.ops[id].invoked);
    if s.ops[id].kind != Start { StopTakesOver(s, id); }
  }

  lemma ClosedKeeps(s: State, id: nat, w: nat)
    requires QueueInv(s) && Enabled(s, Closed(id, w))
    ensures QueueInv(Ended(s, id, w))
  {
    var free := s.(lock := None, ops := s.ops - {id}, active := None, current := None);
    assert forall x :: x in s.workers ==> s.workers[x].cancelled;
    StartUpKeeps(free, w);
  }

  lemma AbandonKeeps(s: State, a: Action)
    requires QueueInv(s) && a.Abandon? && Enabled(s, a)
    ensures QueueInv(Next(s, a))
  {
  }

  lemma SendKeeps(s: State, a: Action)
    requires QueueInv(s) && (a.Send? || a.SendEnds? || a.Invoke?) && Enabled(s, a)
    ensures QueueInv(Next(s, a))
  {
  }

  lemma PickKeeps(s: State, a: Action)
    requires QueueInv(s) && a.Pick? && Enabled(s, a)
    ensures QueueInv(Next(s, a))
  {
  }

  lemma FinishedKeeps(s: State, w: nat, c: nat, ok: bool)
    requires QueueInv(s) && w in s.workers && c in s.commands
    ensures QueueInv(Finished(s, w, c, ok))
  {
  }

  lemma DoingKeeps(s: State, w: nat, work: Work)
    requires QueueInv(s) && w in s.workers && WorkerOk(s.(workers := s.workers[w := s.workers[w].(work := work)]), w)
    ensures QueueInv(Doing(s, w, work))
  {
  }

  lemma WrittenKeeps(s: State, a: Action)
    requires QueueInv(s) && Enabled(s, a) && a.Try? && Writes(s, a, s.workers[a.worker].work.command)
    ensures QueueInv(Next(s, a))
  {
    var w := a.worker;
    var (c, attempt) := (s.workers[w].work.command, s.workers[w].work.attempt);
    var written := s.(commands := s.commands[c := s.commands[c].(writes := s.commands[c].writes + 1)]);
    var drawn := Doing(written, w, Draining(c, attempt + 1));
    assert QueueInv(drawn);
    FinishedKeeps(drawn, w, c, false);
    assert Finished(drawn, w, c, false) == Finished(written, w, c, false);
  }

  lemma TryKeeps(s: State, a: Action)
    requires QueueInv(s) && Enabled(s, a) && a.Try?
    ensures QueueInv(Next(s, a))
  {
    var w := a.worker;
    var (c, attempt) := (s.workers[w].work.command, s.workers[w].work.attempt);
    if Writes(s, a, c) {
      WrittenKeeps(s, a);
    } else {
      FinishedKeeps(s, w, c, false);
      DoingKeeps(s, w, Waiting(c, attempt));
    }
  }

  lemma DrainedKeeps(s: State, a: Action)
    requires QueueInv(s) && Enabled(s, a) && (a.Drained? || a.Wake?)
    ensures QueueInv(Next(s, a))
  {
    var w := a.worker;
    var (c, attempt) := (s.workers[w].work.command, s.workers[w].work.attempt);
    if a.Wake? {
      DoingKeeps(s, w, Trying(c, attempt));
    } else {
      FinishedKeeps(s, w, c, true);
      DoingKeeps(s, w, Waiting(c, attempt));
    }
  }

  lemma DieKeeps(s: State, a: Action)
    requires QueueInv(s) && Enabled(s, a) && a.Die?
    ensures QueueInv(Next(s, a))
  {
  }

  lemma StepKeeps(s: State, a: Action)
    requires QueueInv(s) && Enabled(s, a)
    ensures QueueInv(Next(s, a))
  {
    match a
    case Acquire(op, w) => AcquireKeeps(s, op, w);
    case Closed(op, w) => ClosedKeeps(s, op, w);
    case Abandon(_, _) => AbandonKeeps(s, a);
    case Pick(_) => PickKeeps(s, a);
    case Try(_, _, _, _) => TryKeeps(s, a);
    case Wake(_) => DrainedKeeps(s, a);
    case Drained(_, _) => DrainedKeeps(s, a);
    case Die(_) => DieKeeps(s, a);
    case _ => SendKeeps(s, a);
  }

  lemma CountingKeeps(s: State, n: nat)
    requires QueueInv(s)
    ensures QueueInv(s.(steps := n))
  {
  }

  lemma {:induction false} RunKeeps(s: State, run: seq<Action>)
    requires Fresh(s)
    ensures QueueInv(After(s, run))
    decreases |run|
  {
    if run != [] {
      var (before, a) := (run[..|run| - 1], run[|run| - 1]);
      RunKeeps(s, before);
      var t := After(s, before);
      if Enabled(t, a) { StepKeeps(t, a); }
      CountingKeeps(if Enabled(t, a) then Next(t, a) else t, |run|);
    }
  }

  /** Whatever the interleaving, a command is written only while the client is running, before its deadline,
      while its sender still waits for it, in the session it was queued in, and with attempts left. */
  lemma WriteIsSafe(s: State, run: seq<Action>, a: Action, c: nat)
    requires Fresh(s) && Writes(After(s, run), a, c)
    ensures var t := After(s, run);
      && t.running && c in t.commands
      && t.commands[c].future.Pending? && !t.commands[c].returned && a.now < t.commands[c].deadline
      && t.commands[c].writes < t.commands[c].limit && t.commands[c].era == t.era
  {
    RunKeeps(s, run);
    assert WorkerOk(After(s, run), a.worker);
  }
}
