/** What a command's status means, over all runs of commands, frames, timeouts and cancellations. */
module RecoveryLaws {
  import opened Bytes
  import opened Wrappers
  import opened CodecStep
  import opened GuardedState
  import opened Recovery

  /** The latest command given for a key. */
  function LatestFor(s: State, run: seq<Action>, key: Key): Option<nat>
    decreases |run|
  {
    if run == [] then None
    else
      var (before, a) := (run[..|run| - 1], run[|run| - 1]);
      if a.Execute? && a.key == key && Enabled(After(s, before), a) then Some(a.id) else LatestFor(s, before, key)
  }

  lemma OnlyExecuteShows(s: State, a: Action)
    requires Enabled(s, a)
    ensures Next(s, a).shown == if a.Execute? then s.shown[a.key := a.id] else s.shown
  {
  }

  /** The status on show for a key is that of the latest command given for it. */
  lemma {:induction false} LatestIsOnShow(s: State, run: seq<Action>, key: Key)
    requires Fresh(s)
    ensures LatestFor(s, run, key) == if key in After(s, run).shown then Some(After(s, run).shown[key]) else None
    decreases |run|
  {
    if run != [] {
      var (before, a) := (run[..|run| - 1], run[|run| - 1]);
      LatestIsOnShow(s, before, key);
      if Enabled(After(s, before), a) { OnlyExecuteShows(After(s, before), a); }
    }
  }

  /** No step of another command's task, its timeout, failure, cancellation or return, touches a key's status. */
  lemma OthersLeaveStatusAlone(s: State, a: Action, key: Key)
    requires Enabled(s, a) && (a.Go? || a.Expire? || a.Break? || a.Cancel? || a.Unwind? || a.Return?)
    requires key in s.shown && s.shown[key] in s.commands && s.shown[key] != a.id
    ensures Next(s, a).shown == s.shown && Next(s, a).commands[s.shown[key]] == s.commands[s.shown[key]]
  {
  }

  /** What a command was given stays what it was. */
  ghost predicate SameTerms(c: Command, d: Command) {
    && d.key == c.key && d.framing == c.framing && d.matcher == c.matcher && d.since == c.since
    && d.retry == c.retry && d.delays == c.delays && d.sendLimit == c.sendLimit
    && d.response == c.response && d.state == c.state
    && (c.cancelled ==> d.cancelled && d.rounds == c.rounds)
  }

  lemma TurnKeepsTerms(received: seq<KsFrame>, c: Command, blocked: bool)
    requires !c.cancelled
    ensures SameTerms(c, Turn(received, c, blocked))
  {
  }

  lemma StepKeepsTerms(s: State, a: Action, id: nat)
    requires Enabled(s, a) && id in s.commands
    ensures id in Next(s, a).commands && SameTerms(s.commands[id], Next(s, a).commands[id])
  {
    if a.Go? && a.id == id { TurnKeepsTerms(s.received, s.commands[id], a.blocked); }
  }

  lemma {:induction false} RunKeepsTerms(s: State, run: seq<Action>, i: nat, id: nat)
    requires i <= |run| && id in After(s, run[..i]).commands
    ensures id in After(s, run).commands
    ensures SameTerms(After(s, run[..i]).commands[id], After(s, run).commands[id])
    decreases |run|
  {
    if i == |run| {
      assert run[..i] == run;
    } else {
      var (before, a) := (run[..|run| - 1], run[|run| - 1]);
      assert before[..i] == run[..i];
      RunKeepsTerms(s, before, i, id);
      if Enabled(After(s, before), a) { StepKeepsTerms(After(s, before), a, id); }
    }
  }

  /** The command that action `i` of the run gave. */
  predicate Given(s: State, run: seq<Action>, i: nat) {
    i < |run| && run[i].Execute? && Enabled(After(s, run[..i]), run[i])
  }

  lemma GivenTerms(s: State, run: seq<Action>, i: nat)
    requires Fresh(s) && Given(s, run, i)
    ensures run[i].id in After(s, run).commands
    ensures var c := After(s, run).commands[run[i].id];
      && c.framing == run[i].framing && c.matcher == Wanted(run[i].framing, run[i].wanted) && c.since == |After(s, run[..i]).received|
      && c.retry == run[i].retry && c.delays == After(s, run[..i]).delays
      && c.sendLimit == if run[i].framing == Stx then 1 else SendLimit(run[i].wish, run[i].configured, run[i].retry)
  {
    var t := After(s, run[..i]);
    assert run[..i + 1][..i] == run[..i];
    assert After(s, run[..i + 1]) == Next(t, run[i]);
    RunKeepsTerms(s, run, i + 1, run[i].id);
  }

  /** The frame was received after the command was given, and is what its caller asked for. */
  ghost predicate Answers(s: State, run: seq<Action>, i: nat, k: nat)
    requires Given(s, run, i)
  {
    && |After(s, run[..i]).received| <= k < |After(s, run).received|
    && var f := After(s, run).received[k];
       run[i].wanted(f) && (run[i].framing == F7 ==> ValidResponsePayload(f.addr, f.cmd, f.payload))
  }

  /** A command is shown healthy only because a frame received since then is the confirmation its caller asked
      for, with a plausible payload. */
  lemma HealthyMeansAnswered(s: State, run: seq<Action>, i: nat) returns (k: nat)
    requires Fresh(s) && Given(s, run, i)
    requires run[i].id in After(s, run).commands && After(s, run).commands[run[i].id].health == Healthy
    ensures Answers(s, run, i, k)
  {
    Reachable(s, run);
    GivenTerms(s, run, i);
    var c := After(s, run).commands[run[i].id];
    k :| Confirms(After(s, run).received, c.since, c.matcher, k);
  }

  /** A command returns a frame only when that frame answers it. */
  lemma ResultsAnswer(s: State, run: seq<Action>, i: nat, k: nat)
    requires Fresh(s) && Given(s, run, i)
    requires run[i].id in After(s, run).commands && After(s, run).commands[run[i].id].stage == Done(Some(k))
    ensures Answers(s, run, i, k) && After(s, run).commands[run[i].id].health == Healthy
  {
    Reachable(s, run);
    GivenTerms(s, run, i);
  }

  // ---- How much a command sends ----

  /** The step sends something for command `id`: a turn of one of its send loops that does not find its waiter
      served and has attempts left. */
  predicate Sends(s: State, a: Action, id: nat) {
    && a.Go? && a.id == id && Enabled(s, a)
    && match s.commands[id].stage
       case Sending(w, n) => w.frame.None? && n < s.commands[id].sendLimit
       case Confirming(w, n) => w.frame.None? && n < s.commands[id].sendLimit
       case Probing(w, n) => w.frame.None? && n < 1
       case _ => false
  }

  function SendCount(s: State, run: seq<Action>, id: nat): nat
    decreases |run|
  {
    if run == [] then 0
    else SendCount(s, run[..|run| - 1], id) + if Sends(After(s, run[..|run| - 1]), run[|run| - 1], id) then 1 else 0
  }

  /** The most one round may send: a control loop, a confirmation loop, and a probe before the next round. */
  function PerRound(c: Command): nat {
    if c.framing == Stx then c.sendLimit else 2 * c.sendLimit + 1
  }

  function Times(n: nat, m: nat): nat {
    if n == 0 then 0 else Times(n - 1, m) + m
  }

  lemma {:induction false} TimesIs(n: nat, m: nat)
    ensures Times(n, m) == n * m
  {
    if n > 0 {
      TimesIs(n - 1, m);
      assert n * m == (n - 1) * m + m;
    }
  }

  /** What a command may have sent, by the stage it is in. */
  function Allowance(c: Command): nat {
    if c.rounds == 0 then 0
    else
      Times(c.rounds - 1, PerRound(c)) + match c.stage
        case NotStarted => 0
        case Queued => 0
        case Sending(_, n) => n
        case Pausing => c.sendLimit
        case Confirming(_, n) => c.sendLimit + n
        case Sleeping => if c.framing == Stx then c.sendLimit else 2 * c.sendLimit
        case Probing(_, n) => 2 * c.sendLimit + n
        case Done(_) => if c.framing == Stx then c.sendLimit
                        else if c.rounds < MaxRounds(c) then 2 * c.sendLimit + 1 else 2 * c.sendLimit
  }

  /** Stages of the two framings, and loop counters within the limit. */
  predicate Orderly(c: Command) {
    && (c.stage.Pausing? || c.stage.Confirming? || c.stage.Probing? ==> c.framing == F7)
    && (c.stage.Sending? || c.stage.Confirming? ==> c.stage.sends <= c.sendLimit)
    && (c.stage.Probing? ==> c.stage.sends <= 1)
    && (c.stage.Sleeping? || c.stage.Probing? ==> c.rounds < MaxRounds(c))
    && (c.rounds == 0 ==> c.stage.NotStarted? || c.stage.Done?) && (c.stage.NotStarted? ==> c.rounds == 0)
    && c.rounds <= MaxRounds(c)
  }

  function Extra(c: Command): nat {
    match c.stage
    case Sending(w, n) => if w.frame.None? && n < c.sendLimit then 1 else 0
    case Confirming(w, n) => if w.frame.None? && n < c.sendLimit then 1 else 0
    case Probing(w, n) => if w.frame.None? && n < 1 then 1 else 0
    case _ => 0
  }

  lemma BegunAllows(c: Command)
    requires Orderly(c) && (c.stage.NotStarted? || c.stage.Sleeping? || c.stage.Probing?)
    requires c.stage.Sleeping? ==> c.framing == Stx
    ensures Orderly(Begun(c)) && Allowance(Begun(c)) >= Allowance(c) && Allowance(Begun(c)) >= Allowance(c) + Extra(c)
  {
    var d := Begun(c);
    assert c.rounds > 0 ==> Times(d.rounds - 1, PerRound(d)) == Times(c.rounds - 1, PerRound(c)) + PerRound(c);
  }

  /** What a loop that is over, or a refused operation, leads to. */
  lemma ConcludedAllows(received: seq<KsFrame>, c: Command, result: Option<nat>)
    requires Orderly(c) && c.rounds >= 1 && (c.stage.Queued? || c.stage.Sending? || c.stage.Confirming?)
    requires c.stage.Sending? ==> c.framing == Stx
    ensures Orderly(Concluded(received, c, result)) && Allowance(Concluded(received, c, result)) >= Allowance(c)
  {
  }

  lemma RepliedAllows(received: seq<KsFrame>, c: Command, result: Option<nat>)
    requires Orderly(c) && c.stage.Sending?
    ensures Orderly(Replied(received, c, result)) && Allowance(Replied(received, c, result)) >= Allowance(c)
  {
    if c.framing == Stx {
      ConcludedAllows(received, c, result);
    }
  }

  lemma ProbedAllows(received: seq<KsFrame>, c: Command, blocked: bool)
    requires Orderly(c) && c.stage.Probing?
    ensures var d := Turn(received, c, blocked); Orderly(d) && Allowance(d) >= Allowance(c) + Extra(c)
  {
    BegunAllows(c);
  }

  lemma ConfirmedAllows(received: seq<KsFrame>, c: Command, blocked: bool)
    requires Orderly(c) && c.stage.Confirming?
    ensures var d := Turn(received, c, blocked); Orderly(d) && Allowance(d) >= Allowance(c) + Extra(c)
  {
    ConcludedAllows(received, c, c.stage.waiter.frame);
  }

  lemma SentAllows(received: seq<KsFrame>, c: Command, blocked: bool)
    requires Orderly(c) && c.stage.Sending?
    ensures var d := Turn(received, c, blocked); Orderly(d) && Allowance(d) >= Allowance(c) + Extra(c)
  {
    RepliedAllows(received, c, c.stage.waiter.frame);
  }

  lemma TurnAllows(received: seq<KsFrame>, c: Command, blocked: bool)
    requires Orderly(c) && !c.stage.Done?
    ensures var d := Turn(received, c, blocked); Orderly(d) && Allowance(d) >= Allowance(c) + Extra(c)
  {
    match c.stage
    case NotStarted => BegunAllows(c);
    case Queued => ConcludedAllows(received, c, None);
    case Sending(_, _) => SentAllows(received, c, blocked);
    case Confirming(_, _) => ConfirmedAllows(received, c, blocked);
    case Sleeping => if c.framing == Stx { BegunAllows(c); }
    case Probing(_, _) => ProbedAllows(received, c, blocked);
    case Pausing =>
  }

  lemma DroppedAllows(c: Command)
    requires Orderly(c)
    ensures Orderly(Dropped(c)) && Allowance(Dropped(c)) >= Allowance(c)
  {
  }

  lemma ToldAllows(c: Command, frame: KsFrame, i: nat, onShow: bool)
    requires Orderly(c)
    ensures Orderly(Told(c, frame, i, onShow)) && Allowance(Told(c, frame, i, onShow)) == Allowance(c)
  {
  }

  ghost predicate WithinAllowance(s: State, run: seq<Action>, id: nat) {
    id in After(s, run).commands ==>
      Orderly(After(s, run).commands[id]) && SendCount(s, run, id) <= Allowance(After(s, run).commands[id])
  }

  lemma StepAllows(s: State, a: Action, id: nat)
    requires Enabled(s, a) && id in s.commands && Orderly(s.commands[id])
    ensures id in Next(s, a).commands && Orderly(Next(s, a).commands[id])
    ensures Allowance(Next(s, a).commands[id]) >= Allowance(s.commands[id]) + if Sends(s, a, id) then 1 else 0
  {
    var c := s.commands[id];
    if a.Go? && a.id == id {
      TurnAllows(s.received, c, a.blocked);
    } else if a.Receive? {
      ToldAllows(c, a.frame, |s.received|, OnShow(s, id));
    } else if (a.Expire? || a.Break? || a.Unwind?) && a.id == id {
      DroppedAllows(c);
    } else {
      MarkedAllows(s, a, id);
    }
  }

  lemma MarkedAllows(s: State, a: Action, id: nat)
    requires Enabled(s, a) && id in s.commands && Orderly(s.commands[id])
    requires !a.Receive? && (a.Go? || a.Expire? || a.Break? || a.Unwind? ==> a.id != id)
    ensures id in Next(s, a).commands
    ensures Next(s, a).commands[id] in {s.commands[id], s.commands[id].(cancelled := true)}
    ensures Allowance(s.commands[id].(cancelled := true)) == Allowance(s.commands[id])
  {
  }

  lemma {:induction false} RunAllows(s: State, run: seq<Action>, id: nat)
    requires Fresh(s)
    ensures WithinAllowance(s, run, id)
    ensures id !in After(s, run).commands ==> SendCount(s, run, id) == 0
    decreases |run|
  {
    if run != [] {
      var (before, a) := (run[..|run| - 1], run[|run| - 1]);
      RunAllows(s, before, id);
      var t := After(s, before);
      if Enabled(t, a) {
        if id in t.commands { StepAllows(t, a, id); } else { OnlyExecuteAdds(t, a, id); }
      }
    }
  }

  lemma OnlyExecuteAdds(s: State, a: Action, id: nat)
    requires Enabled(s, a) && id !in s.commands
    ensures id in Next(s, a).commands ==> a.Execute? && a.id == id && Orderly(Next(s, a).commands[id])
    ensures !Sends(s, a, id)
  {
  }

  /** Over any run, a command takes one round, and as many more as there are delays when it may be retried; and it
      sends at most its limit per loop: once per round for STX commands, and for F7 commands two loops per round and a
      probe between rounds. */
  lemma EffortIsBounded(s: State, run: seq<Action>, i: nat)
    requires Fresh(s) && Given(s, run, i)
    ensures run[i].id in After(s, run).commands
    ensures var c := After(s, run).commands[run[i].id];
      var rounds := 1 + if run[i].retry then After(s, run[..i]).delays else 0;
      && c.rounds <= rounds
      && SendCount(s, run, run[i].id) <=
           if run[i].framing == Stx then rounds
           else rounds * (2 * SendLimit(run[i].wish, run[i].configured, run[i].retry) + 1) - 1
  {
    GivenTerms(s, run, i);
    RunAllows(s, run, run[i].id);
    var c := After(s, run).commands[run[i].id];
    AllowanceIsBounded(c);
    BoundIs(c, MaxRounds(c));
    RoundsAreBounded(s, run, run[i].id);
  }

  lemma RoundsAreBounded(s: State, run: seq<Action>, id: nat)
    requires Fresh(s) && id in After(s, run).commands
    ensures After(s, run).commands[id].rounds <= MaxRounds(After(s, run).commands[id])
  {
    Reachable(s, run);
  }

  lemma BoundIs(c: Command, rounds: nat)
    requires rounds == MaxRounds(c) && (c.framing == Stx ==> c.sendLimit == 1)
    ensures MaxRounds(c) * PerRound(c) == if c.framing == Stx then rounds else rounds * (2 * c.sendLimit + 1)
  {
  }

  lemma AllowanceIsBounded(c: Command)
    requires Orderly(c) && c.sendLimit >= 1
    ensures Allowance(c) <= MaxRounds(c) * PerRound(c) - if c.framing == Stx then 0 else 1
  {
    var (n, m) := (MaxRounds(c), PerRound(c));
    TimesIs(n, m);
    assert m <= n * m by { assert n * m == m + (n - 1) * m; }
    if c.rounds > 0 {
      TimesGrow(c.rounds, n, m);
    }
  }

  lemma {:induction false} TimesGrow(i: nat, n: nat, m: nat)
    requires 1 <= i <= n
    ensures Times(i, m) <= Times(n, m) && (i < n ==> Times(i, m) + m <= Times(n, m))
    ensures Times(i, m) == Times(i - 1, m) + m
    decreases n - i
  {
    if i < n { TimesGrow(i + 1, n, m); }
  }

  /** The task of a superseded command takes no further round. */
  lemma SupersededStops(s: State, run: seq<Action>, i: nat)
    requires Fresh(s) && Given(s, run, i) && run[i].key in After(s, run[..i]).tasks
    ensures var t := After(s, run[..i]);
      var superseded := t.tasks[run[i].key];
      && superseded in t.commands && superseded in After(s, run).commands
      && After(s, run).commands[superseded].rounds == t.commands[superseded].rounds
  {
    var t := After(s, run[..i]);
    Reachable(s, run[..i]);
    assert run[..i + 1][..i] == run[..i];
    assert After(s, run[..i + 1]) == Next(t, run[i]);
    RunKeepsTerms(s, run, i + 1, t.tasks[run[i].key]);
  }

  /** A command that was accepted keeps showing `pending` until it begins. */
  lemma PendingUntilBegun(s: State, a: Action, id: nat)
    requires Enabled(s, a) && id in s.commands && (s.commands[id].rounds == 0 ==> s.commands[id].health == Pending)
    requires CommandOk(s.received, s.commands[id])
    ensures id in Next(s, a).commands && (Next(s, a).commands[id].rounds == 0 ==> Next(s, a).commands[id].health == Pending)
  {
    var c := s.commands[id];
    if a.Go? && a.id == id { TurnBegins(s.received, c, a.blocked); }
  }

  lemma TurnBegins(received: seq<KsFrame>, c: Command, blocked: bool)
    requires !c.stage.Done? && StageOk(received, c)
    ensures Turn(received, c, blocked).rounds > 0
  {
  }

  /** A command that was refused at once is over and decided. */
  predicate Refused(c: Command) {
    c.stage.Done? && c.health in {Failed, Healthy}
  }

  lemma RefusedStays(s: State, a: Action, id: nat)
    requires Enabled(s, a) && id in s.commands && Refused(s.commands[id])
    ensures id in Next(s, a).commands && Refused(Next(s, a).commands[id])
  {
  }

  lemma {:induction false} SinceGiven(s: State, run: seq<Action>, i: nat)
    requires Fresh(s) && Given(s, run, i)
    ensures run[i].id in After(s, run).commands
    ensures var c := After(s, run).commands[run[i].id];
      if After(s, run[..i]).accepting then c.rounds == 0 ==> c.health == Pending else Refused(c)
    decreases |run|
  {
    var (before, a) := (run[..|run| - 1], run[|run| - 1]);
    var t := After(s, before);
    if i == |run| - 1 {
      assert before == run[..i];
    } else {
      assert before[..i] == run[..i];
      SinceGiven(s, before, i);
      Reachable(s, before);
      if Enabled(t, a) {
        if After(s, run[..i]).accepting { PendingUntilBegun(t, a, run[i].id); } else { RefusedStays(t, a, run[i].id); }
      }
    }
  }

  /** A command that is over shows `failed` or `healthy` if and only if it was refused at once or its task began. */
  lemma EndsDecided(s: State, run: seq<Action>, i: nat)
    requires Fresh(s) && Given(s, run, i) && run[i].id in After(s, run).commands
    requires After(s, run).commands[run[i].id].stage.Done?
    ensures var c := After(s, run).commands[run[i].id];
      c.health in {Failed, Healthy} <==> !After(s, run[..i]).accepting || c.rounds > 0
  {
    Reachable(s, run);
    SinceGiven(s, run, i);
  }

  /** One that is stopped before its task has begun does: it is over, and shows `pending` from then on. */
  lemma StoppedBeforeItBegan(s: State, a: Action)
    requires Fresh(s) && a.Execute?
    ensures var t := After(s, [a, Stop, Unwind(a.id)]);
      && a.id in t.commands && OnShow(t, a.id)
      && t.commands[a.id].stage == Done(None) && t.commands[a.id].health == Pending
  {
    var run := [a, Stop, Unwind(a.id)];
    assert run[..2][..1] == run[..1] && run[..1][..0] == [] && run[..0] == [];
    assert After(s, run[..1]) == Next(s, a);
    assert a.id in Next(s, a).tasks.Values by { assert Next(s, a).tasks[a.key] == a.id; }
    assert After(s, run[..2]) == Next(Next(s, a), Stop);
    assert Enabled(After(s, run[..2]), Unwind(a.id));
  }

  /** Every later frame leaves it so. */
  lemma UndecidedStays(s: State, a: Action, id: nat)
    requires Enabled(s, a) && id in s.commands && s.commands[id].stage.Done? && s.commands[id].health == Pending
    ensures Next(s, a).commands[id].health == Pending && Next(s, a).commands[id].stage.Done?
  {
  }

  /** A command that has returned no longer holds its key, and nobody else's task is touched. */
  lemma ReturnExactly(s: State, id: nat)
    requires KeysOk(s) && Enabled(s, Return(id))
    ensures forall key :: key in Next(s, Return(id)).tasks <==> key in s.tasks && s.tasks[key] != id
    ensures forall key :: key in Next(s, Return(id)).tasks ==> Next(s, Return(id)).tasks[key] == s.tasks[key]
    ensures Next(s, Return(id)).commands == s.commands && Next(s, Return(id)).shown == s.shown
  {
  }

  // ---- What is asked, and in which order ----

  /** The control waits for the caller's reply, a status request for the confirmation itself, a probe for any state. */
  ghost predicate AsksRight(c: Command) {
    match c.stage
    case Sending(w, _) => w.matcher == if c.framing == Stx then c.matcher else c.response
    case Confirming(w, _) => c.framing == F7 && w.matcher == c.matcher
    case Probing(w, _) => c.framing == F7 && w.matcher == c.state
    case Pausing => c.framing == F7
    case _ => true
  }

  lemma TurnAsks(received: seq<KsFrame>, c: Command, blocked: bool)
    requires AsksRight(c)
    ensures AsksRight(Turn(received, c, blocked))
  {
  }

  lemma StepAsks(s: State, a: Action, id: nat)
    requires Enabled(s, a) && id in Next(s, a).commands && (id in s.commands ==> AsksRight(s.commands[id]))
    ensures AsksRight(Next(s, a).commands[id])
  {
    if a.Go? && a.id == id { TurnAsks(s.received, s.commands[id], a.blocked); }
  }

  lemma {:induction false} RunAsks(s: State, run: seq<Action>, id: nat)
    requires Fresh(s)
    ensures id in After(s, run).commands ==> AsksRight(After(s, run).commands[id])
    decreases |run|
  {
    if run != [] {
      var (before, a) := (run[..|run| - 1], run[|run| - 1]);
      RunAsks(s, before, id);
      if Enabled(After(s, before), a) && id in Next(After(s, before), a).commands { StepAsks(After(s, before), a, id); }
    }
  }

  /** A further round of an F7 command begins only when a probe has been made, or refused, and confirmed nothing; of an
      STX command after the delay alone. */
  lemma RoundsFollowProbes(received: seq<KsFrame>, c: Command, blocked: bool)
    requires !c.stage.Done? && Turn(received, c, blocked).rounds > c.rounds
    ensures c.stage.NotStarted? || (c.framing == Stx && c.stage.Sleeping?)
            || (c.stage.Probing? && (c.stage.waiter.frame.Some? || c.stage.sends >= 1)
                && forall k :: !Served(received, c, blocked, k))
  {
  }

  /** A status request follows only a control loop that brought no confirmation. */
  lemma ConfirmsAfterControl(received: seq<KsFrame>, c: Command, blocked: bool)
    requires !c.stage.Done? && Turn(received, c, blocked).stage.Pausing?
    ensures c.framing == F7 && c.stage.Sending? && (c.stage.waiter.frame.Some? || c.stage.sends >= c.sendLimit)
    ensures forall k :: !Served(received, c, blocked, k)
  {
  }

  /** `stop` cancels every task there is, and from then on new commands are refused at once. */
  lemma StopRefusesAll(s: State, a: Action)
    requires KeysOk(s) && a.Execute? && Enabled(Next(s, Stop), a)
    ensures forall id :: Live(Next(s, Stop), id) ==> Next(s, Stop).commands[id].cancelled
    ensures var c := Next(Next(s, Stop), a).commands[a.id]; c.stage == Done(None) && c.health == Failed
  {
    forall id | Live(Next(s, Stop), id) ensures Next(s, Stop).commands[id].cancelled {
      assert Live(s, id);
      if !s.commands[id].cancelled { assert s.tasks[s.commands[id].key] == id; }
    }
  }

  // ---- Success is not missed ----

  /** The task's waiter has been served by a frame that confirms the command; a probe counts only on an unchanged
      connection. */
  predicate Served(received: seq<KsFrame>, c: Command, blocked: bool, k: nat) {
    && (c.stage.Sending? || c.stage.Confirming? || (c.stage.Probing? && !blocked))
    && c.stage.waiter.frame == Some(k) && k < |received| && c.matcher(received[k])
  }

  /** A turn succeeds, with the frame as its result and a healthy status, if and only if it finds its waiter served
      by a confirming frame. */
  lemma TurnSucceedsExactly(received: seq<KsFrame>, c: Command, blocked: bool, k: nat)
    requires !c.stage.Done?
    ensures Turn(received, c, blocked).stage == Done(Some(k)) <==> Served(received, c, blocked, k)
    ensures Served(received, c, blocked, k) ==> Turn(received, c, blocked).health == Healthy
  {
  }

  /** A turn fails only when no round is left; before that a fruitless round is followed by another one. */
  lemma FailsOnlyWhenSpent(received: seq<KsFrame>, c: Command, blocked: bool)
    requires !c.stage.Done? && c.health != Failed && Turn(received, c, blocked).health == Failed
    ensures c.rounds >= MaxRounds(c)
  {
  }

  /** A frame serves exactly the waiters it satisfies that have not been served, and heals exactly the failed status
      on show whose matcher it satisfies. */
  lemma FrameDoesExactly(s: State, frame: KsFrame, id: nat)
    requires id in s.commands
    ensures var (c, d) := (s.commands[id], Next(s, Receive(frame)).commands[id]);
      && d.health == (if OnShow(s, id) && c.health == Failed && c.matcher(frame) then Healthy else c.health)
      && (c.stage.Sending? || c.stage.Confirming? || c.stage.Probing? ==>
            && (d.stage.Sending? || d.stage.Confirming? || d.stage.Probing?)
            && d.stage.waiter.frame == if c.stage.waiter.frame.None? && c.stage.waiter.matcher(frame)
                                       then Some(|s.received|) else c.stage.waiter.frame)
  {
  }

  /** The status on show of a command that is over. */
  ghost predicate ShowsOver(s: State, id: nat, matcher: Matcher, health: Health) {
    OnShow(s, id) && s.commands[id].stage.Done? && s.commands[id].matcher == matcher && s.commands[id].health == health
  }

  lemma OneFrame(s: State, f: KsFrame, id: nat, matcher: Matcher, health: Health)
    requires ShowsOver(s, id, matcher, health)
    ensures ShowsOver(Next(s, Receive(f)), id, matcher, if health == Failed && matcher(f) then Healthy else health)
  {
  }

  lemma OneMoreFrame(s: State, before: seq<KsFrame>, f: KsFrame)
    ensures After(s, Received(before + [f])) == Next(After(s, Received(before)), Receive(f))
  {
    assert Received(before + [f])[..|before|] == Received(before);
  }

  /** A failed status on show stays failed through frames that do not confirm it, and the first that does heals it. */
  lemma {:induction false} FailedUntilConfirmed(s: State, frames: seq<KsFrame>, id: nat, matcher: Matcher)
    requires ShowsOver(s, id, matcher, Failed)
    ensures ShowsOver(After(s, Received(frames)), id, matcher,
                      if exists f :: f in frames && matcher(f) then Healthy else Failed)
    decreases |frames|
  {
    if frames != [] {
      var (before, f) := (frames[..|frames| - 1], frames[|frames| - 1]);
      var health := if exists g :: g in before && matcher(g) then Healthy else Failed;
      FailedUntilConfirmed(s, before, id, matcher);
      assert frames == before + [f];
      OneMoreFrame(s, before, f);
      OneFrame(After(s, Received(before)), f, id, matcher, health);
    }
  }

  function Received(frames: seq<KsFrame>): (run: seq<Action>)
    ensures |run| == |frames|
  {
    seq(|frames|, i requires 0 <= i < |frames| => Receive(frames[i]))
  }
}
