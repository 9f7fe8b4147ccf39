/** Command recovery: commands that are sent, confirmed by a received frame, retried and superseded, as steps
    between suspension points. */
module Recovery {
  import opened Bytes
  import opened Wrappers
  import opened CodecStep
  import opened GuardedState

  type Key = int

  type Matcher = KsFrame -> bool

  /** What a command's status shows. */
  datatype Health = Pending | Recovering | Healthy | Failed

  /** A frame waiter: a matcher, and the first received frame that satisfied it since it was registered. */
  datatype Waiter = Waiter(matcher: Matcher, frame: Option<nat>)

  /** Where a command's task is suspended; `sends` counts the attempts of the present send loop. */
  datatype Stage =
    | NotStarted
    | Queued                                  // for the transaction lock
    | Sending(waiter: Waiter, sends: nat)
    | Pausing
    | Confirming(waiter: Waiter, sends: nat)
    | Sleeping
    | Probing(waiter: Waiter, sends: nat)
    | Done(result: Option<nat>)

  /** F7 commands are confirmed by a status request of their own; STX commands by the awaited reply alone. */
  datatype Framing = F7 | Stx

  datatype Command = Command(
    key: Key, framing: Framing, matcher: Matcher, response: Matcher, state: Matcher, retry: bool, delays: nat, sendLimit: nat,
    since: nat,                // frames received before the command
    health: Health, rounds: nat, cancelled: bool, stage: Stage)

  datatype State = State(
    delays: nat, accepting: bool, received: seq<KsFrame>,
    commands: map<nat, Command>, shown: map<Key, nat>, tasks: map<Key, nat>)

  datatype Action =
    | Execute(id: nat, key: Key, framing: Framing, wanted: Matcher, response: Matcher, state: Matcher,
              retry: bool, wish: Option<int>, configured: int)
    | Go(id: nat, blocked: bool)
    | Expire(id: nat)
    | Break(id: nat)
    | Cancel(id: nat)
    | Unwind(id: nat)
    | Return(id: nat)
    | Receive(frame: KsFrame)
    | Stop
    | Resume

  /** How often one send loop sends: what the caller wished or else what is configured, at least once and at most
      twenty times, or three times when rounds may follow each other. */
  function SendLimit(wish: Option<int>, configured: int, retry: bool): (n: nat)
    ensures 1 <= n <= (if retry then 3 else 20)
    ensures wish.Some? && wish.value >= 1 ==> n <= wish.value
  {
    var asked := if wish.Some? && wish.value != 0 then wish.value else configured;
    var perRound := if retry && asked > 3 then 3 else asked;
    var chosen := if perRound != 0 then perRound else configured;
    if chosen > 20 then 20 else if chosen < 1 then 1 else chosen
  }

  /** The confirmation a caller asks for counts only on a plausible payload. */
  function Verified(wanted: Matcher): Matcher {
    (f: KsFrame) => ValidResponsePayload(f.addr, f.cmd, f.payload) && wanted(f)
  }

  function Wanted(framing: Framing, wanted: Matcher): Matcher {
    if framing == F7 then Verified(wanted) else wanted
  }

  function MaxRounds(c: Command): nat {
    if c.retry then 1 + c.delays else 1
  }

  predicate Live(s: State, id: nat) {
    id in s.commands && !s.commands[id].stage.Done?
  }

  predicate Enabled(s: State, a: Action) {
    match a
    case Execute(id, _, _, _, _, _, _, _, _) => id !in s.commands
    case Go(id, _) => Live(s, id) && !s.commands[id].cancelled
    case Expire(id) => Live(s, id) && !s.commands[id].stage.NotStarted?
    case Break(id) => Live(s, id) && !s.commands[id].stage.NotStarted?
    case Cancel(id) => Live(s, id)
    case Unwind(id) => Live(s, id) && s.commands[id].cancelled
    case Return(id) => id in s.commands && s.commands[id].stage.Done?
    case _ => true
  }

  /** The task's next round begins. */
  function Begun(c: Command): Command {
    c.(rounds := c.rounds + 1, stage := Queued)
  }

  /** The result is a received frame that confirms the command. */
  predicate IsConfirmation(received: seq<KsFrame>, c: Command, result: Option<nat>) {
    result.Some? && result.value < |received| && c.matcher(received[result.value])
  }

  /** The operation is over; only a confirming frame counts. */
  function Concluded(received: seq<KsFrame>, c: Command, result: Option<nat>): Command {
    if IsConfirmation(received, c, result) then
      c.(health := Healthy, stage := Done(result))
    else if c.rounds < MaxRounds(c) then c.(health := Recovering, stage := Sleeping)
    else c.(health := Failed, stage := Done(None))
  }

  /** The first send loop is over. */
  function Replied(received: seq<KsFrame>, c: Command, result: Option<nat>): Command {
    if c.framing == Stx || IsConfirmation(received, c, result)
    then Concluded(received, c, result)
    else c.(stage := Pausing)
  }

  /** One turn of the task. A send loop looks whether its waiter has been served, sends, or gives up. `blocked`
      says that a guard refuses the operation, or that a probe's connection changed. */
  function Turn(received: seq<KsFrame>, c: Command, blocked: bool): Command {
    match c.stage
    case NotStarted => Begun(c)
    case Queued =>
      if blocked then Concluded(received, c, None)
      else c.(stage := Sending(Waiter(if c.framing == Stx then c.matcher else c.response, None), 0))
    case Sending(w, n) =>
      if w.frame.Some? then Replied(received, c, w.frame)
      else if n < c.sendLimit then c.(stage := Sending(w, n + 1))
      else Replied(received, c, None)
    case Pausing => c.(stage := Confirming(Waiter(c.matcher, None), 0))
    case Confirming(w, n) =>
      if w.frame.Some? then Concluded(received, c, w.frame)
      else if n < c.sendLimit then c.(stage := Confirming(w, n + 1))
      else Concluded(received, c, None)
    case Sleeping => if c.framing == Stx then Begun(c) else c.(stage := Probing(Waiter(c.state, None), 0))
    case Probing(w, n) =>
      if !blocked && IsConfirmation(received, c, w.frame) then
        c.(health := Healthy, stage := Done(w.frame))
      else if w.frame.None? && n < 1 then c.(stage := Probing(w, n + 1))
      else Begun(c)
    case Done(_) => c
  }

  /** The cancelled task ends; one that never began leaves its status as it was. */
  function Dropped(c: Command): Command {
    c.(health := if c.stage.NotStarted? then c.health else Failed, stage := Done(None))
  }

  function Heard(w: Waiter, frame: KsFrame, i: nat): Waiter {
    if w.frame.None? && w.matcher(frame) then w.(frame := Some(i)) else w
  }

  /** Every waiter that the frame satisfies is served; the failed status on show is healed by a frame that
      satisfies its matcher. */
  function Told(c: Command, frame: KsFrame, i: nat, onShow: bool): Command {
    var stage := match c.stage
      case Sending(w, n) => Sending(Heard(w, frame, i), n)
      case Confirming(w, n) => Confirming(Heard(w, frame, i), n)
      case Probing(w, n) => Probing(Heard(w, frame, i), n)
      case other => other;
    c.(stage := stage, health := if onShow && c.health == Failed && c.matcher(frame) then Healthy else c.health)
  }

  function OnShow(s: State, id: nat): bool {
    id in s.commands && s.commands[id].key in s.shown && s.shown[s.commands[id].key] == id
  }

  /** `cancel` marks a task; its next step is its last. */
  function Marked(s: State, ids: set<nat>): State {
    s.(commands := map id | id in s.commands :: if id in ids then s.commands[id].(cancelled := true) else s.commands[id])
  }

  function With(s: State, id: nat, c: Command): State {
    s.(commands := s.commands[id := c])
  }

  /** The command on show for a key, and the task that runs for it, are replaced. */
  function Executed(s: State, a: Action): State
    requires a.Execute?
  {
    var t := if a.key in s.tasks then Marked(s, {s.tasks[a.key]}) else s;
    var c := Command(a.key, a.framing, Wanted(a.framing, a.wanted), a.response, a.state, a.retry, s.delays,
                     if a.framing == Stx then 1 else SendLimit(a.wish, a.configured, a.retry), |s.received|, Pending, 0, false, NotStarted);
    if !s.accepting then With(t, a.id, c.(health := Failed, stage := Done(None))).(shown := s.shown[a.key := a.id])
    else With(t, a.id, c).(shown := s.shown[a.key := a.id], tasks := s.tasks[a.key := a.id])
  }

  function Next(s: State, a: Action): State
    requires Enabled(s, a)
  {
    match a
    case Execute(_, _, _, _, _, _, _, _, _) => Executed(s, a)
    case Go(id, blocked) => With(s, id, Turn(s.received, s.commands[id], blocked))
    case Expire(id) => With(s, id, Dropped(s.commands[id]))
    case Break(id) => With(s, id, Dropped(s.commands[id]))
    case Cancel(id) => Marked(s, {id})
    case Unwind(id) => With(s, id, Dropped(s.commands[id]))
    case Return(id) =>
      var key := s.commands[id].key;
      if key in s.tasks && s.tasks[key] == id then s.(tasks := s.tasks - {key}) else s
    case Receive(frame) =>
      s.(received := s.received + [frame],
         commands := map id | id in s.commands :: Told(s.commands[id], frame, |s.received|, OnShow(s, id)))
    case Stop => Marked(s, s.tasks.Values).(accepting := false)
    case Resume => s.(accepting := true)
  }

  function After(s: State, run: seq<Action>): State {
    if run == [] then s
    else
      var t := After(s, run[..|run| - 1]);
      if Enabled(t, run[|run| - 1]) then Next(t, run[|run| - 1]) else t
  }

  predicate Fresh(s: State) {
    s.accepting && s.received == [] && s.commands.Keys == {} && s.shown == map[] && s.tasks == map[]
  }

  // ---- What every step keeps ----

  /** A frame received after the first `since` ones that satisfies the matcher. */
  ghost predicate Confirms(received: seq<KsFrame>, since: nat, matcher: Matcher, i: nat) {
    since <= i < |received| && matcher(received[i])
  }

  ghost predicate Confirmed(received: seq<KsFrame>, since: nat, matcher: Matcher) {
    exists i :: Confirms(received, since, matcher, i)
  }

  ghost predicate WaiterOk(received: seq<KsFrame>, c: Command, w: Waiter) {
    w.frame.Some? ==> Confirms(received, c.since, w.matcher, w.frame.value)
  }

  ghost predicate StageOk(received: seq<KsFrame>, c: Command) {
    match c.stage
    case NotStarted => c.rounds == 0
    case Queued => 1 <= c.rounds
    case Sending(w, n) => 1 <= c.rounds && n <= c.sendLimit && WaiterOk(received, c, w)
    case Pausing => 1 <= c.rounds
    case Confirming(w, n) => 1 <= c.rounds && n <= c.sendLimit && WaiterOk(received, c, w)
    case Sleeping => 1 <= c.rounds < MaxRounds(c)
    case Probing(w, n) => 1 <= c.rounds < MaxRounds(c) && n <= 1 && WaiterOk(received, c, w)
    case Done(result) =>
      && (result.Some? ==> Confirms(received, c.since, c.matcher, result.value) && c.health == Healthy)
      && (c.health == Failed || c.health == Healthy || (c.cancelled && c.rounds == 0))
  }

  ghost predicate CommandOk(received: seq<KsFrame>, c: Command) {
    && c.since <= |received| && c.rounds <= MaxRounds(c)
    && (c.health == Healthy ==> Confirmed(received, c.since, c.matcher))
    && (c.health == Failed ==> c.stage.Done?)
    && StageOk(received, c)
  }

  ghost predicate CommandsOk(s: State) {
    forall id :: id in s.commands ==> CommandOk(s.received, s.commands[id])
  }

  /** The dictionaries agree with the commands, and every command still at work holds its key's task. */
  ghost predicate KeysOk(s: State) {
    && (forall key :: key in s.shown ==> s.shown[key] in s.commands && s.commands[s.shown[key]].key == key)
    && (forall key :: key in s.tasks ==> s.tasks[key] in s.commands && s.commands[s.tasks[key]].key == key)
    && (forall id :: Live(s, id) && !s.commands[id].cancelled ==>
          s.commands[id].key in s.tasks && s.tasks[s.commands[id].key] == id)
  }

  lemma ConcludedKeeps(received: seq<KsFrame>, c: Command, result: Option<nat>)
    requires CommandOk(received, c) && c.rounds >= 1 && (result.Some? ==> result.value >= c.since)
    ensures CommandOk(received, Concluded(received, c, result))
  {
    if IsConfirmation(received, c, result) { assert Confirms(received, c.since, c.matcher, result.value); }
  }

  lemma RepliedKeeps(received: seq<KsFrame>, c: Command, result: Option<nat>)
    requires CommandOk(received, c) && !c.stage.Done? && c.rounds >= 1 && (result.Some? ==> result.value >= c.since)
    ensures CommandOk(received, Replied(received, c, result))
  {
    ConcludedKeeps(received, c, result);
  }

  lemma BegunKeeps(received: seq<KsFrame>, c: Command)
    requires CommandOk(received, c) && !c.stage.Done? && c.rounds < MaxRounds(c)
    ensures CommandOk(received, Begun(c))
  {
  }

  lemma ProbedKeeps(received: seq<KsFrame>, c: Command, blocked: bool)
    requires CommandOk(received, c) && c.stage.Probing?
    ensures CommandOk(received, Turn(received, c, blocked))
  {
    BegunKeeps(received, c);
    var w := c.stage.waiter;
    if !blocked && IsConfirmation(received, c, w.frame) {
      assert Confirms(received, c.since, c.matcher, w.frame.value);
    }
  }

  lemma TurnKeeps(received: seq<KsFrame>, c: Command, blocked: bool)
    requires CommandOk(received, c) && !c.stage.Done?
    ensures CommandOk(received, Turn(received, c, blocked))
  {
    match c.stage
    case NotStarted => BegunKeeps(received, c);
    case Queued => ConcludedKeeps(received, c, None);
    case Sending(w, n) => RepliedKeeps(received, c, w.frame);
    case Confirming(w, n) => ConcludedKeeps(received, c, w.frame);
    case Sleeping => BegunKeeps(received, c);
    case Probing(_, _) => ProbedKeeps(received, c, blocked);
    case Pausing =>
  }

  lemma TurnLeaves(received: seq<KsFrame>, c: Command, blocked: bool)
    ensures var d := Turn(received, c, blocked);
      d.key == c.key && d.cancelled == c.cancelled && d.matcher == c.matcher && d.since == c.since
  {
  }

  lemma DroppedKeeps(received: seq<KsFrame>, c: Command)
    requires CommandOk(received, c) && !c.stage.Done? && (c.stage.NotStarted? ==> c.cancelled)
    ensures CommandOk(received, Dropped(c))
  {
  }

  /** One more frame: what was confirmed stays so, and only the frame itself confirms anything new. */
  lemma ToldKeeps(received: seq<KsFrame>, c: Command, frame: KsFrame, onShow: bool)
    requires CommandOk(received, c)
    ensures CommandOk(received + [frame], Told(c, frame, |received|, onShow))
  {
    forall i, matcher | Confirms(received, c.since, matcher, i)
      ensures Confirms(received + [frame], c.since, matcher, i)
    {
    }
    if c.health == Healthy {
      var i :| Confirms(received, c.since, c.matcher, i);
      assert Confirms(received + [frame], c.since, c.matcher, i);
    } else if c.matcher(frame) {
      assert Confirms(received + [frame], c.since, c.matcher, |received|);
    }
  }

  /** One command has moved on. */
  lemma WithKeeps(s: State, id: nat, c: Command)
    requires CommandsOk(s) && KeysOk(s) && Live(s, id) && CommandOk(s.received, c)
    requires c.key == s.commands[id].key && c.cancelled == s.commands[id].cancelled
    ensures CommandsOk(With(s, id, c)) && KeysOk(With(s, id, c))
  {
  }

  lemma MarkingKeeps(received: seq<KsFrame>, c: Command)
    requires CommandOk(received, c)
    ensures CommandOk(received, c.(cancelled := true))
  {
  }

  lemma MarkedKeeps(s: State, ids: set<nat>)
    requires CommandsOk(s) && KeysOk(s)
    ensures CommandsOk(Marked(s, ids)) && KeysOk(Marked(s, ids))
  {
    var t := Marked(s, ids);
    forall id | id in t.commands ensures CommandOk(t.received, t.commands[id]) {
      MarkingKeeps(s.received, s.commands[id]);
    }
    assert forall id :: Live(t, id) ==> Live(s, id);
  }

  /** A new command goes on show for its key. */
  lemma ShowingKeeps(t: State, id: nat, c: Command)
    requires CommandsOk(t) && id !in t.commands && CommandOk(t.received, c)
    ensures CommandsOk(With(t, id, c).(shown := t.shown[c.key := id]))
    ensures KeysOk(t) && c.stage.Done? ==> KeysOk(With(t, id, c).(shown := t.shown[c.key := id]))
  {
    var u := With(t, id, c).(shown := t.shown[c.key := id]);
    assert forall other :: other in t.commands ==> u.commands[other] == t.commands[other];
    assert c.stage.Done? ==> forall other :: Live(u, other) ==> Live(t, other);
  }

  /** Its task takes over from the one that was running, which is on its way out. */
  lemma TakingOverKeeps(t: State, id: nat, c: Command)
    requires KeysOk(t) && id !in t.commands
    requires c.key in t.tasks ==> t.commands[t.tasks[c.key]].cancelled
    ensures KeysOk(With(t, id, c).(shown := t.shown[c.key := id], tasks := t.tasks[c.key := id]))
  {
    var u := With(t, id, c).(shown := t.shown[c.key := id], tasks := t.tasks[c.key := id]);
    forall other | Live(u, other) && !u.commands[other].cancelled
      ensures u.commands[other].key in u.tasks && u.tasks[u.commands[other].key] == other
    {
      if other != id { assert Live(t, other); }
    }
  }

  lemma ExecutedKeeps(s: State, a: Action)
    requires CommandsOk(s) && KeysOk(s) && a.Execute? && Enabled(s, a)
    ensures CommandsOk(Next(s, a)) && KeysOk(Next(s, a))
  {
    var t := if a.key in s.tasks then Marked(s, {s.tasks[a.key]}) else s;
    if a.key in s.tasks { MarkedKeeps(s, {s.tasks[a.key]}); }
    ShowingKeeps(t, a.id, Executed(s, a).commands[a.id]);
    TakingOverKeeps(t, a.id, Executed(s, a).commands[a.id]);
  }

  lemma ReceiveKeeps(s: State, a: Action)
    requires CommandsOk(s) && KeysOk(s) && a.Receive?
    ensures CommandsOk(Next(s, a)) && KeysOk(Next(s, a))
  {
    var t := Next(s, a);
    forall id | id in t.commands ensures CommandOk(t.received, t.commands[id]) {
      ToldKeeps(s.received, s.commands[id], a.frame, OnShow(s, id));
    }
    assert forall id :: Live(t, id) ==> Live(s, id);
  }

  lemma MovedKeeps(s: State, a: Action)
    requires CommandsOk(s) && KeysOk(s) && Enabled(s, a) && (a.Go? || a.Expire? || a.Break? || a.Unwind?)
    ensures CommandsOk(Next(s, a)) && KeysOk(Next(s, a))
  {
    var c := s.commands[a.id];
    if a.Go? {
      TurnKeeps(s.received, c, a.blocked);
      TurnLeaves(s.received, c, a.blocked);
    } else {
      DroppedKeeps(s.received, c);
    }
    WithKeeps(s, a.id, if a.Go? then Turn(s.received, c, a.blocked) else Dropped(c));
  }

  lemma StepKeeps(s: State, a: Action)
    requires CommandsOk(s) && KeysOk(s) && Enabled(s, a)
    ensures CommandsOk(Next(s, a)) && KeysOk(Next(s, a))
  {
    match a
    case Execute(_, _, _, _, _, _, _, _, _) => ExecutedKeeps(s, a);
    case Cancel(id) => MarkedKeeps(s, {id});
    case Receive(_) => ReceiveKeeps(s, a);
    case Stop => MarkedKeeps(s, s.tasks.Values);
    case Return(_) =>
    case Resume =>
    case _ => MovedKeeps(s, a);
  }

  lemma {:induction false} Reachable(s: State, run: seq<Action>)
    requires Fresh(s)
    ensures CommandsOk(After(s, run)) && KeysOk(After(s, run))
    decreases |run|
  {
    if run != [] {
      var (before, a) := (run[..|run| - 1], run[|run| - 1]);
      Reachable(s, before);
      if Enabled(After(s, before), a) { StepKeeps(After(s, before), a); }
    }
  }
}
