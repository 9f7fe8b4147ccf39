/** The EW11 client: `start`, `stop` and `async_reconnect` running concurrently, senders, and the queue
    worker, as steps between suspension points. The socket is an outcome of each step. */
module Client {
  import opened Wrappers

  type Time = real

  const MAX_COMMAND_QUEUE_SIZE: nat := 64

  datatype OpKind = Start | Stop | Reconnect

  /** A lifecycle call: the stop generation it saw (or made), when it was invoked, and whether it already
      holds the lifecycle lock, suspended while the old tasks and the socket wind down. */
  datatype Op = Op(kind: OpKind, generation: nat, invoked: nat, closing: bool)

  datatype Future = Pending | Resolved(ok: bool) | Cancelled

  /** A queued command; `era` counts the shutdowns that had happened when it was queued. */
  datatype Command = Command(deadline: Time, limit: nat, future: Future, returned: bool, writes: nat, era: nat)

  datatype Work = Idle | Trying(command: nat, attempt: nat) | Waiting(command: nat, attempt: nat) | Draining(command: nat, attempt: nat)

  datatype Worker = Worker(cancelled: bool, work: Work)

  datatype State = State(
    running: bool, generation: nat, lock: Option<nat>, ops: map<nat, Op>,
    queue: seq<nat>, commands: map<nat, Command>, active: Option<nat>,
    workers: map<nat, Worker>, current: Option<nat>,
    era: nat,               // shutdowns so far
    steps: nat,             // actions so far
    startedAt: nat,         // invocation of the start the client is running by
    returnedStops: set<nat> // invocations of the stops that have returned
  )

  datatype Action =
    | Invoke(op: nat, kind: OpKind)
    | Acquire(op: nat, worker: nat)
    | Closed(op: nat, worker: nat)
    | Abandon(op: nat, forget: bool)
    | Send(command: nat, deadline: Time, retry: nat, maxAttempts: Option<int>)
    | SendEnds(command: nat)
    | Pick(worker: nat)
    | Try(worker: nat, now: Time, connected: bool, after: Time)
    | Wake(worker: nat)
    | Drained(worker: nat, ok: bool)
    | Die(worker: nat)

  /** Attempts a command may take: what the caller asked for, within `1..retry + 1`. */
  function Limit(retry: nat, maxAttempts: Option<int>): (n: nat)
    ensures 1 <= n <= retry + 1
    ensures maxAttempts.None? ==> n == retry + 1
    ensures maxAttempts.Some? && 1 <= maxAttempts.value <= retry + 1 ==> n == maxAttempts.value
    ensures maxAttempts.Some? && maxAttempts.value < 1 ==> n == 1
    ensures maxAttempts.Some? && maxAttempts.value > retry ==> n == retry + 1
  {
    match maxAttempts
    case None => retry + 1
    case Some(m) => if m > retry + 1 then retry + 1 else if m < 1 then 1 else m
  }

  function Settled(c: Command, ok: bool): Command {
    if c.future.Pending? then c.(future := Resolved(ok)) else c
  }

  predicate Enabled(s: State, a: Action) {
    match a
    case Invoke(op, _) => op !in s.ops
    case Acquire(op, w) => op in s.ops && !s.ops[op].closing && s.lock.None? && w !in s.workers
    case Closed(op, w) => op in s.ops && s.ops[op].closing && w !in s.workers
    case Abandon(op, _) => op in s.ops
    case Send(c, _, _, _) => c !in s.commands
    case SendEnds(c) => c in s.commands
    case Pick(w) => w in s.workers && !s.workers[w].cancelled && s.workers[w].work.Idle? && s.queue != []
                    && s.queue[0] in s.commands
    case Try(w, now, _, after) =>
      && w in s.workers && !s.workers[w].cancelled && s.workers[w].work.Trying?
      && s.workers[w].work.command in s.commands && now <= after
    case Wake(w) => w in s.workers && !s.workers[w].cancelled && s.workers[w].work.Waiting?
    case Drained(w, _) => w in s.workers && !s.workers[w].cancelled && s.workers[w].work.Draining?
                          && s.workers[w].work.command in s.commands
    case Die(w) => w in s.workers
  }

  function Doing(s: State, w: nat, work: Work): State
    requires w in s.workers
  {
    s.(workers := s.workers[w := s.workers[w].(work := work)])
  }

  /** The synchronous part of a shutdown: nobody waits for a queued command any more, and the worker is
      cancelled. */
  function ShutDown(s: State): State {
    s.(running := false, queue := [], era := s.era + 1,
       commands := map c | c in s.commands ::
         if c in s.queue || s.active == Some(c) then Settled(s.commands[c], false) else s.commands[c],
       workers := map w | w in s.workers ::
         if s.current == Some(w) then s.workers[w].(cancelled := true) else s.workers[w])
  }

  function StartUp(s: State, w: nat): State {
    if s.running then s else s.(running := true, current := Some(w), workers := s.workers[w := Worker(false, Idle)])
  }

  function Acquired(s: State, id: nat, w: nat): State
    requires id in s.ops
  {
    var op := s.ops[id];
    var free := s.(ops := s.ops - {id});
    match op.kind
    case Start =>
      if op.generation == s.generation && !s.running
      then StartUp(free, w).(startedAt := op.invoked) else free
    case Stop => ShutDown(s).(lock := Some(id), ops := s.ops[id := op.(closing := true)])
    case Reconnect =>
      if !s.running || op.generation != s.generation then free
      else ShutDown(s).(lock := Some(id), ops := s.ops[id := op.(closing := true)])
  }

  /** Tasks and socket have wound down; a reconnect starts again unless a stop was invoked meanwhile. */
  function Ended(s: State, id: nat, w: nat): State
    requires id in s.ops
  {
    var op := s.ops[id];
    var free := s.(lock := None, ops := s.ops - {id}, active := None, current := None);
    match op.kind
    case Stop => free.(returnedStops := s.returnedStops + {op.invoked})
    case Reconnect => if op.generation == s.generation then StartUp(free, w) else free
    case Start => free
  }

  /** The worker is done with a command. */
  function Finished(s: State, w: nat, c: nat, ok: bool): State
    requires w in s.workers && c in s.commands
  {
    Doing(s, w, Idle).(commands := s.commands[c := Settled(s.commands[c], ok)], active := None)
  }

  predicate MayWrite(s: State, c: nat, attempt: nat, now: Time)
    requires c in s.commands
  {
    && attempt < s.commands[c].limit
    && s.running && s.commands[c].future.Pending? && now < s.commands[c].deadline
  }

  /** One turn of the attempt loop: give up, wait for a connection, or write. The clock is read again after
      the write. */
  function Tried(s: State, w: nat, now: Time, connected: bool, after: Time): State
    requires w in s.workers && s.workers[w].work.Trying? && s.workers[w].work.command in s.commands
  {
    var (c, attempt) := (s.workers[w].work.command, s.workers[w].work.attempt);
    if !MayWrite(s, c, attempt, now) then Finished(s, w, c, false)
    else if !connected then
      if after >= s.commands[c].deadline then Finished(s, w, c, false) else Doing(s, w, Waiting(c, attempt))
    else
      var written := s.(commands := s.commands[c := s.commands[c].(writes := s.commands[c].writes + 1)]);
      if after >= s.commands[c].deadline then Finished(written, w, c, false)
      else Doing(written, w, Draining(c, attempt + 1))
  }

  function Next(s: State, a: Action): State
    requires Enabled(s, a)
  {
    match a
    case Invoke(op, kind) =>
      var generation := if kind == Stop then s.generation + 1 else s.generation;
      s.(generation := generation, ops := s.ops[op := Op(kind, generation, s.steps, false)])
    case Acquire(op, w) => Acquired(s, op, w)
    case Closed(op, w) => Ended(s, op, w)
    case Abandon(op, forget) =>
      s.(ops := s.ops - {op}, lock := if s.lock == Some(op) then None else s.lock,
         active := if s.lock == Some(op) && forget then None else s.active,
         current := if s.lock == Some(op) && forget then None else s.current)
    case Send(c, deadline, retry, maxAttempts) =>
      if !s.running || |s.queue| >= MAX_COMMAND_QUEUE_SIZE then s
      else s.(commands := s.commands[c := Command(deadline, Limit(retry, maxAttempts), Pending, false, 0, s.era)],
             queue := s.queue + [c])
    case SendEnds(c) =>
      var command := s.commands[c];
      s.(commands := s.commands[c := command.(
        future := if command.future.Pending? then Cancelled else command.future, returned := true)])
    case Pick(w) => Doing(s, w, Trying(s.queue[0], 0)).(queue := s.queue[1..], active := Some(s.queue[0]))
    case Try(w, now, connected, after) => Tried(s, w, now, connected, after)
    case Wake(w) => Doing(s, w, Trying(s.workers[w].work.command, s.workers[w].work.attempt))
    case Drained(w, ok) =>
      var (c, attempt) := (s.workers[w].work.command, s.workers[w].work.attempt);
      if ok then Finished(s, w, c, true) else Doing(s, w, Waiting(c, attempt))
    case Die(w) =>
      s.(workers := s.workers - {w}, active := if s.workers[w].work.Idle? then s.active else None)
  }

  /** A run of attempted actions; one that is not enabled does nothing. */
  function After(s: State, run: seq<Action>): State {
    if run == [] then s
    else
      var t := After(s, run[..|run| - 1]);
      var a := run[|run| - 1];
      (if Enabled(t, a) then Next(t, a) else t).(steps := |run|)
  }

  predicate Fresh(s: State) {
    s == State(false, 0, None, map[], [], map[], None, map[], None, 0, 0, 0, {})
  }

  /** The action writes the command to the socket. */
  predicate Writes(s: State, a: Action, c: nat) {
    && a.Try? && Enabled(s, a) && a.connected
    && s.workers[a.worker].work.command == c
    && MayWrite(s, c, s.workers[a.worker].work.attempt, a.now)
  }
}
