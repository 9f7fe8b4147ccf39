/** The codec as a state machine: what its three calls do to the buffer and to the fragment timer, as a
    function of the bytes and the clock readings they are given. */
module CodecState {
  import opened Bytes
  import opened Wrappers
  import opened Scanner
  import opened CodecStep

  type Time = real

  const MIN_ASSEMBLY_TIMEOUT: Time := 30.0

  predicate Expired(fragmentStarted: Option<Time>, timeout: Time, now: Time) {
    fragmentStarted.Some? && now - fragmentStarted.value >= timeout
  }

  /** The fragment timer after a feed: off without a fragment, restarted by every emitted frame, and
      otherwise kept. */
  function NextTimer(before: Option<Time>, emitted: bool, rest: bytes, now: Time): Option<Time> {
    if rest == [] then None
    else if emitted || before.None? then Some(now)
    else before
  }

  datatype State = State(buf: bytes, fragmentStarted: Option<Time>)

  /** What may happen to a codec between its construction and now, with the clock readings. */
  datatype Event = Fed(data: bytes, entered: Time, finished: Time) | Polled(now: Time) | Reset

  function Polling(timeout: Time, s: State, now: Time): (State, seq<Segment<KsFrame>>) {
    if Expired(s.fragmentStarted, timeout, now) then (State([], None), [Lost(s.buf)]) else (s, [])
  }

  /** The effect of one call on the state, and the pieces of input it dealt with. `Feed`,
      `ExpirePartialFrame` and `ResetStream` have exactly this effect. */
  function Effect(cfg: Config, timeout: Time, s: State, e: Event): (State, seq<Segment<KsFrame>>) {
    match e
    case Reset => (State([], None), [Lost(s.buf)])
    case Polled(now) => Polling(timeout, s, now)
    case Fed(data, entered, finished) =>
      var (t, lost) := Polling(timeout, s, entered);
      var r := Run(Stepper(cfg), t.buf + data);
      (State(r.rest, NextTimer(t.fragmentStarted, FramesOf(r.segments) != [], r.rest, finished)), lost + r.segments)
  }

  function After(cfg: Config, timeout: Time, s: State, events: seq<Event>): (State, seq<Segment<KsFrame>>)
    decreases |events|
  {
    if events == [] then (s, [])
    else
      var (t, cuts) := Effect(cfg, timeout, s, events[0]);
      var (u, later) := After(cfg, timeout, t, events[1..]);
      (u, cuts + later)
  }

  function Input(events: seq<Event>): bytes {
    if events == [] then []
    else (if events[0].Fed? then events[0].data else []) + Input(events[1..])
  }

  ghost predicate ValidState(cfg: Config, s: State) {
    && (s.buf == [] <==> s.fragmentStarted.None?)
    && (s.buf != [] ==> HeadStep(cfg, s.buf) == Wait)
  }

  /** Expired bytes yield no frame: a feed that finds the fragment expired emits what the new bytes alone give. */
  lemma FedFrames(cfg: Config, timeout: Time, s: State, data: bytes, entered: Time, finished: Time)
    ensures var (_, cuts) := Effect(cfg, timeout, s, Fed(data, entered, finished));
      FramesOf(cuts) == if Expired(s.fragmentStarted, timeout, entered) then FramesOf(Run(Stepper(cfg), data).segments)
                        else FramesOf(Run(Stepper(cfg), s.buf + data).segments)
  {
    var (t, lost) := Polling(timeout, s, entered);
    FramesOfConcat(lost, Run(Stepper(cfg), t.buf + data).segments);
    assert FramesOf(lost) == [];
    assert [] + data == data;
  }
}
