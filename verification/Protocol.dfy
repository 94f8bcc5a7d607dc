/**
  The session protocol as a state machine over its atomic steps.

  A step is one handler run on the session's strand: a push, the start of a stop, or the
  resumption of something that was posted or is waiting for the network. The environment
  picks which pending handler runs next and every result the network returns.
 */
module Protocol {
  import opened ErrorCodes
  import opened Transports

  /** The fields of `process_queue_op`; its coroutine position is the event it waits in. */
  datatype Op = Op(task: nat, firstRound: bool, lastEc: Code)

  /** Handlers of the task driver that are posted, or wait for a transport operation. */
  datatype Event =
    | ProcessTask
    | AdvanceTask
    | Retry(op: Op)              // the op posted again for its second round
    | Await(wait: Wait, op: Op)

  /** The stop op: closing the transport, or waiting on the session's timer. */
  datatype StopState = NoStop | Closing | Waiting | WaitExpired | WaitCancelled

  /** A posted completion handler; `at` is the length of the wire log at that moment. */
  datatype Completion = Completion(id: nat, code: Code, accepted: bool, at: nat)

  /** The result handed to a stop's handler, and whether the stop had to wait. */
  datatype Report = Report(code: Code, waited: bool)

  /** `posted` holds the pending handlers of the driver, `stopPosted` those of a stop;
      `accepted` and `stops` are history. */
  datatype State = State(
    running: bool,
    tasks: seq<nat>,
    posted: seq<Event>,
    stop: StopState,
    stopPosted: seq<Wait>,
    link: Link,
    completions: seq<Completion>,
    reports: seq<Report>,
    nextId: nat,
    accepted: seq<nat>,
    stops: nat)

  function Init(cfg: Config): State {
    State(true, [], [], NoStop, [], NewLink(cfg), [], [], 0, [], 0)
  }

  datatype Action =
    | Push
    | Stop(graceful: bool)
    | Fire(i: nat, net: Net)       // the i-th pending handler of the driver
    | FireStop(i: nat, net: Net)   // the i-th pending handler of the stop's close
    | StreamTimer                  // the stream's timer runs out
    | WaitExpires                  // the stop's timer runs out
    | StopWakes                    // the stop resumes from its wait

  // ---------------------------------------------------------------- the driver's op

  function Post(s: State, e: Event): State {
    s.(posted := s.posted + [e])
  }

  /** `process_queue_op::complete`: the handler and the advance are both posted. */
  function Complete(s: State, id: nat, code: Code): State {
    Post(s.(completions := s.completions + [Completion(id, code, true, |s.link.wire|)]), AdvanceTask)
  }

  /** The op entered at the top of its coroutine. */
  function OpRun(s: State, op: Op): State {
    if !s.running then Complete(s, op.task, Aborted)
    else if !s.link.open then Post(s.(link := ConnectBegin(s.link)), Await(Resolve, op))
    else OpExchange(s, op)
  }

  function OpExchange(s: State, op: Op): State {
    var (l, p) := ExchangeBegin(s.link, op.task);
    if p.Pending? then Post(s.(link := l), Await(p.wait, op))
    else OpExchanged(s.(link := l), op, p.ec)
  }

  function OpConnected(s: State, op: Op, ec: Code): State {
    if !s.running || ec == Aborted then Complete(s, op.task, Aborted)
    else if ec != Ok then Complete(s.(running := false), op.task, ec)
    else OpExchange(s, op)
  }

  /** The op closes gracefully, so its close always waits. */
  function OpExchanged(s: State, op: Op, ec: Code): State {
    if !s.running || ec == Aborted then Complete(s, op.task, Aborted)
    else if ec == Ok then Complete(s, op.task, Ok)
    else
      var (l, p) := CloseBegin(s.link, true);
      Post(s.(link := l), Await(p.wait, op.(lastEc := ec)))
  }

  function OpClosed(s: State, op: Op, ec: Code): State {
    if !s.running || ec == Aborted then Complete(s, op.task, Aborted)
    else if op.firstRound then Post(s, Retry(op.(firstRound := false)))
    else Complete(s.(running := false), op.task, op.lastEc)
  }

  /** The op hears from the transport operation it waited for. */
  function OpSettle(s: State, op: Op, p: Progress): State {
    match p
    case Pending(w) => Post(s, Await(w, op))
    case Connected(ec) => OpConnected(s, op, ec)
    case Exchanged(ec) => OpExchanged(s, op, ec)
    case Closed(ec) => OpClosed(s, op, ec)
  }

  // ---------------------------------------------------------------- the task queue

  /** `process_task`. */
  function RunFront(s: State): State {
    if s.tasks == [] then s else OpRun(s, Op(s.tasks[0], true, Ok))
  }

  function Cancelled(ids: seq<nat>, at: nat): (r: seq<Completion>)
    ensures |r| == |ids|
  {
    seq(|ids|, i requires 0 <= i < |ids| => Completion(ids[i], Aborted, true, at))
  }

  /** `cancel_all_tasks`: cancelling the timer wakes a stop that still waits on it. */
  function CancelAll(s: State): State {
    s.(completions := s.completions + Cancelled(s.tasks, |s.link.wire|),
       tasks := [],
       stop := if s.stop == Waiting then WaitCancelled else s.stop)
  }

  /** `advance_task`; the source asserts that there is a task to pop, so the empty case only
      makes the function total. */
  function Advance(s: State): State {
    if s.tasks == [] then s
    else
      var u := s.(tasks := s.tasks[1..]);
      if u.running then RunFront(u) else CancelAll(u)
  }

  function PushRequest(s: State): State {
    var id := s.nextId;
    var u := s.(nextId := id + 1);
    if !s.running then u.(completions := s.completions + [Completion(id, Aborted, false, |s.link.wire|)])
    else
      var v := u.(tasks := s.tasks + [id], accepted := s.accepted + [id]);
      if |v.tasks| == 1 then Post(v, ProcessTask) else v
  }

  // ---------------------------------------------------------------- stopping

  function StopBegin(s: State, graceful: bool): State {
    var (l, p) := CloseBegin(s.link, graceful);
    StopSettle(s.(running := false, stop := Closing, stops := s.stops + 1, link := l), p)
  }

  /** A stop only ever waits for a close. */
  function StopSettle(s: State, p: Progress): State {
    if p.Pending? then s.(stopPosted := s.stopPosted + [p.wait]) else StopClosed(s, p.ec)
  }

  function StopClosed(s: State, code: Code): State {
    if s.tasks != [] then s.(stop := Waiting) else StopReport(s, code, false)
  }

  function StopReport(s: State, code: Code, waited: bool): State {
    s.(stop := NoStop, reports := s.reports + [Report(code, waited)])
  }

  // ---------------------------------------------------------------- steps

  function Without<T>(q: seq<T>, i: nat): seq<T>
    requires i < |q|
  {
    q[..i] + q[i + 1..]
  }

  /** The handler `e` runs; it has already been taken off the pending list of `s`. */
  function Resume(s: State, e: Event, net: Net): State
    requires Plausible(s.link, net)
  {
    match e
    case ProcessTask => RunFront(s)
    case AdvanceTask => Advance(s)
    case Retry(op) => OpRun(s, op)
    case Await(w, op) =>
      var (l, p) := Deliver(s.link, w, op.task, net);
      OpSettle(s.(link := l), op, p)
  }

  function ResumeStop(s: State, w: Wait, net: Net): State
    requires Plausible(s.link, net)
  {
    var (l, p) := Deliver(s.link, w, 0, net);
    StopSettle(s.(link := l), p)
  }

  /** Some operation waits on the stream itself. */
  predicate StreamBusy(s: State) {
    (exists i | 0 <= i < |s.posted| :: s.posted[i].Await? && s.posted[i].wait.OnStream(s.link.cfg.kind)) ||
    (exists i | 0 <= i < |s.stopPosted| :: s.stopPosted[i].OnStream(s.link.cfg.kind))
  }

  predicate Enabled(s: State, a: Action) {
    match a
    case Push => true
    case Stop(_) => s.stop == NoStop
    case Fire(i, net) => i < |s.posted| && Plausible(s.link, net)
    case FireStop(i, net) => i < |s.stopPosted| && Plausible(s.link, net)
    case StreamTimer => s.link.armed && s.link.open && StreamBusy(s)
    case WaitExpires => s.stop == Waiting
    case StopWakes => s.stop == WaitExpired || s.stop == WaitCancelled
  }

  function Step(s: State, a: Action): State
    requires Enabled(s, a)
  {
    match a
    case Push => PushRequest(s)
    case Stop(graceful) => StopBegin(s, graceful)
    case Fire(i, net) => Resume(s.(posted := Without(s.posted, i)), s.posted[i], net)
    case FireStop(i, net) => ResumeStop(s.(stopPosted := Without(s.stopPosted, i)), s.stopPosted[i], net)
    case StreamTimer => s.(link := s.link.(open := false, expired := true))
    case WaitExpires => s.(stop := WaitExpired)
    case StopWakes => StopReport(s, if s.stop == WaitCancelled then Ok else TimedOut, true)
  }
}
