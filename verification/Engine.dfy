/**
  The objects of the library, updated in place, against the state machine.

  `AsyncTransport` is one of the transports, `Session` a session with its task queue. Every
  method leaves behind exactly the value that the function of the same name computes, so what
  is proved of the functions holds of the objects.
 */
module Engine {
  import opened ErrorCodes
  import opened Transports
  import opened Protocol
  import opened Invariants
  import opened Runs
  import opened Outcomes
  import opened Theorems
  import opened Refinement

  class AsyncTransport {
    const cfg: Config
    var running: bool
    var gen: nat
    var conn: nat
    var open: bool
    var armed: bool
    var expired: bool
    var buffer: seq<Byte>
    var responses: map<nat, seq<Byte>>
    var wire: seq<Wire>

    ghost function Now(): Link
      reads this
    {
      Link(cfg, running, gen, conn, open, armed, expired, buffer, responses, wire)
    }

    constructor (cfg: Config)
      ensures Now() == NewLink(cfg)
    {
      this.cfg := cfg;
      running, gen, conn, open, armed, expired := true, 0, 0, false, false, false;
      buffer, responses, wire := [], map[], [];
    }

    method Note(w: Wire)
      modifies this`wire
      ensures wire == old(wire) + [w]
    {
      wire := wire + [w];
    }

    method SetupTimer()
      modifies this`armed
      ensures armed
    {
      armed := true;
    }

    method CancelTimer()
      modifies this`armed
      ensures !armed
    {
      armed := false;
    }

    /** A new stream object has a closed socket and no timer. */
    method Reset()
      modifies this
      ensures Now() == Renewed(old(Now()))
    {
      buffer := [];
      gen, open, armed, expired := gen + 1, false, false, false;
    }

    method AsyncConnect()
      modifies this
      ensures Now() == ConnectBegin(old(Now()))
    {
      if cfg.kind != Tunnel && !running {
        Reset();
      }
      running := true;
      SetupTimer();
      conn := conn + 1;
      Note(ConnectBegun(conn, gen));
    }

    method FailConnect(id: nat, phase: Phase, code: Code) returns (p: Progress)
      modifies this`wire
      ensures (Now(), p) == ConnectFail(old(Now()), id, phase, code)
    {
      Note(ConnectFailed(conn, id, phase, code));
      p := Connected(code);
    }

    method ResolveDone(id: nat, net: Net) returns (p: Progress)
      modifies this
      ensures (Now(), p) == OnResolve(old(Now()), id, net)
    {
      if net.code != Ok {
        CancelTimer();
        p := FailConnect(id, Resolving, net.code);
        return;
      }
      Note(Resolved(conn));
      if cfg.kind != Tcp && net.setup != Ok {
        if cfg.kind == Ssl {
          CancelTimer();
        }
        p := FailConnect(id, NamingHost, net.setup);
        return;
      }
      open := true;
      p := Pending(Dial);
    }

    method DialDone(id: nat, net: Net) returns (p: Progress)
      modifies this
      ensures (Now(), p) == OnDial(old(Now()), id, net)
    {
      if net.code != Ok {
        open := open && net.keepsOpen;
        CancelTimer();
        p := FailConnect(id, Dialing, net.code);
        return;
      }
      Note(Dialed(conn));
      match cfg.kind {
        case Tcp =>
          CancelTimer();
          Note(Established(conn));
          p := Connected(Ok);
        case Ssl =>
          if net.setup != Ok {
            CancelTimer();
            p := FailConnect(id, Tuning, net.setup);
          } else {
            Note(HandshakeBegun(conn));
            p := Pending(Handshake);
          }
        case Tunnel =>
          Note(ConnectSent(conn, cfg.host));
          p := Pending(ProxyWrite);
      }
    }

    /** The bytes that a read brings in are appended to the buffer. */
    method Receive(plain: bool, received: nat) returns (all: seq<Byte>)
      ensures all == Filled(Now(), plain, received)
    {
      var c := conn;
      all := buffer + seq(received, _ => Byte(c, plain));
    }

    method ProxyWriteDone(id: nat, net: Net) returns (p: Progress)
      modifies this
      ensures (Now(), p) == OnProxyWrite(old(Now()), id, net)
    {
      if net.code != Ok {
        CancelTimer();
        p := FailConnect(id, Proxying, net.code);
      } else {
        p := Pending(ProxyRead);
      }
    }

    method ProxyReadDone(id: nat, net: Net) returns (p: Progress)
      requires Plausible(Now(), net)
      modifies this
      ensures (Now(), p) == OnProxyRead(old(Now()), id, net)
    {
      var all := Receive(true, net.received);
      buffer := all[net.consumed..];
      if net.code != Ok {
        CancelTimer();
        p := FailConnect(id, Proxying, net.code);
      } else if !net.welcome {
        CancelTimer();
        p := FailConnect(id, Proxying, Refused);
      } else {
        Note(ProxyAccepted(conn));
        Note(HandshakeBegun(conn));
        p := Pending(Handshake);
      }
    }

    method HandshakeDone(id: nat, net: Net) returns (p: Progress)
      modifies this
      ensures (Now(), p) == OnHandshake(old(Now()), id, net)
    {
      CancelTimer();
      if net.code != Ok {
        p := FailConnect(id, Greeting, net.code);
      } else {
        Note(Established(conn));
        p := Connected(Ok);
      }
    }

    method AsyncProcessOne(id: nat) returns (p: Progress)
      modifies this
      ensures (Now(), p) == ExchangeBegin(old(Now()), id)
    {
      if !running {
        CancelTimer();
        Note(ExchangeRefused(conn, gen, id));
        p := Exchanged(Aborted);
      } else {
        SetupTimer();
        Note(Written(conn, gen, id));
        p := Pending(ExWrite);
      }
    }

    /** The common head of `transport_op` when it is resumed: it stops on an error, and when
        the transport has been closed in the meantime. */
    method ExchangeGoesOn(id: nat, net: Net) returns (on: bool, p: Progress)
      modifies this
      ensures on <==> net.code == Ok && old(running)
      ensures on ==> Now() == old(Now())
      ensures !on ==>
                (Now(), p) == if net.code != Ok then ExchangeFail(old(Now()), id, net.code) else ExchangeRefuse(old(Now()), id)
    {
      on, p := true, Exchanged(Aborted);
      if net.code != Ok {
        CancelTimer();
        Note(ExchangeFailed(conn, gen, id, net.code));
        on, p := false, Exchanged(net.code);
      } else if !running {
        CancelTimer();
        Note(ExchangeRefused(conn, gen, id));
        on := false;
      }
    }

    method WriteDone(id: nat, net: Net) returns (p: Progress)
      modifies this
      ensures (Now(), p) == OnExWrite(old(Now()), id, net)
    {
      var on;
      on, p := ExchangeGoesOn(id, net);
      if on {
        p := Pending(ExRead);
      }
    }

    method ReadDone(id: nat, net: Net) returns (p: Progress)
      requires Plausible(Now(), net)
      modifies this
      ensures (Now(), p) == OnExRead(old(Now()), id, net)
    {
      var all := Receive(false, net.received);
      buffer := all[net.consumed..];
      var on;
      on, p := ExchangeGoesOn(id, net);
      if on {
        var body := all[..net.consumed];
        responses := responses[id := body];
        CancelTimer();
        Note(Answered(conn, gen, id, body));
        p := Exchanged(Ok);
      }
    }

    method AsyncClose(graceful: bool) returns (p: Progress)
      modifies this
      ensures (Now(), p) == CloseBegin(old(Now()), graceful)
    {
      running := false;
      SetupTimer();
      if open {
        if graceful {
          p := Pending(Shutdown);
          return;
        }
      } else {
        p := Pending(ClosePosted);
        return;
      }
      p := CloseFinish(Ok);
    }

    method CloseFinish(code: Code) returns (p: Progress)
      modifies this
      ensures (Now(), p) == CloseDone(old(Now()), code)
    {
      CancelTimer();
      if cfg.kind == Tunnel {
        Reset();
      }
      p := Closed(code);
    }

    /** `async_ssl_close_op` and `async_tcp_close_op`. */
    method ShutdownDone(net: Net) returns (p: Progress)
      modifies this
      ensures (Now(), p) == OnShutdown(old(Now()), net)
    {
      var ec := Ok;
      if cfg.kind != Tcp {
        ec := net.code;
        if ec == Eof {
          ec := Ok;
        } else if ec == Truncated {
          ec := Ok;
        } else if ec == Unspecified {
          ec := Ok;
        } else if ec == Aborted {
          ec := Ok;
        }
      }
      open := false;
      p := CloseFinish(ec);
    }

    /** The handler of a waiting operation runs. */
    method Resume(w: Wait, id: nat, answer: Net) returns (p: Progress)
      requires Plausible(Now(), answer)
      modifies this
      ensures (Now(), p) == Deliver(old(Now()), w, id, answer)
    {
      var net := answer;
      if w.OnStream(cfg.kind) && expired {
        expired := false;
        net := net.(code := StreamTimeout);
      }
      match w {
        case Resolve => p := ResolveDone(id, net);
        case Dial => p := DialDone(id, net);
        case ProxyWrite => p := ProxyWriteDone(id, net);
        case ProxyRead => p := ProxyReadDone(id, net);
        case Handshake => p := HandshakeDone(id, net);
        case ExWrite => p := WriteDone(id, net);
        case ExRead => p := ReadDone(id, net);
        case Shutdown => p := ShutdownDone(net);
        case ClosePosted => p := CloseFinish(Ok);
      }
    }

    method TimerExpires()
      modifies this
      ensures Now() == old(Now()).(open := false, expired := true)
    {
      open, expired := false, true;
    }
  }

  class Session {
    const transport: AsyncTransport
    var running: bool
    var tasks: seq<nat>
    var posted: seq<Event>
    var stop: StopState
    var stopPosted: seq<Wait>
    var completions: seq<Completion>
    var reports: seq<Report>
    var nextId: nat
    var accepted: seq<nat>
    var stops: nat

    ghost function Now(): State
      reads this, transport
    {
      State(running, tasks, posted, stop, stopPosted, transport.Now(), completions, reports, nextId, accepted, stops)
    }

    /** The object has got here by a run of the state machine. */
    ghost predicate Valid()
      reads this, transport
    {
      Reachable(transport.cfg, Now())
    }

    constructor (cfg: Config)
      ensures fresh(transport) && Now() == Init(cfg) && Valid()
    {
      transport := new AsyncTransport(cfg);
      running, tasks, posted, stop, stopPosted := true, [], [], NoStop, [];
      completions, reports, nextId, accepted, stops := [], [], 0, [], 0;
      new;
      Reach(cfg);
    }

    method PostEvent(e: Event)
      modifies this`posted
      ensures Now() == Post(old(Now()), e)
    {
      posted := posted + [e];
    }

    // -------------------------------------------------------------- process_queue_op

    method CompleteTask(id: nat, code: Code)
      modifies this
      ensures Now() == Complete(old(Now()), id, code)
    {
      completions := completions + [Completion(id, code, true, |transport.wire|)];
      PostEvent(AdvanceTask);
    }

    method Run(op: Op)
      modifies this, transport
      ensures Now() == OpRun(old(Now()), op)
    {
      if !running {
        CompleteTask(op.task, Aborted);
        return;
      }
      if !transport.open {
        transport.AsyncConnect();
        PostEvent(Await(Resolve, op));
        return;
      }
      ProcessOne(op);
    }

    method ProcessOne(op: Op)
      modifies this, transport
      ensures Now() == OpExchange(old(Now()), op)
    {
      var p := transport.AsyncProcessOne(op.task);
      if p.Pending? {
        PostEvent(Await(p.wait, op));
      } else {
        OnExchanged(op, p.ec);
      }
    }

    method OnConnected(op: Op, ec: Code)
      modifies this, transport
      ensures Now() == OpConnected(old(Now()), op, ec)
    {
      if !running || ec == Aborted {
        CompleteTask(op.task, Aborted);
        return;
      }
      if ec != Ok {
        running := false;
        CompleteTask(op.task, ec);
        return;
      }
      ProcessOne(op);
    }

    method OnExchanged(op: Op, ec: Code)
      modifies this, transport
      ensures Now() == OpExchanged(old(Now()), op, ec)
    {
      if !running || ec == Aborted {
        CompleteTask(op.task, Aborted);
        return;
      }
      if ec != Ok {
        var p := transport.AsyncClose(true);
        PostEvent(Await(p.wait, op.(lastEc := ec)));
        return;
      }
      CompleteTask(op.task, Ok);
    }

    method OnClosed(op: Op, ec: Code)
      modifies this
      ensures Now() == OpClosed(old(Now()), op, ec)
    {
      if !running || ec == Aborted {
        CompleteTask(op.task, Aborted);
        return;
      }
      if op.firstRound {
        PostEvent(Retry(op.(firstRound := false)));
        return;
      }
      running := false;
      CompleteTask(op.task, op.lastEc);
    }

    method OnProgress(op: Op, p: Progress)
      modifies this, transport
      ensures Now() == OpSettle(old(Now()), op, p)
    {
      match p {
        case Pending(w) => PostEvent(Await(w, op));
        case Connected(ec) => OnConnected(op, ec);
        case Exchanged(ec) => OnExchanged(op, ec);
        case Closed(ec) => OnClosed(op, ec);
      }
    }

    // -------------------------------------------------------------- session_base

    method ProcessFront()
      modifies this, transport
      ensures Now() == RunFront(old(Now()))
    {
      if |tasks| > 0 {
        Run(Op(tasks[0], true, Ok));
      }
    }

    /** The source asserts that there is a task. */
    method PopTask()
      requires tasks != []
      modifies this`tasks
      ensures tasks == old(tasks)[1..]
    {
      tasks := tasks[1..];
    }

    method CancelAllTasks()
      modifies this
      ensures Now() == CancelAll(old(Now()))
    {
      ghost var k := 0;
      while |tasks| > 0
        invariant k <= |old(tasks)| && tasks == old(tasks)[k..]
        invariant completions == old(completions) + Cancelled(old(tasks)[..k], |transport.wire|)
        invariant Now() == old(Now()).(tasks := tasks, completions := completions)
        decreases |tasks|
      {
        completions := completions + [Completion(tasks[0], Aborted, true, |transport.wire|)];
        PopTask();
        k := k + 1;
      }
      assert old(tasks)[..k] == old(tasks);
      if stop == Waiting {
        stop := WaitCancelled;
      }
    }

    method Next()
      requires tasks != []
      modifies this, transport
      ensures Now() == Advance(old(Now()))
    {
      PopTask();
      if running {
        ProcessFront();
      } else {
        CancelAllTasks();
      }
    }

    method Push()
      modifies this
      ensures Now() == PushRequest(old(Now()))
    {
      var id := nextId;
      nextId := nextId + 1;
      if !running {
        completions := completions + [Completion(id, Aborted, false, |transport.wire|)];
        return;
      }
      tasks := tasks + [id];
      accepted := accepted + [id];
      if |tasks| == 1 {
        PostEvent(ProcessTask);
      }
    }

    // -------------------------------------------------------------- stop_op

    method AsyncStop(graceful: bool)
      modifies this, transport
      ensures Now() == StopBegin(old(Now()), graceful)
    {
      running := false;
      stop := Closing;
      stops := stops + 1;
      var p := transport.AsyncClose(graceful);
      OnStopProgress(p);
    }

    method OnStopProgress(p: Progress)
      modifies this
      ensures Now() == StopSettle(old(Now()), p)
    {
      if p.Pending? {
        stopPosted := stopPosted + [p.wait];
      } else if |tasks| > 0 {
        stop := Waiting;
      } else {
        FinishStop(p.ec, false);
      }
    }

    method FinishStop(code: Code, waited: bool)
      modifies this
      ensures Now() == StopReport(old(Now()), code, waited)
    {
      stop := NoStop;
      reports := reports + [Report(code, waited)];
    }

    /** What the stop makes of the result of its wait. */
    method WakeStop()
      modifies this
      ensures Now() == StopReport(old(Now()), if old(stop) == WaitCancelled then Ok else TimedOut, true)
    {
      var ec := if stop == WaitCancelled then Aborted else Ok;
      if ec == Aborted {
        ec := Ok;
      } else if ec == Ok {
        ec := TimedOut;
      }
      FinishStop(ec, true);
    }

    // -------------------------------------------------------------- one step on the strand

    method Take(i: nat) returns (e: Event)
      requires i < |posted|
      modifies this`posted
      ensures e == old(posted)[i] && posted == Without(old(posted), i)
    {
      e := posted[i];
      posted := posted[..i] + posted[i + 1..];
    }

    method Deliver(i: nat, net: Net)
      requires Inv(Now()) && Enabled(Now(), Fire(i, net))
      modifies this, transport
      ensures Now() == Step(old(Now()), Fire(i, net))
    {
      var e := Take(i);
      match e {
        case ProcessTask => ProcessFront();
        case AdvanceTask => Next();
        case Retry(op) => Run(op);
        case Await(w, op) =>
          var p := transport.Resume(w, op.task, net);
          OnProgress(op, p);
      }
    }

    method DeliverStop(i: nat, net: Net)
      requires Enabled(Now(), FireStop(i, net))
      modifies this, transport
      ensures Now() == Step(old(Now()), FireStop(i, net))
    {
      var w := stopPosted[i];
      stopPosted := stopPosted[..i] + stopPosted[i + 1..];
      var p := transport.Resume(w, 0, net);
      OnStopProgress(p);
    }

    /** One handler runs to its end. No assertion of the source fails, the state is the one of
        the state machine, and the object is still in one of its runs. */
    method Handle(a: Action)
      requires Valid() && Enabled(Now(), a)
      modifies this, transport
      ensures Now() == Step(old(Now()), a) && Valid() && Inv(Now())
    {
      ghost var s := Now();
      ReachableInv(transport.cfg, s);
      match a {
        case Push => Push();
        case Stop(graceful) => AsyncStop(graceful);
        case Fire(i, net) => Deliver(i, net);
        case FireStop(i, net) => DeliverStop(i, net);
        case StreamTimer => transport.TimerExpires();
        case WaitExpires => stop := WaitExpired;
        case StopWakes => WakeStop();
      }
      StepKeeps(s, a);
      ReachOn(transport.cfg, s, a);
    }
  }

  lemma ReachableInv(cfg: Config, s: State)
    requires Reachable(cfg, s)
    ensures Inv(s)
  {
    var tr, acts :| IsRun(cfg, tr, acts) && tr[|tr| - 1] == s;
    InvAlways(cfg, tr, acts, |tr| - 1);
  }

  /** What holds over whole runs, of a session object whatever handlers have run on it: the
      queue is driven, accepted requests complete in order and once, every completion is
      justified by what went over the wire, no request was written more than twice, and the
      guard of an exchange has refused nothing while the session runs. */
  lemma SessionLaws(o: Session)
    requires o.Valid()
    ensures |o.posted| == (if o.tasks == [] then 0 else 1)
    ensures o.accepted == Done(o.completions) + ServerOf(o.Now()).waiting
    ensures forall c | c in o.completions :: Justified(o.transport.wire, c)
    ensures forall id: nat :: Writes(o.transport.wire, id) <= 2
    ensures o.running ==> NoneRefused(o.transport.wire)
  {
    var cfg, s := o.transport.cfg, o.Now();
    var tr, acts :| IsRun(cfg, tr, acts) && tr[|tr| - 1] == s;
    var n := |tr| - 1;
    OneDriver(cfg, tr, acts, n);
    ExactlyOnceInOrder(cfg, tr, acts, n);
    forall c | c in o.completions ensures Justified(o.transport.wire, c) {
      OutcomeIsTrue(cfg, tr, acts, n, c);
    }
    forall id: nat ensures Writes(o.transport.wire, id) <= 2 {
      WrittenAtMostTwice(cfg, tr, acts, n, id);
    }
    if o.running {
      FlagsAgree(cfg, tr, acts, n);
    }
  }
}
