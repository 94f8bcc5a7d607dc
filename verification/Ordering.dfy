/**
  The order of what happens on the wire: a connection is only established by the whole script
  of its kind, and every write is answered or given up before anything else is sent.
 */
module Ordering {
  import opened ErrorCodes
  import opened Transports
  import opened Protocol
  import opened Invariants
  import opened Moves

  // ---------------------------------------------------------------- what an entry may follow

  predicate Ends(log: seq<Wire>, w: Wire) {
    log != [] && log[|log| - 1] == w
  }

  predicate Writing(log: seq<Wire>) {
    log != [] && log[|log| - 1].Written?
  }

  predicate EndsFailed(log: seq<Wire>, conn: nat, id: nat, code: Code) {
    && log != [] && log[|log| - 1].ExchangeFailed?
    && log[|log| - 1].conn == conn && log[|log| - 1].id == id && log[|log| - 1].code == code
  }

  /** `log` ends with the write of request `id` on connection `conn`. */
  predicate EndsWritten(log: seq<Wire>, conn: nat, id: nat) {
    Writing(log) && log[|log| - 1].conn == conn && log[|log| - 1].id == id
  }

  /** What must stand directly before an entry. */
  predicate Precedes(cfg: Config, log: seq<Wire>, w: Wire) {
    match w
    case ConnectBegun(_, _) => true
    case Resolved(c) => log != [] && log[|log| - 1].ConnectBegun? && log[|log| - 1].conn == c
    case Dialed(c) => Ends(log, Resolved(c))
    case ConnectSent(c, host) => cfg.kind == Tunnel && host == cfg.host && Ends(log, Dialed(c))
    case ProxyAccepted(c) => Ends(log, ConnectSent(c, cfg.host))
    case HandshakeBegun(c) => cfg.kind != Tcp && Ends(log, if cfg.kind == Ssl then Dialed(c) else ProxyAccepted(c))
    case Established(c) => Ends(log, if cfg.kind == Tcp then Dialed(c) else HandshakeBegun(c))
    case ConnectFailed(_, _, _, _) => true
    case Written(_, _, _) => true
    case Answered(c, gen, id, _) => Ends(log, Written(c, gen, id))
    case ExchangeFailed(c, _, id, _) => EndsWritten(log, c, id)
    case ExchangeRefused(c, _, id) => EndsWritten(log, c, id)
  }

  /** ... and what must stand directly after a write. */
  predicate InOrder(cfg: Config, log: seq<Wire>, w: Wire) {
    Precedes(cfg, log, w) && (Writing(log) ==> w.Answered? || w.ExchangeFailed? || w.ExchangeRefused?)
  }

  predicate AllInOrder(cfg: Config, log: seq<Wire>) {
    log == [] ||
    (AllInOrder(cfg, log[..|log| - 1]) && InOrder(cfg, log[..|log| - 1], log[|log| - 1]))
  }

  lemma AppendInOrder(cfg: Config, log: seq<Wire>, w: Wire)
    requires AllInOrder(cfg, log) && InOrder(cfg, log, w)
    ensures AllInOrder(cfg, log + [w])
  {
    assert (log + [w])[..|log|] == log;
  }

  lemma {:induction false} EntryInOrder(cfg: Config, log: seq<Wire>, k: nat)
    requires AllInOrder(cfg, log) && k < |log|
    ensures InOrder(cfg, log[..k], log[k])
  {
    if k < |log| - 1 {
      EntryInOrder(cfg, log[..|log| - 1], k);
      assert log[..|log| - 1][..k] == log[..k];
    }
  }

  // ---------------------------------------------------------------- how the log ends

  predicate BusyTail(l: Link, w: Wait, live: bool, op: Op) {
    match w
    case Resolve => l.wire != [] && l.wire[|l.wire| - 1].ConnectBegun? && l.wire[|l.wire| - 1].conn == l.conn
    case Dial => Ends(l.wire, Resolved(l.conn))
    case ProxyWrite => Ends(l.wire, ConnectSent(l.conn, l.cfg.host))
    case ProxyRead => Ends(l.wire, ConnectSent(l.conn, l.cfg.host))
    case Handshake => Ends(l.wire, HandshakeBegun(l.conn))
    case ExWrite => EndsWritten(l.wire, l.conn, op.task) && (live ==> l.wire[|l.wire| - 1].gen == l.gen)
    case ExRead => EndsWritten(l.wire, l.conn, op.task) && (live ==> l.wire[|l.wire| - 1].gen == l.gen)
    case Shutdown => CloseTail(l, live, op)
    case ClosePosted => CloseTail(l, live, op)
  }

  predicate CloseTail(l: Link, live: bool, op: Op) {
    !Writing(l.wire) && (live ==> EndsFailed(l.wire, l.conn, op.task, op.lastEc))
  }

  predicate EndTail(l: Link, live: bool, p: Progress, op: Op) {
    match p
    case Pending(_) => false
    case Connected(ec) =>
      if ec == Ok then Ends(l.wire, Established(l.conn))
      else
        && l.wire != [] && l.wire[|l.wire| - 1].ConnectFailed? && l.wire[|l.wire| - 1].conn == l.conn
        && l.wire[|l.wire| - 1].id == op.task && l.wire[|l.wire| - 1].code == ec
    case Exchanged(ec) =>
      if ec == Ok then l.wire != [] && l.wire[|l.wire| - 1].Answered? && l.wire[|l.wire| - 1].id == op.task
      else
        || EndsFailed(l.wire, l.conn, op.task, ec)
        || (ec == Aborted && l.wire != [] && l.wire[|l.wire| - 1].ExchangeRefused?)
    case Closed(_) => CloseTail(l, live, op)
  }

  /** How the log ends, by what the driver is doing. */
  predicate Tail(l: Link, st: Status, live: bool) {
    match st
    case Idle => !Writing(l.wire)
    case Busy(w, op) => BusyTail(l, w, live, op)
    case Ended(p, op) => EndTail(l, live, p, op)
    case Retrying(op) => CloseTail(l, live, op)
  }

  predicate Ordered(v: View) {
    AllInOrder(v.l.cfg, v.l.wire) && Tail(v.l, v.st, v.live)
  }

  // ---------------------------------------------------------------- the operations keep the order

  function After(p: Progress, op: Op): Status {
    if p.Pending? then Busy(p.wait, op) else Ended(p, op)
  }

  predicate OrderedAfter(r: (Link, Progress), live: bool, op: Op) {
    AllInOrder(r.0.cfg, r.0.wire) && Tail(r.0, After(r.1, op), live)
  }

  lemma FailOrdered(l: Link, live: bool, op: Op, phase: Phase, code: Code)
    requires AllInOrder(l.cfg, l.wire) && !Writing(l.wire) && code != Ok
    ensures OrderedAfter(ConnectFail(l, op.task, phase, code), live, op)
  {
    AppendInOrder(l.cfg, l.wire, ConnectFailed(l.conn, op.task, phase, code));
  }

  lemma DoneOrdered(l: Link, live: bool, op: Op)
    requires AllInOrder(l.cfg, l.wire) && Ends(l.wire, if l.cfg.kind == Tcp then Dialed(l.conn) else HandshakeBegun(l.conn))
    ensures OrderedAfter(ConnectDone(l), live, op)
  {
    AppendInOrder(l.cfg, l.wire, Established(l.conn));
  }

  lemma GreetOrdered(l: Link, live: bool, op: Op)
    requires AllInOrder(l.cfg, l.wire) && l.cfg.kind != Tcp
    requires Ends(l.wire, if l.cfg.kind == Ssl then Dialed(l.conn) else ProxyAccepted(l.conn))
    ensures OrderedAfter(HandshakeBegin(l), live, op)
  {
    AppendInOrder(l.cfg, l.wire, HandshakeBegun(l.conn));
  }

  lemma DialOrdered(l: Link, live: bool, op: Op, net: Net)
    requires AllInOrder(l.cfg, l.wire) && BusyTail(l, Resolve, live, op)
    ensures OrderedAfter(OnResolve(l, op.task, net), live, op)
  {
    if net.code != Ok {
      FailOrdered(Disarmed(l), live, op, Resolving, net.code);
    } else {
      AppendInOrder(l.cfg, l.wire, Resolved(l.conn));
      var u := Log(l, Resolved(l.conn));
      if l.cfg.kind != Tcp && net.setup != Ok {
        FailOrdered(if l.cfg.kind == Ssl then Disarmed(u) else u, live, op, NamingHost, net.setup);
      }
    }
  }

  lemma DialedOrdered(l: Link, live: bool, op: Op, net: Net)
    requires AllInOrder(l.cfg, l.wire) && BusyTail(l, Dial, live, op) && net.code == Ok
    ensures OrderedAfter(OnDial(l, op.task, net), live, op)
  {
    var u := Log(l, Dialed(l.conn));
    AppendInOrder(l.cfg, l.wire, Dialed(l.conn));
    match l.cfg.kind
    case Tcp => DoneOrdered(u, live, op);
    case Ssl =>
      if net.setup != Ok {
        FailOrdered(Disarmed(u), live, op, Tuning, net.setup);
      } else {
        GreetOrdered(u, live, op);
      }
    case Tunnel => AppendInOrder(l.cfg, u.wire, ConnectSent(l.conn, l.cfg.host));
  }

  lemma ProxiedOrdered(l: Link, live: bool, op: Op, net: Net)
    requires AllInOrder(l.cfg, l.wire) && BusyTail(l, ProxyRead, live, op) && Plausible(l, net) && l.cfg.kind == Tunnel
    ensures OrderedAfter(OnProxyRead(l, op.task, net), live, op)
  {
    var u := l.(buffer := Filled(l, true, net.received)[net.consumed..]);
    if net.code != Ok || !net.welcome {
      FailOrdered(Disarmed(u), live, op, Proxying, if net.code != Ok then net.code else Refused);
    } else {
      AppendInOrder(l.cfg, l.wire, ProxyAccepted(l.conn));
      GreetOrdered(Log(u, ProxyAccepted(l.conn)), live, op);
    }
  }

  lemma ConnectOrdered(l: Link, w: Wait, live: bool, op: Op, net: Net)
    requires AllInOrder(l.cfg, l.wire) && BusyTail(l, w, live, op) && Plausible(l, net) && WaitFits(l.cfg.kind, w)
    requires w.IsConnect()
    ensures OrderedAfter(Continue(l, w, op.task, net), live, op)
  {
    match w
    case Resolve => DialOrdered(l, live, op, net);
    case Dial =>
      if net.code != Ok {
        FailOrdered(Disarmed(l.(open := l.open && net.keepsOpen)), live, op, Dialing, net.code);
      } else {
        DialedOrdered(l, live, op, net);
      }
    case ProxyWrite =>
      if net.code != Ok {
        FailOrdered(Disarmed(l), live, op, Proxying, net.code);
      }
    case ProxyRead => ProxiedOrdered(l, live, op, net);
    case Handshake =>
      if net.code != Ok {
        FailOrdered(Disarmed(l), live, op, Greeting, net.code);
      } else {
        DoneOrdered(l, live, op);
      }
  }

  lemma SettleOrdered(l: Link, live: bool, op: Op, w: Wire, ec: Code)
    requires AllInOrder(l.cfg, l.wire) && EndsWritten(l.wire, l.conn, op.task)
    requires live ==> l.wire[|l.wire| - 1].gen == l.gen
    requires match w
             case ExchangeFailed(c, g, id, code) => c == l.conn && id == op.task && code == ec && ec != Ok
             case ExchangeRefused(c, g, id) => c == l.conn && id == op.task && ec == Aborted
             case Answered(c, g, id, _) => live && c == l.conn && g == l.gen && id == op.task && ec == Ok
             case _ => false
    ensures OrderedAfter((Log(l, w), Exchanged(ec)), live, op)
  {
    AppendInOrder(l.cfg, l.wire, w);
  }

  lemma ExchangeOrdered(l: Link, w: Wait, live: bool, op: Op, net: Net)
    requires AllInOrder(l.cfg, l.wire) && BusyTail(l, w, live, op) && Plausible(l, net) && w.IsExchange()
    requires l.running ==> live
    ensures OrderedAfter(Continue(l, w, op.task, net), live, op)
  {
    var all := Filled(l, false, net.received);
    var u := Disarmed(if w.ExRead? then l.(buffer := all[net.consumed..]) else l);
    if net.code != Ok {
      SettleOrdered(u, live, op, ExchangeFailed(l.conn, l.gen, op.task, net.code), net.code);
    } else if !l.running {
      SettleOrdered(u, live, op, ExchangeRefused(l.conn, l.gen, op.task), Aborted);
    } else if w.ExRead? {
      var body := all[..net.consumed];
      SettleOrdered(u.(responses := l.responses[op.task := body]), live, op,
                    Answered(l.conn, l.gen, op.task, body), Ok);
    }
  }

  lemma ContinueOrdered(l: Link, w: Wait, live: bool, op: Op, net: Net)
    requires AllInOrder(l.cfg, l.wire) && BusyTail(l, w, live, op) && Plausible(l, net) && WaitFits(l.cfg.kind, w)
    requires l.running ==> live
    ensures OrderedAfter(Continue(l, w, op.task, net), live, op)
  {
    if w.IsConnect() {
      ConnectOrdered(l, w, live, op, net);
    } else if w.IsExchange() {
      ExchangeOrdered(l, w, live, op, net);
    }
  }

  lemma StartOrdered(v: View, m: Move)
    requires Ordered(v) && Can(v, m) && (m.Connect? || m.Exchange?)
    ensures Ordered(Apply(v, m))
  {
    var u := ConnectBegin(v.l);
    AppendInOrder(v.l.cfg, v.l.wire,
                  if m.Connect? then ConnectBegun(u.conn, u.gen) else Written(v.l.conn, v.l.gen, m.op.task));
  }

  lemma HearOrdered(v: View, net: Net)
    requires Ordered(v) && Can(v, Hear(net))
    ensures Ordered(Apply(v, Hear(net)))
  {
    if v.st.w.OnStream(v.l.cfg.kind) && v.l.expired {
      ContinueOrdered(v.l.(expired := false), v.st.w, v.live, v.st.op, net.(code := StreamTimeout));
    } else {
      ContinueOrdered(v.l, v.st.w, v.live, v.st.op, net);
    }
  }

  /** The order only looks at the log, the attempt, and for a live session the stream. */
  lemma Untouched(v: View, u: View)
    requires Ordered(v) && u.st == v.st && u.l.cfg == v.l.cfg && u.l.wire == v.l.wire && u.l.conn == v.l.conn
    requires u.live ==> v.live && u.l.gen == v.l.gen
    ensures Ordered(u)
  {
  }

  lemma DecideOrdered(v: View, m: Move)
    requires Ordered(v) && Can(v, m) && (m.Close? || m.Again? || m.Finish? || m.GiveUp?)
    ensures Ordered(Apply(v, m))
  {
  }

  /** A stop's close leaves the log and the responses alone. */
  lemma StopHearsLittle(v: View, m: Move)
    requires Can(v, m) && m.StopHears?
    ensures var l := Apply(v, m).l; l.wire == v.l.wire && l.responses == v.l.responses && l.cfg == v.l.cfg
  {
    match m.w
    case Shutdown =>
    case ClosePosted =>
  }

  lemma OrderedKept()
    ensures Kept(Ordered)
  {
    forall v, m | Ordered(v) && Can(v, m) ensures Ordered(Apply(v, m)) {
      MoveOrdered(v, m);
    }
  }

  lemma MoveOrdered(v: View, m: Move)
    requires Ordered(v) && Can(v, m)
    ensures Ordered(Apply(v, m))
  {
    if m.Connect? || m.Exchange? {
      StartOrdered(v, m);
    } else if m.Hear? {
      HearOrdered(v, m.net);
    } else if m.Close? || m.Again? || m.Finish? || m.GiveUp? {
      DecideOrdered(v, m);
    } else {
      Untouched(v, Apply(v, m));
    }
  }
}
