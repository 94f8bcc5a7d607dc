/**
  What a stream may still be used for: which generation a request is written on, and which
  bytes can end up in its response.
 */
module Streams {
  import opened ErrorCodes
  import opened Transports
  import opened Protocol
  import opened Invariants
  import opened Moves
  import opened Ordering

  // ---------------------------------------------------------------- what resuming logs

  /** What a connect that is under way can log. */
  predicate OfConnect(conn: nat, w: Wire) {
    && (w.Resolved? || w.Dialed? || w.ConnectSent? || w.ProxyAccepted? || w.HandshakeBegun? || w.Established? ||
        w.ConnectFailed?)
    && w.conn == conn
  }

  ghost predicate KeptByConnect(Q: seq<Wire> -> bool, conn: nat) {
    forall log, w | Q(log) && OfConnect(conn, w) :: Q(log + [w])
  }

  lemma LogOne(Q: seq<Wire> -> bool, conn: nat, log: seq<Wire>, w: Wire)
    requires KeptByConnect(Q, conn) && Q(log) && OfConnect(conn, w)
    ensures Q(log + [w])
  {
  }

  lemma ResolveLogs(Q: seq<Wire> -> bool, l: Link, id: nat, net: Net)
    requires KeptByConnect(Q, l.conn) && Q(l.wire)
    ensures Q(OnResolve(l, id, net).0.wire)
  {
    if net.code != Ok {
      LogOne(Q, l.conn, l.wire, ConnectFailed(l.conn, id, Resolving, net.code));
    } else {
      LogOne(Q, l.conn, l.wire, Resolved(l.conn));
      LogOne(Q, l.conn, l.wire + [Resolved(l.conn)], ConnectFailed(l.conn, id, NamingHost, net.setup));
    }
  }

  lemma DialLogs(Q: seq<Wire> -> bool, l: Link, id: nat, net: Net)
    requires KeptByConnect(Q, l.conn) && Q(l.wire)
    ensures Q(OnDial(l, id, net).0.wire)
  {
    if net.code != Ok {
      LogOne(Q, l.conn, l.wire, ConnectFailed(l.conn, id, Dialing, net.code));
    } else {
      var log := l.wire + [Dialed(l.conn)];
      LogOne(Q, l.conn, l.wire, Dialed(l.conn));
      LogOne(Q, l.conn, log, Established(l.conn));
      LogOne(Q, l.conn, log, HandshakeBegun(l.conn));
      LogOne(Q, l.conn, log, ConnectSent(l.conn, l.cfg.host));
      LogOne(Q, l.conn, log, ConnectFailed(l.conn, id, Tuning, net.setup));
    }
  }

  lemma ProxyLogs(Q: seq<Wire> -> bool, l: Link, id: nat, net: Net)
    requires KeptByConnect(Q, l.conn) && Q(l.wire) && Plausible(l, net)
    ensures Q(OnProxyRead(l, id, net).0.wire)
  {
    LogOne(Q, l.conn, l.wire, ConnectFailed(l.conn, id, Proxying, if net.code != Ok then net.code else Refused));
    LogOne(Q, l.conn, l.wire, ProxyAccepted(l.conn));
    LogOne(Q, l.conn, l.wire + [ProxyAccepted(l.conn)], HandshakeBegun(l.conn));
  }

  /** The rule: what every entry of a connect keeps, resuming the connect keeps. */
  lemma ConnectLogs(Q: seq<Wire> -> bool, l: Link, w: Wait, id: nat, net: Net)
    requires KeptByConnect(Q, l.conn) && Q(l.wire) && Plausible(l, net) && w.IsConnect()
    ensures Q(Continue(l, w, id, net).0.wire)
  {
    match w
    case Resolve => ResolveLogs(Q, l, id, net);
    case Dial => DialLogs(Q, l, id, net);
    case ProxyWrite => LogOne(Q, l.conn, l.wire, ConnectFailed(l.conn, id, Proxying, net.code));
    case ProxyRead => ProxyLogs(Q, l, id, net);
    case Handshake =>
      LogOne(Q, l.conn, l.wire, ConnectFailed(l.conn, id, Greeting, net.code));
      LogOne(Q, l.conn, l.wire, Established(l.conn));
  }

  lemma DialStores(l: Link, id: nat, net: Net)
    ensures OnDial(l, id, net).0.responses == l.responses
  {
    if net.code == Ok {
      match l.cfg.kind
      case Tcp =>
      case Ssl =>
      case Tunnel =>
    }
  }

  lemma ResolveStores(l: Link, id: nat, net: Net)
    ensures OnResolve(l, id, net).0.responses == l.responses
  {
    if net.code == Ok && l.cfg.kind != Tcp && net.setup != Ok {
      match l.cfg.kind
      case Ssl =>
      case Tunnel =>
    }
  }

  predicate NoAnswerFrom(log: seq<Wire>, n: nat) {
    forall k | n <= k < |log| :: !log[k].Answered?
  }

  /** A connect leaves the response objects alone. */
  lemma ConnectStores(l: Link, w: Wait, id: nat, net: Net)
    requires Plausible(l, net) && w.IsConnect()
    ensures Continue(l, w, id, net).0.responses == l.responses
  {
    match w
    case Resolve => ResolveStores(l, id, net);
    case Dial => DialStores(l, id, net);
    case ProxyWrite =>
    case ProxyRead =>
    case Handshake =>
  }

  // ---------------------------------------------------------------- sockets

  /** The socket of a live session, by what the driver is doing: once dialled it stays open
      unless the stream's timer has closed it under the pending operation. */
  predicate Sockets(v: View) {
    v.live ==>
      match v.st
      case Idle => !v.l.expired
      case Busy(w, _) =>
        if w.Resolve? then !v.l.open && !v.l.expired
        else if w.IsClose() then true
        else v.l.open || v.l.expired
      case Ended(p, _) =>
        (match p
         case Pending(_) => true
         case Connected(ec) => (ec == Ok ==> v.l.open) && (ec == Aborted ==> !v.l.expired)
         case Exchanged(ec) => ec == Ok || ec == Aborted ==> v.l.open && !v.l.expired
         case Closed(_) => v.l.cfg.kind == Tunnel ==> !v.l.expired)
      case Retrying(_) => v.l.cfg.kind == Tunnel ==> !v.l.expired
  }

  lemma ConnectSockets(l: Link, w: Wait, op: Op, net: Net)
    requires Plausible(l, net) && w.IsConnect()
    requires if w.Resolve? then !l.open && !l.expired else l.open && !l.expired
    ensures var (u, p) := Continue(l, w, op.task, net); Sockets(View(u, After(p, op), true, false, 0, []))
  {
  }

  lemma ContinueSockets(l: Link, w: Wait, op: Op, net: Net)
    requires Plausible(l, net)
    requires w.Resolve? ==> !l.open && !l.expired
    requires !w.Resolve? && !w.IsClose() ==> l.open && !l.expired
    ensures var (u, p) := Continue(l, w, op.task, net); Sockets(View(u, After(p, op), true, false, 0, []))
  {
    if w.IsConnect() {
      ConnectSockets(l, w, op, net);
    }
  }

  /** After a timeout the socket is closed, and the operation has failed with that code. */
  lemma TimeoutSockets(l: Link, w: Wait, op: Op, net: Net)
    requires Plausible(l, net) && net.code == StreamTimeout && !w.Resolve?
    ensures var (u, p) := Continue(l, w, op.task, net); Sockets(View(u, After(p, op), true, false, 0, []))
  {
  }

  lemma HearSockets(v: View, net: Net)
    requires Sockets(v) && Can(v, Hear(net)) && v.live
    ensures Sockets(Apply(v, Hear(net)))
  {
    if v.st.w.OnStream(v.l.cfg.kind) && v.l.expired {
      TimeoutSockets(v.l.(expired := false), v.st.w, v.st.op, net.(code := StreamTimeout));
    } else {
      ContinueSockets(v.l, v.st.w, v.st.op, net);
    }
  }

  lemma MoveSockets(v: View, m: Move)
    requires Sockets(v) && Can(v, m)
    ensures Sockets(Apply(v, m))
  {
    match m
    case Connect(_) =>
    case Exchange(_) =>
    case Hear(net) => if v.live { HearSockets(v, net); }
    case Close =>
    case Again =>
    case Finish =>
    case GiveUp =>
    case Abort(_, _) =>
    case TimerFires =>
    case StopBegins(_) =>
    case StopHears(_, _) =>
  }

  // ---------------------------------------------------------------- generations

  predicate OfStream(w: Wire) {
    w.ConnectBegun? || w.Written? || w.Answered? || w.ExchangeFailed? || w.ExchangeRefused?
  }

  predicate IsAbort(w: Wire, conn: nat) {
    w.ConnectFailed? && w.conn == conn && w.code == Aborted
  }

  /** Attempt `conn` failed with `operation_aborted`. */
  predicate AbortedConnect(log: seq<Wire>, conn: nat) {
    exists w | w in log :: IsAbort(w, conn)
  }

  /** Every exchange that failed on generation `gen` failed with `operation_aborted`. */
  predicate CleanGen(log: seq<Wire>, gen: nat) {
    forall w | w in log :: w.ExchangeFailed? && w.gen == gen ==> w.code == Aborted
  }

  /** Every attempt made on generation `gen`, other than `but`, was aborted. */
  predicate Alone(log: seq<Wire>, gen: nat, but: nat) {
    forall w | w in log :: w.ConnectBegun? && w.gen == gen && w.conn != but ==> AbortedConnect(log, w.conn)
  }

  predicate Bounded(log: seq<Wire>, conn: nat, gen: nat) {
    forall w | w in log :: 0 < w.conn <= conn && (OfStream(w) ==> w.gen <= gen)
  }

  /** The stream can be written on: its own attempt succeeded, or was aborted. */
  predicate Usable(log: seq<Wire>, conn: nat, gen: nat) {
    ConnectBegun(conn, gen) in log && (Established(conn) in log || AbortedConnect(log, conn))
  }

  /** What a write and the start of a connect demand of the log before them. */
  predicate EntryFresh(log: seq<Wire>, w: Wire) {
    && (w.Written? ==> Usable(log, w.conn, w.gen) && CleanGen(log, w.gen))
    && (w.ConnectBegun? ==> 0 < w.conn && (forall x | x in log :: x.conn < w.conn) && Alone(log, w.gen, 0))
  }

  predicate AllFresh(log: seq<Wire>) {
    log == [] || (AllFresh(log[..|log| - 1]) && EntryFresh(log[..|log| - 1], log[|log| - 1]))
  }

  lemma AppendFresh(log: seq<Wire>, w: Wire)
    requires AllFresh(log) && EntryFresh(log, w)
    ensures AllFresh(log + [w])
  {
    assert (log + [w])[..|log|] == log;
  }

  lemma {:induction false} EntryIsFresh(log: seq<Wire>, k: nat)
    requires AllFresh(log) && k < |log|
    ensures EntryFresh(log[..k], log[k])
  {
    if k < |log| - 1 {
      EntryIsFresh(log[..|log| - 1], k);
      assert log[..|log| - 1][..k] == log[..k];
    }
  }

  predicate DialingOn(log: seq<Wire>, conn: nat, gen: nat) {
    AllFresh(log) && Bounded(log, conn, gen) && CleanGen(log, gen) && ConnectBegun(conn, gen) in log && Alone(log, gen, conn)
  }

  predicate FreshNow(l: Link, st: Status) {
    match st
    case Idle =>
      && CleanGen(l.wire, l.gen)
      && (if l.open then Usable(l.wire, l.conn, l.gen) else Alone(l.wire, l.gen, 0))
    case Busy(w, _) =>
      && (w.IsConnect() ==> DialingOn(l.wire, l.conn, l.gen))
      && (w.IsExchange() ==> CleanGen(l.wire, l.gen) && Usable(l.wire, l.conn, l.gen))
    case Ended(p, _) =>
      (match p
       case Pending(_) => false
       case Connected(ec) => DialingOn(l.wire, l.conn, l.gen)
       case Exchanged(ec) =>
         ec == Ok || ec == Aborted ==> CleanGen(l.wire, l.gen) && Usable(l.wire, l.conn, l.gen)
       case Closed(_) => NewGen(l))
    case Retrying(_) => NewGen(l)
  }

  /** The tunnel has already replaced its stream; the others do it when they reconnect. */
  predicate NewGen(l: Link) {
    l.cfg.kind == Tunnel ==> forall w | w in l.wire :: OfStream(w) ==> w.gen < l.gen
  }

  predicate FreshPart(v: View) {
    AllFresh(v.l.wire) && (v.live ==> Bounded(v.l.wire, v.l.conn, v.l.gen) && FreshNow(v.l, v.st))
  }

  predicate Fresh(v: View) {
    Ordered(v) && Sockets(v) && FreshPart(v)
  }

  lemma DialingLogs(conn: nat, gen: nat)
    ensures KeptByConnect(log => DialingOn(log, conn, gen), conn)
  {
    forall log, w | DialingOn(log, conn, gen) && OfConnect(conn, w) ensures DialingOn(log + [w], conn, gen) {
      AppendFresh(log, w);
      assert Bounded(log, conn, gen) && ConnectBegun(conn, gen) in log;
      forall x | x in log + [w] && x.ConnectBegun? && x.gen == gen && x.conn != conn
        ensures AbortedConnect(log + [w], x.conn)
      {
        assert x in log && AbortedConnect(log, x.conn);
      }
    }
  }

  lemma FreshLogs(conn: nat)
    ensures KeptByConnect(AllFresh, conn)
  {
    forall log, w | AllFresh(log) && OfConnect(conn, w) ensures AllFresh(log + [w]) {
      AppendFresh(log, w);
    }
  }

  /** A new attempt may start on a generation whose attempts were all aborted. */
  lemma BeginFresh(log: seq<Wire>, conn: nat, gen: nat)
    requires AllFresh(log) && Bounded(log, conn, gen) && CleanGen(log, gen) && Alone(log, gen, 0)
    ensures DialingOn(log + [ConnectBegun(conn + 1, gen)], conn + 1, gen)
  {
    var w := ConnectBegun(conn + 1, gen);
    AppendFresh(log, w);
    forall x | x in log + [w] && x.ConnectBegun? && x.gen == gen && x.conn != conn + 1
      ensures AbortedConnect(log + [w], x.conn)
    {
      assert x in log && AbortedConnect(log, x.conn);
    }
  }

  /** The generation that a connect would use is ready for another attempt. */
  lemma GenReady(v: View, op: Op)
    requires Fresh(v) && Can(v, Connect(op))
    ensures var gen := ConnectBegin(v.l).gen;
            Bounded(v.l.wire, v.l.conn, gen) && CleanGen(v.l.wire, gen) && Alone(v.l.wire, gen, 0)
  {
    if v.st.Retrying? {
      assert forall w | w in v.l.wire :: OfStream(w) ==> w.gen < ConnectBegin(v.l).gen;
    }
  }

  lemma ConnectFresh(v: View, op: Op)
    requires Fresh(v) && Can(v, Connect(op))
    ensures FreshPart(Apply(v, Connect(op)))
  {
    GenReady(v, op);
    BeginFresh(v.l.wire, v.l.conn, ConnectBegin(v.l).gen);
  }

  lemma ExchangeFresh(v: View, op: Op)
    requires Fresh(v) && Can(v, Exchange(op))
    ensures FreshPart(Apply(v, Exchange(op)))
  {
    AppendFresh(v.l.wire, Written(v.l.conn, v.l.gen, op.task));
  }

  /** The entry with which an exchange ends keeps the generation usable, unless it failed with
      another code than `operation_aborted`. */
  lemma SettledFresh(log: seq<Wire>, conn: nat, gen: nat, w: Wire)
    requires AllFresh(log) && Bounded(log, conn, gen) && CleanGen(log, gen) && Usable(log, conn, gen)
    requires (w.Answered? || w.ExchangeFailed? || w.ExchangeRefused?) && w.conn == conn && w.gen == gen
    ensures AllFresh(log + [w]) && Bounded(log + [w], conn, gen) && Usable(log + [w], conn, gen)
    ensures (w.ExchangeFailed? ==> w.code == Aborted) ==> CleanGen(log + [w], gen)
  {
    AppendFresh(log, w);
    assert Established(conn) !in log ==> AbortedConnect(log, conn);
  }

  /** A stream that can go on being used. */
  predicate InGoodOrder(log: seq<Wire>, conn: nat, gen: nat) {
    AllFresh(log) && Bounded(log, conn, gen) && CleanGen(log, gen) && Usable(log, conn, gen)
  }

  lemma AnsweredFresh(l: Link, op: Op, net: Net)
    requires Plausible(l, net) && l.running && InGoodOrder(l.wire, l.conn, l.gen) && net.code == Ok
    ensures var (u, p) := OnExRead(l, op.task, net);
            InGoodOrder(u.wire, u.conn, u.gen) && p == Exchanged(Ok)
  {
    SettledFresh(l.wire, l.conn, l.gen,
                 Answered(l.conn, l.gen, op.task, Filled(l, false, net.received)[..net.consumed]));
  }

  lemma FailedFresh(l: Link, op: Op, code: Code)
    requires InGoodOrder(l.wire, l.conn, l.gen) && code != Ok
    ensures var (u, p) := ExchangeFail(l, op.task, code);
            AllFresh(u.wire) && Bounded(u.wire, u.conn, u.gen) && FreshNow(u, Ended(p, op))
  {
    SettledFresh(l.wire, l.conn, l.gen, ExchangeFailed(l.conn, l.gen, op.task, code));
  }

  lemma HearExchangeFresh(l: Link, w: Wait, op: Op, net: Net)
    requires Plausible(l, net) && w.IsExchange() && l.running && InGoodOrder(l.wire, l.conn, l.gen)
    ensures var (u, p) := Continue(l, w, op.task, net);
            AllFresh(u.wire) && Bounded(u.wire, u.conn, u.gen) && FreshNow(u, After(p, op))
  {
    if net.code != Ok {
      FailedFresh(l, op, net.code);
      if w.ExRead? {
        FailedFresh(l.(buffer := Filled(l, false, net.received)[net.consumed..]), op, net.code);
      }
    } else if w.ExRead? {
      AnsweredFresh(l, op, net);
    }
  }

  lemma HearConnectFresh(l: Link, w: Wait, op: Op, net: Net)
    requires Plausible(l, net) && w.IsConnect() && DialingOn(l.wire, l.conn, l.gen) && WaitFits(l.cfg.kind, w)
    ensures var (u, p) := Continue(l, w, op.task, net);
            AllFresh(u.wire) && Bounded(u.wire, u.conn, u.gen) && FreshNow(u, After(p, op))
  {
    DialingLogs(l.conn, l.gen);
    ConnectLogs(log => DialingOn(log, l.conn, l.gen), l, w, op.task, net);
    ContinueShape(l, w, op.task, net);
  }

  lemma ContinueFresh(l: Link, w: Wait, op: Op, net: Net)
    requires Plausible(l, net) && WaitFits(l.cfg.kind, w) && WaitCoherent(l, w)
    requires AllFresh(l.wire) && Bounded(l.wire, l.conn, l.gen) && FreshNow(l, Busy(w, op))
    ensures var (u, p) := Continue(l, w, op.task, net);
            AllFresh(u.wire) && Bounded(u.wire, u.conn, u.gen) && FreshNow(u, After(p, op))
  {
    if w.IsConnect() {
      HearConnectFresh(l, w, op, net);
    } else if w.IsExchange() {
      HearExchangeFresh(l, w, op, net);
    }
  }

  lemma DeadExchangeFresh(l: Link, w: Wait, id: nat, net: Net)
    requires Plausible(l, net) && AllFresh(l.wire) && w.IsExchange()
    ensures AllFresh(Continue(l, w, id, net).0.wire)
  {
    if net.code != Ok {
      AppendFresh(l.wire, ExchangeFailed(l.conn, l.gen, id, net.code));
    } else if !l.running {
      AppendFresh(l.wire, ExchangeRefused(l.conn, l.gen, id));
    } else if w.ExRead? {
      AppendFresh(l.wire, Answered(l.conn, l.gen, id, Filled(l, false, net.received)[..net.consumed]));
    }
  }

  lemma DeadFresh(l: Link, w: Wait, id: nat, net: Net)
    requires Plausible(l, net) && AllFresh(l.wire)
    ensures AllFresh(Continue(l, w, id, net).0.wire)
  {
    if w.IsConnect() {
      FreshLogs(l.conn);
      ConnectLogs(AllFresh, l, w, id, net);
    } else if w.IsExchange() {
      DeadExchangeFresh(l, w, id, net);
    }
  }

  lemma HearFresh(v: View, net: Net)
    requires Fresh(v) && Can(v, Hear(net))
    ensures FreshPart(Apply(v, Hear(net)))
  {
    var late := v.st.w.OnStream(v.l.cfg.kind) && v.l.expired;
    var l := if late then v.l.(expired := false) else v.l;
    var n := if late then net.(code := StreamTimeout) else net;
    if v.live {
      ContinueFresh(l, v.st.w, v.st.op, n);
    } else {
      DeadFresh(l, v.st.w, v.st.op.task, n);
    }
  }

  lemma DecideFresh(v: View, m: Move)
    requires Fresh(v) && Can(v, m) && (m.Close? || m.Again? || m.Finish? || m.GiveUp?)
    ensures FreshPart(Apply(v, m))
  {
    var log := v.l.wire;
    if m.Finish? && v.live && v.st.p == Connected(Aborted) {
      assert IsAbort(log[|log| - 1], v.l.conn);
    }
  }

  lemma PartFresh(v: View, m: Move)
    requires Fresh(v) && Can(v, m)
    ensures FreshPart(Apply(v, m))
  {
    if m.Connect? {
      ConnectFresh(v, m.op);
    } else if m.Exchange? {
      ExchangeFresh(v, m.op);
    } else if m.Hear? {
      HearFresh(v, m.net);
    } else if m.Close? || m.Again? || m.Finish? || m.GiveUp? {
      DecideFresh(v, m);
    }
  }

  lemma MoveFresh(v: View, m: Move)
    requires Fresh(v) && Can(v, m)
    ensures Fresh(Apply(v, m))
  {
    MoveOrdered(v, m);
    MoveSockets(v, m);
    PartFresh(v, m);
  }

  lemma FreshKept()
    ensures Kept(Fresh)
  {
    forall v, m | Fresh(v) && Can(v, m) ensures Fresh(Apply(v, m)) {
      MoveFresh(v, m);
    }
  }
}
