/** Which bytes are in the read buffer, and which reach a response. */
module Buffers {
  import opened ErrorCodes
  import opened Transports
  import opened Protocol
  import opened Invariants
  import opened Moves
  import opened Ordering
  import opened Streams

  /** The byte came in on connection `conn`, and not in the clear unless through a proxy. */
  predicate Clean(kind: Kind, conn: nat, b: Byte) {
    b.conn == conn && (b.plain ==> kind == Tunnel)
  }

  predicate AllClean(kind: Kind, conn: nat, bs: seq<Byte>) {
    forall i | 0 <= i < |bs| :: Clean(kind, conn, bs[i])
  }

  /** Every response on the wire is made of bytes of the connection that carried its request. */
  predicate PureLog(kind: Kind, log: seq<Wire>) {
    forall w | w in log :: w.Answered? ==> AllClean(kind, w.conn, w.body)
  }

  predicate IsAnswer(w: Wire, id: nat, body: seq<Byte>) {
    w.Answered? && w.id == id && w.body == body
  }

  /** A response object only ever holds a response that was logged for its own request. */
  predicate Stored(log: seq<Wire>, responses: map<nat, seq<Byte>>) {
    forall id | id in responses :: exists w | w in log :: IsAnswer(w, id, responses[id])
  }

  predicate NoWrite(log: seq<Wire>, gen: nat) {
    forall w | w in log :: w.Written? ==> w.gen != gen
  }

  /** When the buffer is empty, by what the driver of a live session is doing. */
  predicate BufferNow(l: Link, st: Status) {
    match st
    case Idle =>
      && (!l.open ==> l.buffer == [])
      && (l.cfg.kind != Tunnel && NoWrite(l.wire, l.gen) ==> l.buffer == [])
    case Busy(w, _) =>
      && (w.IsConnect() && (!w.Handshake? || l.cfg.kind != Tunnel) ==> l.buffer == [])
      && (w.IsExchange() ==>
            && Writing(l.wire) && l.wire[|l.wire| - 1].gen == l.gen
            && (l.cfg.kind != Tunnel && NoWrite(l.wire[..|l.wire| - 1], l.gen) ==> l.buffer == []))
    case Ended(p, _) =>
      (match p
       case Pending(_) => false
       case Connected(ec) =>
         && (ec == Ok || ec == Aborted ==> l.cfg.kind != Tunnel ==> l.buffer == [])
         && (ec == Aborted && !l.open ==> l.buffer == [])
       case Exchanged(ec) => ec == Ok || ec == Aborted ==> !NoWrite(l.wire, l.gen)
       case Closed(_) => l.cfg.kind == Tunnel ==> l.buffer == [])
    case Retrying(_) => l.cfg.kind == Tunnel ==> l.buffer == []
  }

  predicate PurePart(v: View) {
    && PureLog(v.l.cfg.kind, v.l.wire) && Stored(v.l.wire, v.l.responses)
    && (v.live ==> AllClean(v.l.cfg.kind, v.l.conn, v.l.buffer) && BufferNow(v.l, v.st))
  }

  predicate Pure(v: View) {
    Sockets(v) && PurePart(v)
  }

  // ---------------------------------------------------------------- every move keeps it

  predicate LogPure(kind: Kind, responses: map<nat, seq<Byte>>, log: seq<Wire>) {
    PureLog(kind, log) && Stored(log, responses)
  }

  lemma LogPureAppend(kind: Kind, responses: map<nat, seq<Byte>>, log: seq<Wire>, w: Wire)
    requires LogPure(kind, responses, log) && (w.Answered? ==> AllClean(kind, w.conn, w.body))
    ensures LogPure(kind, responses, log + [w])
  {
    forall id | id in responses ensures exists x | x in log + [w] :: IsAnswer(x, id, responses[id]) {
      var x :| x in log && IsAnswer(x, id, responses[id]);
      assert x in log + [w];
    }
  }

  lemma ConnectLogsPure(kind: Kind, responses: map<nat, seq<Byte>>, conn: nat)
    ensures KeptByConnect(log => LogPure(kind, responses, log), conn)
  {
    forall log, w | LogPure(kind, responses, log) && OfConnect(conn, w) ensures LogPure(kind, responses, log + [w]) {
      LogPureAppend(kind, responses, log, w);
    }
  }

  lemma ReadClean(l: Link, plain: bool, net: Net)
    requires Plausible(l, net) && AllClean(l.cfg.kind, l.conn, l.buffer) && (plain ==> l.cfg.kind == Tunnel)
    ensures AllClean(l.cfg.kind, l.conn, Filled(l, plain, net.received)[..net.consumed])
    ensures AllClean(l.cfg.kind, l.conn, Filled(l, plain, net.received)[net.consumed..])
  {
  }

  /** The log and the response objects, whoever resumes. */
  lemma HearConnectPure(l: Link, w: Wait, id: nat, net: Net)
    requires Plausible(l, net) && w.IsConnect() && LogPure(l.cfg.kind, l.responses, l.wire)
    ensures var u := Continue(l, w, id, net).0; LogPure(l.cfg.kind, l.responses, u.wire) && u.responses == l.responses
  {
    ConnectStores(l, w, id, net);
    ConnectLogsPure(l.cfg.kind, l.responses, l.conn);
    ConnectLogs(log => LogPure(l.cfg.kind, l.responses, log), l, w, id, net);
  }

  lemma AnswerPure(l: Link, id: nat, net: Net)
    requires Plausible(l, net) && LogPure(l.cfg.kind, l.responses, l.wire) && AllClean(l.cfg.kind, l.conn, l.buffer)
    requires net.code == Ok && l.running
    ensures var u := OnExRead(l, id, net).0; LogPure(u.cfg.kind, u.responses, u.wire)
  {
    ReadClean(l, false, net);
    var body := Filled(l, false, net.received)[..net.consumed];
    var a := Answered(l.conn, l.gen, id, body);
    LogPureAppend(l.cfg.kind, l.responses, l.wire, a);
    assert a in l.wire + [a] && IsAnswer(a, id, body);
  }

  lemma HearExchangePure(l: Link, w: Wait, id: nat, net: Net)
    requires Plausible(l, net) && w.IsExchange() && LogPure(l.cfg.kind, l.responses, l.wire)
    requires l.running ==> AllClean(l.cfg.kind, l.conn, l.buffer)
    ensures var u := Continue(l, w, id, net).0; LogPure(u.cfg.kind, u.responses, u.wire)
  {
    if net.code != Ok {
      LogPureAppend(l.cfg.kind, l.responses, l.wire, ExchangeFailed(l.conn, l.gen, id, net.code));
    } else if !l.running {
      LogPureAppend(l.cfg.kind, l.responses, l.wire, ExchangeRefused(l.conn, l.gen, id));
    } else if w.ExRead? {
      AnswerPure(l, id, net);
    }
  }

  /** The buffer of a live session. */
  lemma ProxyBuffer(l: Link, op: Op, net: Net)
    requires Plausible(l, net) && l.cfg.kind == Tunnel && l.buffer == []
    requires l.open || net.code == StreamTimeout
    ensures var (u, p) := OnProxyRead(l, op.task, net);
            BufferNow(u, After(p, op)) && AllClean(u.cfg.kind, u.conn, u.buffer)
  {
    ReadClean(l, true, net);
  }

  lemma DialBuffer(l: Link, op: Op, net: Net)
    requires l.buffer == []
    ensures var (u, p) := OnDial(l, op.task, net); BufferNow(u, After(p, op)) && u.buffer == []
  {
  }

  lemma ConnectBuffer(l: Link, w: Wait, op: Op, net: Net)
    requires Plausible(l, net) && w.IsConnect() && WaitFits(l.cfg.kind, w)
    requires AllClean(l.cfg.kind, l.conn, l.buffer) && BufferNow(l, Busy(w, op))
    requires l.open || w.Resolve? || net.code == StreamTimeout
    ensures var (u, p) := Continue(l, w, op.task, net);
            BufferNow(u, After(p, op)) && AllClean(u.cfg.kind, u.conn, u.buffer)
  {
    if w.ProxyRead? {
      ProxyBuffer(l, op, net);
    } else if w.Dial? {
      DialBuffer(l, op, net);
    }
  }

  lemma ExchangeBuffer(l: Link, w: Wait, op: Op, net: Net)
    requires Plausible(l, net) && w.IsExchange() && l.running
    requires AllClean(l.cfg.kind, l.conn, l.buffer) && BufferNow(l, Busy(w, op))
    ensures var (u, p) := Continue(l, w, op.task, net); BufferNow(u, After(p, op)) && AllClean(u.cfg.kind, u.conn, u.buffer)
  {
    assert l.wire[|l.wire| - 1] in l.wire;
    if w.ExRead? {
      ReadClean(l, false, net);
    }
  }

  lemma ContinueBuffer(l: Link, w: Wait, op: Op, net: Net)
    requires Plausible(l, net) && WaitFits(l.cfg.kind, w) && WaitCoherent(l, w)
    requires AllClean(l.cfg.kind, l.conn, l.buffer) && BufferNow(l, Busy(w, op))
    requires l.open || w.Resolve? || net.code == StreamTimeout || w.IsClose()
    ensures var (u, p) := Continue(l, w, op.task, net);
            BufferNow(u, After(p, op)) && AllClean(u.cfg.kind, u.conn, u.buffer)
  {
    if w.IsConnect() {
      ConnectBuffer(l, w, op, net);
    } else if w.IsExchange() {
      ExchangeBuffer(l, w, op, net);
    }
  }

  lemma ContinuePure(l: Link, w: Wait, id: nat, net: Net)
    requires Plausible(l, net) && LogPure(l.cfg.kind, l.responses, l.wire) && WaitFits(l.cfg.kind, w)
    requires l.running ==> AllClean(l.cfg.kind, l.conn, l.buffer)
    ensures var u := Continue(l, w, id, net).0; LogPure(u.cfg.kind, u.responses, u.wire)
  {
    ContinueShape(l, w, id, net);
    if w.IsConnect() {
      HearConnectPure(l, w, id, net);
    } else if w.IsExchange() {
      HearExchangePure(l, w, id, net);
    }
  }

  lemma HearPure(v: View, net: Net)
    requires Pure(v) && Can(v, Hear(net))
    ensures PurePart(Apply(v, Hear(net)))
  {
    var late := v.st.w.OnStream(v.l.cfg.kind) && v.l.expired;
    var l := if late then v.l.(expired := false) else v.l;
    var n := if late then net.(code := StreamTimeout) else net;
    ContinuePure(l, v.st.w, v.st.op.task, n);
    if v.live {
      ContinueBuffer(l, v.st.w, v.st.op, n);
    }
  }

  lemma StartPure(v: View, m: Move)
    requires Pure(v) && Can(v, m) && (m.Connect? || m.Exchange?)
    ensures PurePart(Apply(v, m))
  {
    var u := ConnectBegin(v.l);
    var w := if m.Connect? then ConnectBegun(u.conn, u.gen) else Written(v.l.conn, v.l.gen, m.op.task);
    LogPureAppend(v.l.cfg.kind, v.l.responses, v.l.wire, w);
    assert (v.l.wire + [w])[..|v.l.wire|] == v.l.wire;
  }

  lemma DecidePure(v: View, m: Move)
    requires Pure(v) && Can(v, m) && (m.Close? || m.Again? || m.Finish? || m.GiveUp?)
    ensures PurePart(Apply(v, m))
  {
  }

  lemma BesidePure(v: View, m: Move)
    requires Pure(v) && Can(v, m) && (m.Abort? || m.TimerFires? || m.StopBegins? || m.StopHears?)
    ensures PurePart(Apply(v, m))
  {
    if m.StopHears? {
      StopHearsLittle(v, m);
    }
  }

  lemma PartPure(v: View, m: Move)
    requires Pure(v) && Can(v, m)
    ensures PurePart(Apply(v, m))
  {
    if m.Connect? || m.Exchange? {
      StartPure(v, m);
    } else if m.Hear? {
      HearPure(v, m.net);
    } else if m.Close? || m.Again? || m.Finish? || m.GiveUp? {
      DecidePure(v, m);
    } else {
      BesidePure(v, m);
    }
  }

  lemma MovePure(v: View, m: Move)
    requires Pure(v) && Can(v, m)
    ensures Pure(Apply(v, m))
  {
    MoveSockets(v, m);
    PartPure(v, m);
  }

  lemma PureKept()
    ensures Kept(Pure)
  {
    forall v, m | Pure(v) && Can(v, m) ensures Pure(Apply(v, m)) {
      MovePure(v, m);
    }
  }
}
