/** When the timer of a stream is armed. */
module Timers {
  import opened ErrorCodes
  import opened Transports
  import opened Protocol
  import opened Moves
  import opened Ordering

  predicate IsRefusal(w: Wire) {
    w.ConnectFailed? && w.phase == NamingHost
  }

  /** The TLS library refused a server name. */
  predicate NameRefused(log: seq<Wire>) {
    exists w | w in log :: IsRefusal(w)
  }

  predicate ArmedRight(l: Link, st: Status) {
    l.armed <==> st.Busy? || (l.cfg.kind == Tunnel && NameRefused(l.wire))
  }

  /** A refused name is the end of a session. */
  predicate Balanced(v: View) {
    && (v.live && NameRefused(v.l.wire) ==> v.st.Ended? && v.st.p.Connected? && v.st.p.ec.Other?)
    && (!v.stopped ==> ArmedRight(v.l, v.st))
  }

  lemma NoRefusal(log: seq<Wire>, w: Wire)
    ensures NameRefused(log + [w]) <==> NameRefused(log) || IsRefusal(w)
  {
    if NameRefused(log) {
      var x :| x in log && IsRefusal(x);
      assert x in log + [w];
    }
    assert w in log + [w];
  }

  lemma ResolveBalanced(l: Link, op: Op, net: Net)
    requires Plausible(l, net) && l.armed && !NameRefused(l.wire)
    ensures var (u, p) := OnResolve(l, op.task, net);
            ArmedRight(u, After(p, op)) && (NameRefused(u.wire) ==> p.Connected? && p.ec.Other?)
  {
    NoRefusal(l.wire, ConnectFailed(l.conn, op.task, Resolving, net.code));
    NoRefusal(l.wire, Resolved(l.conn));
    NoRefusal(l.wire + [Resolved(l.conn)], ConnectFailed(l.conn, op.task, NamingHost, net.setup));
  }

  lemma DialBalanced(l: Link, op: Op, net: Net)
    requires l.armed && !NameRefused(l.wire)
    ensures var (u, p) := OnDial(l, op.task, net); ArmedRight(u, After(p, op)) && !NameRefused(u.wire)
  {
    var log := l.wire + [Dialed(l.conn)];
    NoRefusal(l.wire, ConnectFailed(l.conn, op.task, Dialing, net.code));
    NoRefusal(l.wire, Dialed(l.conn));
    NoRefusal(log, Established(l.conn));
    NoRefusal(log, HandshakeBegun(l.conn));
    NoRefusal(log, ConnectFailed(l.conn, op.task, Tuning, net.setup));
    NoRefusal(log, ConnectSent(l.conn, l.cfg.host));
  }

  lemma ProxyBalanced(l: Link, op: Op, net: Net)
    requires Plausible(l, net) && l.armed && !NameRefused(l.wire)
    ensures var (u, p) := OnProxyRead(l, op.task, net); ArmedRight(u, After(p, op)) && !NameRefused(u.wire)
  {
    NoRefusal(l.wire, ConnectFailed(l.conn, op.task, Proxying, if net.code != Ok then net.code else Refused));
    NoRefusal(l.wire, ProxyAccepted(l.conn));
    NoRefusal(l.wire + [ProxyAccepted(l.conn)], HandshakeBegun(l.conn));
  }

  lemma ExchangeBalanced(l: Link, w: Wait, op: Op, net: Net)
    requires Plausible(l, net) && l.armed && !NameRefused(l.wire) && w.IsExchange()
    ensures var (u, p) := Continue(l, w, op.task, net); ArmedRight(u, After(p, op)) && !NameRefused(u.wire)
  {
    NoRefusal(l.wire, ExchangeFailed(l.conn, l.gen, op.task, net.code));
    NoRefusal(l.wire, ExchangeRefused(l.conn, l.gen, op.task));
    NoRefusal(l.wire, Answered(l.conn, l.gen, op.task, Filled(l, false, net.received)[..net.consumed]));
  }

  lemma ContinueBalanced(l: Link, w: Wait, op: Op, net: Net)
    requires Plausible(l, net) && l.armed && !NameRefused(l.wire)
    ensures var (u, p) := Continue(l, w, op.task, net);
            ArmedRight(u, After(p, op)) && (NameRefused(u.wire) ==> p.Connected? && p.ec.Other?)
  {
    match w
    case Resolve => ResolveBalanced(l, op, net);
    case Dial => DialBalanced(l, op, net);
    case ProxyWrite => NoRefusal(l.wire, ConnectFailed(l.conn, op.task, Proxying, net.code));
    case ProxyRead => ProxyBalanced(l, op, net);
    case Handshake =>
      NoRefusal(l.wire, ConnectFailed(l.conn, op.task, Greeting, net.code));
      NoRefusal(l.wire, Established(l.conn));
    case ExWrite => ExchangeBalanced(l, w, op, net);
    case ExRead => ExchangeBalanced(l, w, op, net);
    case Shutdown =>
    case ClosePosted =>
  }

  lemma HearBalanced(v: View, net: Net)
    requires Balanced(v) && Can(v, Hear(net))
    ensures Balanced(Apply(v, Hear(net)))
  {
    if v.live {
      if v.st.w.OnStream(v.l.cfg.kind) && v.l.expired {
        ContinueBalanced(v.l.(expired := false), v.st.w, v.st.op, net.(code := StreamTimeout));
      } else {
        ContinueBalanced(v.l, v.st.w, v.st.op, net);
      }
    }
  }

  lemma MoveBalanced(v: View, m: Move)
    requires Balanced(v) && Can(v, m)
    ensures Balanced(Apply(v, m))
  {
    if m.Hear? {
      HearBalanced(v, m.net);
    } else if m.Connect? || m.Exchange? {
      var u := ConnectBegin(v.l);
      NoRefusal(v.l.wire, ConnectBegun(u.conn, u.gen));
      NoRefusal(v.l.wire, Written(v.l.conn, v.l.gen, m.op.task));
    }
  }

  lemma BalancedKept()
    ensures Kept(Balanced)
  {
    forall v, m | Balanced(v) && Can(v, m) ensures Balanced(Apply(v, m)) {
      MoveBalanced(v, m);
    }
  }

  // ---------------------------------------------------------------- a basic transport by itself

  /** A transport whose operations are used one at a time, by anyone. */
  datatype Line = Line(l: Link, pending: seq<Wait>, id: nat)

  datatype Use =
    | StartConnect
    | StartExchange(id: nat)
    | StartClose(graceful: bool)
    | Answer(net: Net)
    | Expire

  predicate CanUse(v: Line, u: Use) {
    match u
    case Answer(net) => |v.pending| == 1 && Plausible(v.l, net)
    case Expire => |v.pending| == 1 && v.pending[0].OnStream(v.l.cfg.kind) && v.l.armed && v.l.open
    case _ => v.pending == []
  }

  function Waiting(p: Progress): seq<Wait> {
    if p.Pending? then [p.wait] else []
  }

  function Used(v: Line, u: Use): Line
    requires CanUse(v, u)
  {
    match u
    case StartConnect => Line(ConnectBegin(v.l), [Resolve], 0)
    case StartExchange(id) => var (l, p) := ExchangeBegin(v.l, id); Line(l, Waiting(p), id)
    case StartClose(graceful) => var (l, p) := CloseBegin(v.l, graceful); Line(l, Waiting(p), 0)
    case Answer(net) => var (l, p) := Deliver(v.l, v.pending[0], v.id, net); Line(l, Waiting(p), v.id)
    case Expire => v.(l := v.l.(open := false, expired := true))
  }

  predicate InUse(v: Line) {
    v.l.cfg.kind != Tunnel && |v.pending| <= 1 && (v.l.armed <==> v.pending != [])
  }

  lemma ContinueArms(l: Link, w: Wait, id: nat, net: Net)
    requires Plausible(l, net) && l.armed && l.cfg.kind != Tunnel
    ensures var (u, p) := Continue(l, w, id, net); (u.armed <==> p.Pending?) && u.cfg == l.cfg
  {
    match w
    case Resolve =>
    case Dial => DialArms(l, id, net);
    case ProxyWrite =>
    case ProxyRead =>
    case Handshake =>
    case ExWrite =>
    case ExRead =>
    case Shutdown =>
    case ClosePosted =>
  }

  lemma DialArms(l: Link, id: nat, net: Net)
    requires l.armed && l.cfg.kind != Tunnel
    ensures var (u, p) := OnDial(l, id, net); (u.armed <==> p.Pending?) && u.cfg == l.cfg
  {
  }

  lemma UseKeeps(v: Line, u: Use)
    requires InUse(v) && CanUse(v, u)
    ensures InUse(Used(v, u))
  {
    if u.Answer? {
      if v.pending[0].OnStream(v.l.cfg.kind) && v.l.expired {
        ContinueArms(v.l.(expired := false), v.pending[0], v.id, u.net.(code := StreamTimeout));
      } else {
        ContinueArms(v.l, v.pending[0], v.id, u.net);
      }
    }
  }

  ghost predicate IsUse(cfg: Config, tr: seq<Line>, us: seq<Use>) {
    && |tr| == |us| + 1 && tr[0] == Line(NewLink(cfg), [], 0)
    && forall i | 0 <= i < |us| :: CanUse(tr[i], us[i]) && tr[i + 1] == Used(tr[i], us[i])
  }

  /** In every sequence of connects, exchanges and closes on a basic transport, over all their
      error branches, the timer is armed exactly while an operation is outstanding. */
  lemma {:induction false} ArmedWhileInUse(cfg: Config, tr: seq<Line>, us: seq<Use>, i: nat)
    requires IsUse(cfg, tr, us) && i < |tr| && cfg.kind != Tunnel
    ensures InUse(tr[i])
  {
    if i > 0 {
      ArmedWhileInUse(cfg, tr, us, i - 1);
      UseKeeps(tr[i - 1], us[i - 1]);
    }
  }
}
