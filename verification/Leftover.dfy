/**
  Bytes that come in before they are asked for: what an earlier read has brought in and its
  parser has not taken, and how much of it a later response is made of.
 */
module Leftovers {
  import opened ErrorCodes
  import opened Transports
  import opened Protocol
  import opened Invariants
  import opened Moves
  import opened Runs
  import opened Ordering
  import opened Streams
  import opened Buffers
  import opened Theorems
  import opened Retries
  import opened ProxyBytes

  /** How many bytes more than it takes a read brings in; less than none, if it takes from
      what was there. */
  function Extra(w: Wait, net: Net): int {
    if w.ProxyRead? || w.ExRead? then net.received - net.consumed else 0
  }

  /** What this step adds to the buffer of connection `conn`, if it reads from it. */
  function Held(s: State, a: Action, conn: nat): int {
    if s.link.conn == conn && s.running && a.Fire? && s.posted != [] && s.posted[0].Await?
    then Extra(s.posted[0].wait, a.net) else 0
  }

  /** ... and all the steps before `j` together: what was received on the connection and has
      not been taken, by responses delivered or not. */
  ghost function HeldBack(tr: seq<State>, acts: seq<Action>, j: nat, conn: nat): int
    requires j <= |acts| <= |tr|
  {
    if j == 0 then 0 else HeldBack(tr, acts, j - 1, conn) + Held(tr[j - 1], acts[j - 1], conn)
  }

  // ---------------------------------------------------------------- what a step adds

  lemma ContinueAdds(l: Link, w: Wait, id: nat, net: Net)
    requires Plausible(l, net) && !w.IsClose()
    ensures |Continue(l, w, id, net).0.buffer| == |l.buffer| + Extra(w, net)
  {
    match w
    case Resolve => ResolveKeeps(l, id, net);
    case Dial => DialKeeps(l, id, net);
    case ProxyWrite =>
    case ProxyRead =>
    case Handshake =>
    case ExWrite =>
    case ExRead =>
  }

  lemma DeliverAdds(l: Link, w: Wait, id: nat, net: Net)
    requires Plausible(l, net) && !w.IsClose()
    ensures |Deliver(l, w, id, net).0.buffer| == |l.buffer| + Extra(w, net)
  {
    if w.OnStream(l.cfg.kind) && l.expired {
      ContinueAdds(l.(expired := false), w, id, net.(code := StreamTimeout));
    } else {
      ContinueAdds(l, w, id, net);
    }
  }

  lemma AwaitAdds(s: State, a: Action)
    requires Inv(s) && Enabled(s, a) && a.Fire? && s.posted[0].Await? && !s.posted[0].wait.IsClose()
    ensures |Step(s, a).link.buffer| == |s.link.buffer| + Extra(s.posted[0].wait, a.net)
  {
    var w, op := s.posted[0].wait, s.posted[0].op;
    DeliverAdds(s.link, w, op.task, a.net);
    var (l, p) := Deliver(s.link, w, op.task, a.net);
    SettleKeeps(s.(posted := Without(s.posted, 0), link := l), op, p);
  }

  /** As long as the connection is kept and not being closed, its buffer grows by what is held. */
  lemma StepAdds(s: State, a: Action)
    requires Inv(s) && Enabled(s, a) && s.running && Step(s, a).running
    requires Step(s, a).link.conn == s.link.conn && !BeingClosed(Step(s, a))
    ensures !BeingClosed(s)
    ensures |Step(s, a).link.buffer| == |s.link.buffer| + Held(s, a, s.link.conn)
  {
    if BeingClosed(s) {
      CloseStep(s, a);
    } else if a.Fire? {
      if HasOp(s.posted[0]) {
        AwaitAdds(s, a);
      } else {
        IdleStep(s, a);
      }
    }
  }

  // ---------------------------------------------------------------- over a run

  /** A connection that has not begun has held nothing. */
  lemma {:induction false} NothingHeld(cfg: Config, tr: seq<State>, acts: seq<Action>, j: nat, conn: nat)
    requires IsRun(cfg, tr, acts) && j <= |acts| && forall k | 0 <= k < j :: tr[k].link.conn != conn
    ensures HeldBack(tr, acts, j, conn) == 0
  {
    if j > 0 {
      NothingHeld(cfg, tr, acts, j - 1, conn);
    }
  }

  /** A new connection starts with an empty buffer. */
  lemma StartsEmpty(s: State, a: Action)
    requires Inv(s) && Pure(ViewOf(s)) && Enabled(s, a) && s.running && Step(s, a).running
    requires Step(s, a).link.conn != s.link.conn
    ensures Step(s, a).link.buffer == [] && s.link.conn < Step(s, a).link.conn
  {
    if a.Fire? && s.posted[0].Await? {
      ConnKept(s, a);
    }
  }

  lemma ConnKept(s: State, a: Action)
    requires Inv(s) && Enabled(s, a) && a.Fire? && s.posted[0].Await?
    ensures Step(s, a).link.conn == s.link.conn
  {
    var w, op := s.posted[0].wait, s.posted[0].op;
    DeliverShape(s.link, w, op.task, a.net);
    var (l, p) := Deliver(s.link, w, op.task, a.net);
    SettleKeeps(s.(posted := Without(s.posted, 0), link := l), op, p);
  }

  lemma NewStartsEmpty(cfg: Config, tr: seq<State>, acts: seq<Action>, j: nat)
    requires IsRun(cfg, tr, acts) && j < |acts| && tr[j + 1].running && tr[j + 1].link.conn != tr[j].link.conn
    ensures tr[j + 1].link.buffer == [] && HeldBack(tr, acts, j + 1, tr[j + 1].link.conn) == 0
  {
    InvAlways(cfg, tr, acts, j);
    BuffersPure(cfg, tr, acts, j);
    RunningBefore(cfg, tr, acts, j);
    StartsEmpty(tr[j], acts[j]);
    forall k | 0 <= k < j + 1 ensures tr[k].link.conn != tr[j + 1].link.conn {
      ConnGrows(cfg, tr, acts, k, j);
    }
    NothingHeld(cfg, tr, acts, j + 1, tr[j + 1].link.conn);
  }

  /** The buffer is as long as what is held back says. */
  ghost predicate Accounted(tr: seq<State>, acts: seq<Action>, j: nat)
    requires j <= |acts| && |tr| == |acts| + 1
  {
    tr[j].running && !BeingClosed(tr[j]) ==> |tr[j].link.buffer| == HeldBack(tr, acts, j, tr[j].link.conn)
  }

  lemma AccountedNext(cfg: Config, tr: seq<State>, acts: seq<Action>, j: nat)
    requires IsRun(cfg, tr, acts) && j < |acts| && Accounted(tr, acts, j)
    ensures Accounted(tr, acts, j + 1)
  {
    if tr[j + 1].running && !BeingClosed(tr[j + 1]) {
      if tr[j + 1].link.conn != tr[j].link.conn {
        NewStartsEmpty(cfg, tr, acts, j);
      } else {
        InvAlways(cfg, tr, acts, j);
        RunningBefore(cfg, tr, acts, j);
        StepAdds(tr[j], acts[j]);
      }
    }
  }

  /** The length law: in every run, the buffer of a connection in use holds exactly what was
      received on it and not taken. */
  lemma {:induction false} BufferIsHeldBack(cfg: Config, tr: seq<State>, acts: seq<Action>, j: nat)
    requires IsRun(cfg, tr, acts) && j < |tr|
    ensures Accounted(tr, acts, j)
  {
    if j > 0 {
      BufferIsHeldBack(cfg, tr, acts, j - 1);
      AccountedNext(cfg, tr, acts, j - 1);
    }
  }

  // ---------------------------------------------------------------- since the request was written

  predicate Exchanging(s: State) {
    s.running && s.posted != [] && s.posted[0].Await? && s.posted[0].wait.IsExchange()
  }

  /** Step `m` wrote the request whose exchange is under way at `j`, and the buffer has been
      left alone since before that step. */
  ghost predicate SentBy(tr: seq<State>, m: nat, j: nat)
    requires m < j < |tr|
  {
    && |tr[m].link.wire| < |tr[m + 1].link.wire| && tr[m + 1].link.wire == tr[j].link.wire
    && tr[m].link.buffer == tr[j].link.buffer
  }

  /** An exchange goes on without touching the log or the buffer, or it has just begun. */
  lemma ExchangeStep(s: State, a: Action)
    requires Inv(s) && Enabled(s, a) && s.running && Exchanging(Step(s, a))
    ensures var u := Step(s, a);
            && u.link.buffer == s.link.buffer
            && ((Exchanging(s) && u.link.wire == s.link.wire) || |s.link.wire| < |u.link.wire|)
  {
    if a.Fire? {
      if s.posted[0].Await? {
        AwaitExchange(s, a);
      } else {
        StartExchange(s, a);
      }
    }
  }

  lemma StartExchange(s: State, a: Action)
    requires Inv(s) && Enabled(s, a) && a.Fire? && !s.posted[0].Await? && s.running && Exchanging(Step(s, a))
    ensures Step(s, a).link.buffer == s.link.buffer && |s.link.wire| < |Step(s, a).link.wire|
  {
    match s.posted[0]
    case ProcessTask =>
    case AdvanceTask =>
    case Retry(_) =>
  }

  /** An operation that leads on to an exchange, or is one, has not touched the buffer. */
  predicate LeadsOn(l: Link, w: Wait, r: (Link, Progress)) {
    && (r.1.Pending? && r.1.wait.IsExchange() ==> w.ExWrite? && r.0.wire == l.wire && r.0.buffer == l.buffer)
    && (r.1 == Connected(Ok) ==> |l.wire| <= |r.0.wire| && r.0.buffer == l.buffer)
  }

  lemma DialLeadsOn(l: Link, id: nat, net: Net)
    ensures LeadsOn(l, Dial, OnDial(l, id, net))
  {
    if net.code == Ok {
      match l.cfg.kind
      case Tcp =>
      case Ssl =>
      case Tunnel =>
    }
  }

  lemma ContinueLeadsOn(l: Link, w: Wait, id: nat, net: Net)
    requires Plausible(l, net)
    ensures LeadsOn(l, w, Continue(l, w, id, net))
  {
    match w
    case Resolve =>
    case Dial => DialLeadsOn(l, id, net);
    case ProxyWrite =>
    case ProxyRead =>
    case Handshake =>
    case ExWrite =>
    case ExRead =>
    case Shutdown =>
    case ClosePosted =>
  }

  lemma DeliverLeadsOn(l: Link, w: Wait, id: nat, net: Net)
    requires Plausible(l, net)
    ensures LeadsOn(l, w, Deliver(l, w, id, net))
  {
    if w.OnStream(l.cfg.kind) && l.expired {
      ContinueLeadsOn(l.(expired := false), w, id, net.(code := StreamTimeout));
    } else {
      ContinueLeadsOn(l, w, id, net);
    }
  }

  lemma SettleSends(s: State, op: Op, p: Progress)
    requires s.posted == []
    ensures Exchanging(OpSettle(s, op, p)) ==>
              || (p.Pending? && p.wait.IsExchange() && OpSettle(s, op, p).link.wire == s.link.wire)
              || (p == Connected(Ok) && |OpSettle(s, op, p).link.wire| == |s.link.wire| + 1)
  {
  }

  lemma AwaitExchange(s: State, a: Action)
    requires Inv(s) && Enabled(s, a) && a.Fire? && s.posted[0].Await? && s.running && Exchanging(Step(s, a))
    ensures var u := Step(s, a);
            && u.link.buffer == s.link.buffer
            && ((Exchanging(s) && u.link.wire == s.link.wire) || |s.link.wire| < |u.link.wire|)
  {
    var w, op := s.posted[0].wait, s.posted[0].op;
    DeliverLeadsOn(s.link, w, op.task, a.net);
    var (l, p) := Deliver(s.link, w, op.task, a.net);
    var u := s.(posted := [], link := l);
    assert u == s.(posted := Without(s.posted, 0), link := l);
    SettleKeeps(u, op, p);
    SettleSends(u, op, p);
  }

  lemma {:induction false} ExchangeWasSent(cfg: Config, tr: seq<State>, acts: seq<Action>, j: nat)
    requires IsRun(cfg, tr, acts) && j < |tr| && Exchanging(tr[j])
    ensures exists m | 0 <= m < j :: SentBy(tr, m, j)
  {
    if j > 0 {
      InvAlways(cfg, tr, acts, j - 1);
      RunningBefore(cfg, tr, acts, j - 1);
      ExchangeStep(tr[j - 1], acts[j - 1]);
      if Exchanging(tr[j - 1]) && tr[j].link.wire == tr[j - 1].link.wire {
        ExchangeWasSent(cfg, tr, acts, j - 1);
        var m :| 0 <= m < j - 1 && SentBy(tr, m, j - 1);
        assert SentBy(tr, m, j);
      } else {
        assert SentBy(tr, j - 1, j);
      }
    }
  }

  /** The log ends with the write of the request that is being exchanged. */
  lemma EndsWithWrite(cfg: Config, tr: seq<State>, acts: seq<Action>, j: nat)
    requires IsRun(cfg, tr, acts) && j < |tr| && Exchanging(tr[j])
    ensures Ends(tr[j].link.wire, Written(tr[j].link.conn, tr[j].link.gen, tr[j].posted[0].op.task))
  {
    OrderedKept();
    Always(Ordered, cfg, tr, acts, j);
  }

  // ---------------------------------------------------------------- responses

  function Least(x: int, y: int): int {
    if x < y then x else y
  }

  /** The first `n` bytes of the response were in the buffer before step `m`, which wrote its
      request; the others came in with the read. */
  ghost predicate EarlyPart(tr: seq<State>, acts: seq<Action>, m: nat, j: nat, n: int)
    requires m < j < |acts| <= |tr| && Answers(tr[j], acts[j])
  {
    var body := Body(tr[j], acts[j]);
    && SentBy(tr, m, j) && 0 <= n <= |body| && n <= |tr[m].link.buffer|
    && body[..n] == tr[m].link.buffer[..n]
    && (n < |body| ==> n == |tr[m].link.buffer|)
  }

  /** The exact law: the part of a response that came in before its request was written is what
      was held back on the connection, as far as the response reaches. */
  lemma EarlyBytesExactly(cfg: Config, tr: seq<State>, acts: seq<Action>, j: nat)
    requires IsRun(cfg, tr, acts) && j < |acts| && Answers(tr[j], acts[j])
    ensures Ends(tr[j].link.wire, Written(tr[j].link.conn, tr[j].link.gen, tr[j].posted[0].op.task))
    ensures |tr[j].link.buffer| == HeldBack(tr, acts, j, tr[j].link.conn)
    ensures exists m | 0 <= m < j ::
              EarlyPart(tr, acts, m, j, Least(acts[j].net.consumed, HeldBack(tr, acts, j, tr[j].link.conn)))
  {
    EndsWithWrite(cfg, tr, acts, j);
    BufferIsHeldBack(cfg, tr, acts, j);
    ExchangeWasSent(cfg, tr, acts, j);
    var m :| 0 <= m < j && SentBy(tr, m, j);
    EarlyIs(tr, acts, m, j, HeldBack(tr, acts, j, tr[j].link.conn));
  }

  /** So a response starts with such a byte if and only if it contains anything and anything was
      held back. */
  lemma StartsEarlyIff(cfg: Config, tr: seq<State>, acts: seq<Action>, j: nat)
    requires IsRun(cfg, tr, acts) && j < |acts| && Answers(tr[j], acts[j])
    ensures (exists m, n | 0 <= m < j :: n > 0 && EarlyPart(tr, acts, m, j, n)) <==>
              acts[j].net.consumed > 0 && HeldBack(tr, acts, j, tr[j].link.conn) > 0
  {
    EarlyBytesExactly(cfg, tr, acts, j);
  }

  lemma EarlyIs(tr: seq<State>, acts: seq<Action>, m: nat, j: nat, held: int)
    requires m < j < |acts| <= |tr| && Answers(tr[j], acts[j]) && SentBy(tr, m, j) && |tr[j].link.buffer| == held
    ensures EarlyPart(tr, acts, m, j, Least(acts[j].net.consumed, held))
  {
  }
}
