/**
  Bytes read in the clear from a proxy: when they are left in the buffer, and which responses
  they end up in.
 */
module ProxyBytes {
  import opened ErrorCodes
  import opened Transports
  import opened Protocol
  import opened Invariants
  import opened Moves
  import opened Runs
  import opened Streams
  import opened Buffers
  import opened Theorems
  import opened Retries

  /** The pending operation of a running session resumes from wait `w` in this step. */
  predicate Resumes(s: State, a: Action, w: Wait) {
    s.running && a.Fire? && Enabled(s, a) && s.posted != [] && s.posted[0].Await? && s.posted[0].wait == w
  }

  /** The proxy's answer comes with more than its parser takes, and the stream stays in use:
      the tunnel was accepted, or the read was reported as aborted. */
  predicate Leaves(s: State, a: Action) {
    && Resumes(s, a, ProxyRead)
    && (Heard(s, a.net) == Aborted || (Heard(s, a.net) == Ok && a.net.welcome))
    && a.net.consumed < |s.link.buffer| + a.net.received
  }

  /** How many bytes are then left over. */
  function Surplus(s: State, a: Action): nat
    requires Leaves(s, a)
  {
    |s.link.buffer| + a.net.received - a.net.consumed
  }

  predicate HasClear(bs: seq<Byte>) {
    exists i | 0 <= i < |bs| :: bs[i].plain
  }

  /** The first `n` bytes were read in the clear, and no others. */
  predicate ClearFirst(bs: seq<Byte>, n: nat) {
    n <= |bs| && forall i | 0 <= i < |bs| :: bs[i].plain <==> i < n
  }

  // ---------------------------------------------------------------- the proxy's answer

  lemma ProxyAnswer(l: Link, id: nat, net: Net)
    requires Plausible(l, net) && l.buffer == []
    ensures var (u, p) := Deliver(l, ProxyRead, id, net);
            var heard := if l.expired then StreamTimeout else net.code;
            && ClearFirst(u.buffer, net.received - net.consumed) && |u.buffer| == net.received - net.consumed
            && p == if heard == Ok && net.welcome then Pending(Handshake)
                    else Connected(if heard == Ok then Refused else heard)
  {
  }

  lemma ProxyStep(s: State, a: Action)
    requires Inv(s) && Resumes(s, a, ProxyRead) && s.link.buffer == []
    ensures var u := Step(s, a);
            && (Leaves(s, a) <==> u.running && u.link.buffer != [])
            && (Leaves(s, a) ==>
                  u.link.conn == s.link.conn && InUse(u) && ClearFirst(u.link.buffer, Surplus(s, a)))
  {
    var op := s.posted[0].op;
    DeliverShape(s.link, ProxyRead, op.task, a.net);
    ProxyAnswer(s.link, op.task, a.net);
    assert s.(posted := Without(s.posted, 0)) == s.(posted := []);
  }

  lemma NothingBefore(cfg: Config, tr: seq<State>, acts: seq<Action>, i: nat)
    requires IsRun(cfg, tr, acts) && i < |acts| && Resumes(tr[i], acts[i], ProxyRead)
    ensures Inv(tr[i]) && tr[i].link.buffer == []
  {
    InvAlways(cfg, tr, acts, i);
    BuffersPure(cfg, tr, acts, i);
  }

  /** Of all the ways in which the proxy's answer can come in, these leave something in the
      buffer of a session that goes on, all of it read in the clear. */
  lemma ProxyLeavesIff(cfg: Config, tr: seq<State>, acts: seq<Action>, i: nat)
    requires IsRun(cfg, tr, acts) && i < |acts| && Resumes(tr[i], acts[i], ProxyRead)
    ensures Leaves(tr[i], acts[i]) <==> tr[i + 1].running && tr[i + 1].link.buffer != []
    ensures Leaves(tr[i], acts[i]) ==>
              && tr[i + 1].link.conn == tr[i].link.conn && InUse(tr[i + 1])
              && ClearFirst(tr[i + 1].link.buffer, Surplus(tr[i], acts[i]))
  {
    NothingBefore(cfg, tr, acts, i);
    ProxyStep(tr[i], acts[i]);
  }

  // ---------------------------------------------------------------- from then on

  /** The stream is past the proxy and not being closed. */
  predicate InUse(s: State) {
    s.posted == [] || !HasOp(s.posted[0]) ||
    (s.posted[0].Await? && (s.posted[0].wait.Handshake? || s.posted[0].wait.IsExchange()))
  }

  predicate BeingClosed(s: State) {
    s.posted != [] && (s.posted[0].Retry? || (s.posted[0].Await? && s.posted[0].wait.IsClose()))
  }

  function Minus(n: nat, k: nat): nat {
    if k < n then n - k else 0
  }

  /** What this step takes out of the buffer for a response, delivered or not. */
  function TakenBy(s: State, a: Action): nat {
    if Resumes(s, a, ExRead) then a.net.consumed else 0
  }

  /** ... and the steps from `i` to `j` together. */
  ghost function Taken(tr: seq<State>, acts: seq<Action>, i: nat, j: nat): nat
    requires i <= j <= |acts| <= |tr|
  {
    if i == j then 0 else Taken(tr, acts, i, j - 1) + TakenBy(tr[j - 1], acts[j - 1])
  }

  lemma ReadClears(l: Link, id: nat, net: Net, n: nat)
    requires Plausible(l, net) && ClearFirst(l.buffer, n)
    ensures ClearFirst(Deliver(l, ExRead, id, net).0.buffer, Minus(n, net.consumed))
  {
  }

  lemma ReadStep(s: State, a: Action, n: nat)
    requires Inv(s) && Resumes(s, a, ExRead) && ClearFirst(s.link.buffer, n)
    ensures var u := Step(s, a);
            u.running ==> (BeingClosed(u) || InUse(u)) && ClearFirst(u.link.buffer, Minus(n, a.net.consumed))
  {
    var op := s.posted[0].op;
    DeliverShape(s.link, ExRead, op.task, a.net);
    ReadClears(s.link, op.task, a.net, n);
    var (l, p) := Deliver(s.link, ExRead, op.task, a.net);
    SettleUses(s.(posted := [], link := l), op, p);
    assert s.(posted := Without(s.posted, 0)) == s.(posted := []);
  }

  lemma IdleStep(s: State, a: Action)
    requires Inv(s) && Enabled(s, a) && s.running && Step(s, a).running && a.Fire? && !HasOp(s.posted[0])
    ensures var u := Step(s, a); u.link.conn == s.link.conn ==> InUse(u) && u.link.buffer == s.link.buffer
  {
  }

  lemma WaitStep(s: State, a: Action)
    requires Inv(s) && Enabled(s, a) && s.running && Step(s, a).running && a.Fire?
    requires s.posted[0].Await? && (s.posted[0].wait.Handshake? || s.posted[0].wait.ExWrite?)
    ensures var u := Step(s, a); BeingClosed(u) || (InUse(u) && u.link.buffer == s.link.buffer)
  {
    var w, op := s.posted[0].wait, s.posted[0].op;
    DeliverShape(s.link, w, op.task, a.net);
    var (l, p) := Deliver(s.link, w, op.task, a.net);
    SettleUses(s.(posted := [], link := l), op, p);
    assert s.(posted := Without(s.posted, 0)) == s.(posted := []);
  }

  /** An op that was past the proxy stays there, closes, or dies. */
  lemma SettleUses(s: State, op: Op, p: Progress)
    requires s.posted == [] && s.running && s.link.running && !p.Closed?
    requires p.Pending? ==> p.wait.Handshake? || p.wait.IsExchange()
    ensures var u := OpSettle(s, op, p);
            u.running ==> (BeingClosed(u) || InUse(u)) && u.link.buffer == s.link.buffer
  {
  }

  lemma UseStep(s: State, a: Action, n: nat)
    requires Inv(s) && Enabled(s, a) && s.running && Step(s, a).running && Step(s, a).link.conn == s.link.conn
    requires InUse(s) && ClearFirst(s.link.buffer, n)
    ensures var u := Step(s, a);
            BeingClosed(u) || (InUse(u) && ClearFirst(u.link.buffer, Minus(n, TakenBy(s, a))))
  {
    if a.Fire? {
      if !HasOp(s.posted[0]) {
        IdleStep(s, a);
      } else if s.posted[0].wait.ExRead? {
        ReadStep(s, a, n);
      } else {
        WaitStep(s, a);
      }
    }
  }

  lemma CloseStep(s: State, a: Action)
    requires Inv(s) && Enabled(s, a) && BeingClosed(s) && s.running && Step(s, a).running
    ensures BeingClosed(Step(s, a)) || Step(s, a).link.conn == s.link.conn + 1
  {
    if a.Fire? && s.posted[0].Await? {
      DeliverShape(s.link, s.posted[0].wait, s.posted[0].op.task, a.net);
    }
  }

  lemma ConnGrows(cfg: Config, tr: seq<State>, acts: seq<Action>, i: nat, j: nat)
    requires IsRun(cfg, tr, acts) && i <= j < |tr|
    ensures tr[i].link.conn <= tr[j].link.conn
  {
    var c := tr[i].link.conn;
    forall v: View, m | c <= v.l.conn && Can(v, m) ensures c <= Apply(v, m).l.conn {
      if m.Hear? {
        DeliverShape(v.l, v.st.w, v.st.op.task, m.net);
      }
    }
    From((v: View) => c <= v.l.conn, cfg, tr, acts, i, j);
  }

  /** What is left over by step `i` stays in front, less what has been taken since. */
  ghost predicate StillThere(tr: seq<State>, acts: seq<Action>, i: nat, j: nat)
    requires |tr| == |acts| + 1 && i < j < |tr| && Leaves(tr[i], acts[i])
  {
    BeingClosed(tr[j]) ||
    (InUse(tr[j]) && ClearFirst(tr[j].link.buffer, Minus(Surplus(tr[i], acts[i]), Taken(tr, acts, i + 1, j))))
  }

  lemma StaysThere(cfg: Config, tr: seq<State>, acts: seq<Action>, i: nat, j: nat)
    requires IsRun(cfg, tr, acts) && i < j < |acts| && Leaves(tr[i], acts[i])
    requires tr[j + 1].running && tr[j + 1].link.conn == tr[j].link.conn && StillThere(tr, acts, i, j)
    ensures StillThere(tr, acts, i, j + 1)
  {
    InvAlways(cfg, tr, acts, j);
    RunningBefore(cfg, tr, acts, j);
    if BeingClosed(tr[j]) {
      CloseStep(tr[j], acts[j]);
    } else {
      UseStep(tr[j], acts[j], Minus(Surplus(tr[i], acts[i]), Taken(tr, acts, i + 1, j)));
    }
  }

  lemma StartsThere(cfg: Config, tr: seq<State>, acts: seq<Action>, i: nat)
    requires IsRun(cfg, tr, acts) && i < |acts| && Leaves(tr[i], acts[i])
    ensures StillThere(tr, acts, i, i + 1)
  {
    ProxyLeavesIff(cfg, tr, acts, i);
  }

  lemma SameBefore(cfg: Config, tr: seq<State>, acts: seq<Action>, i: nat, j: nat)
    requires IsRun(cfg, tr, acts) && i <= j < |acts|
    requires tr[j + 1].running && tr[j + 1].link.conn == tr[i].link.conn
    ensures tr[j].running && tr[j].link.conn == tr[i].link.conn
  {
    RunningBefore(cfg, tr, acts, j);
    ConnGrows(cfg, tr, acts, i, j);
    ConnGrows(cfg, tr, acts, j, j + 1);
  }

  ghost predicate ThereAt(tr: seq<State>, acts: seq<Action>, i: nat, j: nat)
    requires |tr| == |acts| + 1 && i < j < |tr| && Leaves(tr[i], acts[i])
  {
    tr[j].running && tr[j].link.conn == tr[i].link.conn ==> StillThere(tr, acts, i, j)
  }

  lemma OneMore(cfg: Config, tr: seq<State>, acts: seq<Action>, i: nat, j: nat)
    requires IsRun(cfg, tr, acts) && i < j < |acts| && Leaves(tr[i], acts[i]) && ThereAt(tr, acts, i, j)
    ensures ThereAt(tr, acts, i, j + 1)
  {
    if tr[j + 1].running && tr[j + 1].link.conn == tr[i].link.conn {
      SameBefore(cfg, tr, acts, i, j);
      StaysThere(cfg, tr, acts, i, j);
    }
  }

  lemma {:induction false} Remains(cfg: Config, tr: seq<State>, acts: seq<Action>, i: nat, j: nat)
    requires IsRun(cfg, tr, acts) && i < j < |tr| && Leaves(tr[i], acts[i])
    ensures ThereAt(tr, acts, i, j)
    decreases j
  {
    if i + 1 == j {
      StartsThere(cfg, tr, acts, i);
    } else {
      Remains(cfg, tr, acts, i, j - 1);
      OneMore(cfg, tr, acts, i, j - 1);
    }
  }

  // ---------------------------------------------------------------- where it came from

  /** A step that leaves clear bytes behind happened on connection `conn` before `j`. */
  ghost predicate LeftOn(tr: seq<State>, acts: seq<Action>, j: nat, conn: nat)
    requires j <= |acts| <= |tr|
  {
    exists i | 0 <= i < j :: Leaves(tr[i], acts[i]) && tr[i].link.conn == conn
  }

  lemma FilledClear(l: Link, received: nat, consumed: nat)
    requires consumed <= |l.buffer| + received
    ensures HasClear(Filled(l, false, received)[consumed..]) ==> HasClear(l.buffer)
    ensures HasClear(Filled(l, false, received)[..consumed]) ==> HasClear(l.buffer)
  {
    var all := Filled(l, false, received);
    if i :| 0 <= i < |all[consumed..]| && all[consumed..][i].plain {
      assert l.buffer[i + consumed].plain;
    }
    if i :| 0 <= i < |all[..consumed]| && all[..consumed][i].plain {
      assert l.buffer[i].plain;
    }
  }

  lemma ClearComes(s: State, a: Action)
    requires Inv(s) && Pure(ViewOf(s)) && Enabled(s, a) && s.running && Step(s, a).running
    requires HasClear(Step(s, a).link.buffer)
    ensures (Leaves(s, a) || HasClear(s.link.buffer)) && Step(s, a).link.conn == s.link.conn
  {
    if Resumes(s, a, ProxyRead) {
      ProxyStep(s, a);
    } else if a.Fire? && s.posted[0].Await? {
      FilledClear(s.link, a.net.received, a.net.consumed);
      AwaitBuffer(s, a);
    }
  }

  /** What a resumed operation other than the proxy's answer leaves in the buffer. */
  predicate Remaining(l: Link, net: Net, b: seq<Byte>)
    requires Plausible(l, net)
  {
    b == l.buffer || b == [] || b == Filled(l, false, net.received)[net.consumed..]
  }

  lemma DialKeeps(l: Link, id: nat, net: Net)
    ensures OnDial(l, id, net).0.buffer == l.buffer
  {
    if net.code == Ok {
      match l.cfg.kind
      case Tcp =>
      case Ssl =>
      case Tunnel =>
    }
  }

  lemma ResolveKeeps(l: Link, id: nat, net: Net)
    ensures OnResolve(l, id, net).0.buffer == l.buffer
  {
    if net.code == Ok && l.cfg.kind != Tcp && net.setup != Ok {
      match l.cfg.kind
      case Ssl =>
      case Tunnel =>
    }
  }

  lemma ContinueKeeps(l: Link, w: Wait, id: nat, net: Net)
    requires Plausible(l, net) && !w.ProxyRead?
    ensures Remaining(l, net, Continue(l, w, id, net).0.buffer)
  {
    match w
    case Resolve => ResolveKeeps(l, id, net);
    case Dial => DialKeeps(l, id, net);
    case ProxyWrite =>
    case Handshake =>
    case ExWrite =>
    case ExRead =>
    case Shutdown =>
    case ClosePosted =>
  }

  lemma DeliverKeeps(l: Link, w: Wait, id: nat, net: Net)
    requires Plausible(l, net) && !w.ProxyRead?
    ensures Remaining(l, net, Deliver(l, w, id, net).0.buffer)
  {
    if w.OnStream(l.cfg.kind) && l.expired {
      ContinueKeeps(l.(expired := false), w, id, net.(code := StreamTimeout));
    } else {
      ContinueKeeps(l, w, id, net);
    }
  }

  lemma SettleKeeps(s: State, op: Op, p: Progress)
    ensures OpSettle(s, op, p).link.buffer == s.link.buffer && OpSettle(s, op, p).link.conn == s.link.conn
  {
  }

  lemma AwaitBuffer(s: State, a: Action)
    requires Inv(s) && Enabled(s, a) && a.Fire? && s.posted[0].Await? && !s.posted[0].wait.ProxyRead?
    ensures Step(s, a).link.conn == s.link.conn && Remaining(s.link, a.net, Step(s, a).link.buffer)
  {
    var w, op := s.posted[0].wait, s.posted[0].op;
    DeliverShape(s.link, w, op.task, a.net);
    DeliverKeeps(s.link, w, op.task, a.net);
    var (l, p) := Deliver(s.link, w, op.task, a.net);
    SettleKeeps(s.(posted := Without(s.posted, 0), link := l), op, p);
  }

  lemma ClearBefore(cfg: Config, tr: seq<State>, acts: seq<Action>, j: nat)
    requires IsRun(cfg, tr, acts) && j < |acts| && tr[j + 1].running && HasClear(tr[j + 1].link.buffer)
    ensures tr[j].running && tr[j + 1].link.conn == tr[j].link.conn
    ensures Leaves(tr[j], acts[j]) || HasClear(tr[j].link.buffer)
  {
    InvAlways(cfg, tr, acts, j);
    BuffersPure(cfg, tr, acts, j);
    RunningBefore(cfg, tr, acts, j);
    ClearComes(tr[j], acts[j]);
  }

  lemma {:induction false} ClearWasLeft(cfg: Config, tr: seq<State>, acts: seq<Action>, j: nat)
    requires IsRun(cfg, tr, acts) && j < |tr| && tr[j].running && HasClear(tr[j].link.buffer)
    ensures LeftOn(tr, acts, j, tr[j].link.conn)
  {
    if j > 0 {
      ClearBefore(cfg, tr, acts, j - 1);
      if !Leaves(tr[j - 1], acts[j - 1]) {
        ClearWasLeft(cfg, tr, acts, j - 1);
      }
    }
  }

  // ---------------------------------------------------------------- responses

  /** A response is read in this step, and delivered. */
  predicate Answers(s: State, a: Action) {
    Resumes(s, a, ExRead) && Heard(s, a.net) == Ok
  }

  function Body(s: State, a: Action): seq<Byte>
    requires Answers(s, a)
  {
    Filled(s.link, false, a.net.received)[..a.net.consumed]
  }

  /** Bytes that step `i` left over on the connection of step `j` have not all been taken. */
  ghost predicate StillLeft(tr: seq<State>, acts: seq<Action>, i: nat, j: nat)
    requires i < j < |acts| <= |tr|
  {
    && Leaves(tr[i], acts[i]) && tr[i].link.conn == tr[j].link.conn
    && Taken(tr, acts, i + 1, j) < Surplus(tr[i], acts[i])
  }

  lemma LeftInFront(cfg: Config, tr: seq<State>, acts: seq<Action>, i: nat, j: nat)
    requires IsRun(cfg, tr, acts) && i < j < |acts| && Answers(tr[j], acts[j])
    requires Leaves(tr[i], acts[i]) && tr[i].link.conn == tr[j].link.conn
    ensures ClearFirst(tr[j].link.buffer, Minus(Surplus(tr[i], acts[i]), Taken(tr, acts, i + 1, j)))
  {
    Remains(cfg, tr, acts, i, j);
  }

  /** The exact condition: a response contains bytes that were read in the clear if and only if
      it contains anything and some were left over by the proxy's answer on its connection that
      no read has taken since. They then come first. */
  lemma ClearResponseIff(cfg: Config, tr: seq<State>, acts: seq<Action>, j: nat)
    requires IsRun(cfg, tr, acts) && j < |acts| && Answers(tr[j], acts[j])
    ensures HasClear(Body(tr[j], acts[j])) <==>
              acts[j].net.consumed > 0 && exists i | 0 <= i < j :: StillLeft(tr, acts, i, j)
    ensures HasClear(Body(tr[j], acts[j])) ==> Body(tr[j], acts[j])[0].plain
  {
    var body := Body(tr[j], acts[j]);
    if HasClear(body) {
      FilledClear(tr[j].link, acts[j].net.received, acts[j].net.consumed);
      ClearWasLeft(cfg, tr, acts, j);
      var i :| 0 <= i < j && Leaves(tr[i], acts[i]) && tr[i].link.conn == tr[j].link.conn;
      LeftInFront(cfg, tr, acts, i, j);
      assert StillLeft(tr, acts, i, j);
    }
    if i :| acts[j].net.consumed > 0 && 0 <= i < j && StillLeft(tr, acts, i, j) {
      LeftInFront(cfg, tr, acts, i, j);
      assert body[0].plain;
    }
  }

  /** So the first read that takes anything at all starts with such a byte. */
  lemma FirstTakenIsClear(cfg: Config, tr: seq<State>, acts: seq<Action>, i: nat, j: nat)
    requires IsRun(cfg, tr, acts) && i < j < |acts| && Leaves(tr[i], acts[i]) && tr[i].link.conn == tr[j].link.conn
    requires Answers(tr[j], acts[j]) && acts[j].net.consumed > 0 && Taken(tr, acts, i + 1, j) == 0
    ensures Body(tr[j], acts[j])[0].plain
  {
    assert StillLeft(tr, acts, i, j);
    ClearResponseIff(cfg, tr, acts, j);
  }

  // ---------------------------------------------------------------- responses on the wire

  lemma AnswerIsLogged(s: State, a: Action)
    requires Inv(s) && Answers(s, a)
    ensures Step(s, a).link.wire ==
            s.link.wire + [Answered(s.link.conn, s.link.gen, s.posted[0].op.task, Body(s, a))]
  {
  }

  lemma ContinueNoAnswer(l: Link, w: Wait, id: nat, net: Net, n: nat)
    requires Plausible(l, net) && NoAnswerFrom(l.wire, n)
    requires w.ExRead? && net.code == Ok ==> !l.running
    ensures NoAnswerFrom(Continue(l, w, id, net).0.wire, n)
  {
    if w.IsConnect() {
      ConnectLogs(log => NoAnswerFrom(log, n), l, w, id, net);
    }
  }

  lemma DeliverNoAnswer(s: State, a: Action)
    requires Inv(s) && Enabled(s, a) && a.Fire? && s.posted[0].Await? && !Answers(s, a)
    ensures NoAnswerFrom(Deliver(s.link, s.posted[0].wait, s.posted[0].op.task, a.net).0.wire, |s.link.wire|)
  {
    var w, id := s.posted[0].wait, s.posted[0].op.task;
    if w.OnStream(s.link.cfg.kind) && s.link.expired {
      ContinueNoAnswer(s.link.(expired := false), w, id, a.net.(code := StreamTimeout), |s.link.wire|);
    } else {
      ContinueNoAnswer(s.link, w, id, a.net, |s.link.wire|);
    }
  }

  lemma SettleNoAnswer(s: State, op: Op, p: Progress, n: nat)
    requires NoAnswerFrom(s.link.wire, n)
    ensures NoAnswerFrom(OpSettle(s, op, p).link.wire, n) && NoAnswerFrom(OpRun(s, op).link.wire, n)
  {
  }

  lemma StartNoAnswer(s: State, a: Action)
    requires Inv(s) && Enabled(s, a) && a.Fire? && !s.posted[0].Await?
    ensures NoAnswerFrom(Step(s, a).link.wire, |s.link.wire|)
  {
    var u := s.(posted := Without(s.posted, 0));
    match s.posted[0]
    case ProcessTask => SettleNoAnswer(u, Op(u.tasks[0], true, Ok), Closed(Ok), |s.link.wire|);
    case AdvanceTask =>
      if |u.tasks| > 1 {
        SettleNoAnswer(u.(tasks := u.tasks[1..]), Op(u.tasks[1], true, Ok), Closed(Ok), |s.link.wire|);
      }
    case Retry(op) => SettleNoAnswer(u, op, Closed(Ok), |s.link.wire|);
  }

  lemma AwaitNoAnswer(s: State, a: Action)
    requires Inv(s) && Enabled(s, a) && a.Fire? && s.posted[0].Await? && !Answers(s, a)
    ensures NoAnswerFrom(Step(s, a).link.wire, |s.link.wire|)
  {
    DeliverNoAnswer(s, a);
    var (l, p) := Deliver(s.link, s.posted[0].wait, s.posted[0].op.task, a.net);
    SettleNoAnswer(s.(posted := Without(s.posted, 0), link := l), s.posted[0].op, p, |s.link.wire|);
  }

  lemma StopNoAnswer(s: State, a: Action)
    requires Inv(s) && Enabled(s, a) && !a.Fire?
    ensures NoAnswerFrom(Step(s, a).link.wire, |s.link.wire|)
  {
    if a.FireStop? {
      ContinueNoAnswer(s.link, s.stopPosted[a.i], 0, a.net, |s.link.wire|);
    }
  }

  lemma OtherStep(s: State, a: Action)
    requires Inv(s) && Enabled(s, a) && !Answers(s, a)
    ensures NoAnswerFrom(Step(s, a).link.wire, |s.link.wire|)
  {
    if a.Fire? {
      if s.posted[0].Await? {
        AwaitNoAnswer(s, a);
      } else {
        StartNoAnswer(s, a);
      }
    } else {
      StopNoAnswer(s, a);
    }
  }

  /** Step `i` read the response that is entry `k` of the log. */
  ghost predicate ReadBy(tr: seq<State>, acts: seq<Action>, i: nat, k: nat, body: seq<Byte>)
    requires i < |acts| <= |tr|
  {
    Answers(tr[i], acts[i]) && |tr[i].link.wire| == k && body == Body(tr[i], acts[i])
  }

  lemma NewAnswerIsRead(cfg: Config, tr: seq<State>, acts: seq<Action>, j: nat, k: nat)
    requires IsRun(cfg, tr, acts) && j < |acts| && |tr[j].link.wire| <= k < |tr[j + 1].link.wire|
    requires tr[j + 1].link.wire[k].Answered?
    ensures ReadBy(tr, acts, j, k, tr[j + 1].link.wire[k].body) && tr[j].link.conn == tr[j + 1].link.wire[k].conn
  {
    InvAlways(cfg, tr, acts, j);
    NewAnswer(tr[j], acts[j], k);
  }

  lemma {:induction false} EveryAnswerIsRead(cfg: Config, tr: seq<State>, acts: seq<Action>, j: nat, k: nat)
    requires IsRun(cfg, tr, acts) && j < |tr| && k < |tr[j].link.wire| && tr[j].link.wire[k].Answered?
    ensures exists i | 0 <= i < j ::
              ReadBy(tr, acts, i, k, tr[j].link.wire[k].body) && tr[i].link.conn == tr[j].link.wire[k].conn
    decreases j
  {
    if j > 0 {
      WireGrows(cfg, tr, acts, j - 1, j);
      if k < |tr[j - 1].link.wire| {
        EveryAnswerIsRead(cfg, tr, acts, j - 1, k);
      } else {
        NewAnswerIsRead(cfg, tr, acts, j - 1, k);
      }
    }
  }

  lemma NewAnswer(s: State, a: Action, k: nat)
    requires Inv(s) && Enabled(s, a) && |s.link.wire| <= k < |Step(s, a).link.wire|
    requires Step(s, a).link.wire[k].Answered?
    ensures Answers(s, a) && |s.link.wire| == k
    ensures Step(s, a).link.wire[k].body == Body(s, a) && Step(s, a).link.wire[k].conn == s.link.conn
  {
    if Answers(s, a) {
      AnswerIsLogged(s, a);
    } else {
      OtherStep(s, a);
    }
  }

  /** Only if, on the wire: a response with a clear byte comes after a step that left some on
      its connection. */
  lemma ClearOnlyIfLeft(cfg: Config, tr: seq<State>, acts: seq<Action>, j: nat, k: nat)
    requires IsRun(cfg, tr, acts) && j < |tr| && k < |tr[j].link.wire| && tr[j].link.wire[k].Answered?
    requires HasClear(tr[j].link.wire[k].body)
    ensures cfg.kind == Tunnel && LeftOn(tr, acts, j, tr[j].link.wire[k].conn)
  {
    EveryAnswerIsRead(cfg, tr, acts, j, k);
    var i :| 0 <= i < j && ReadBy(tr, acts, i, k, tr[j].link.wire[k].body) && tr[i].link.conn == tr[j].link.wire[k].conn;
    LeftBefore(cfg, tr, acts, i, j);
  }

  lemma LeftBefore(cfg: Config, tr: seq<State>, acts: seq<Action>, i: nat, j: nat)
    requires IsRun(cfg, tr, acts) && i < j <= |acts| && Answers(tr[i], acts[i]) && HasClear(Body(tr[i], acts[i]))
    ensures cfg.kind == Tunnel && LeftOn(tr, acts, j, tr[i].link.conn)
  {
    ClearResponseIff(cfg, tr, acts, i);
    var h :| 0 <= h < i && StillLeft(tr, acts, h, i);
    OnlyTunnelsLeave(cfg, tr, acts, h);
  }

  lemma OnlyTunnelsLeave(cfg: Config, tr: seq<State>, acts: seq<Action>, i: nat)
    requires IsRun(cfg, tr, acts) && i < |acts| && Leaves(tr[i], acts[i])
    ensures cfg.kind == Tunnel
  {
    InvAlways(cfg, tr, acts, i);
    ConfigStays(cfg, tr, acts, i);
  }
}
