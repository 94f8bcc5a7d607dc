/**
  What every handler of the driver makes of the answer it hears: which request it completes and
  with what, what it sends next, and when it takes the session down.
 */
module Laws {
  import opened ErrorCodes
  import opened Transports
  import opened Protocol
  import opened Invariants
  import opened Moves
  import opened Runs
  import opened Ordering
  import opened Buffers
  import opened Retries
  import opened ProxyBytes
  import opened Theorems

  /** The op that waits hears of its operation in this step, of a running session or not. */
  predicate Hears(s: State, a: Action) {
    a.Fire? && Enabled(s, a) && s.posted != [] && s.posted[0].Await?
  }

  /** `u` is `s` after its front task was completed with `code`, and nothing else delivered. */
  predicate Completes(s: State, u: State, code: Code) {
    && s.tasks != [] && u.tasks == s.tasks && u.posted == [AdvanceTask]
    && u.completions == s.completions + [Completion(s.tasks[0], code, true, |u.link.wire|)]
  }

  /** Nothing was delivered; the op goes on waiting for `w`. */
  predicate Awaits(s: State, u: State, w: Wait, op: Op) {
    u.tasks == s.tasks && u.posted == [Await(w, op)] && u.completions == s.completions && u.running == s.running
  }

  lemma StepOfAwait(s: State, a: Action) returns (t: State, p: Progress)
    requires Inv(s) && Hears(s, a)
    ensures var r := Deliver(s.link, s.posted[0].wait, s.posted[0].op.task, a.net);
            t == s.(posted := [], link := r.0) && p == r.1
    ensures Step(s, a) == OpSettle(t, s.posted[0].op, p)
  {
    var r := Deliver(s.link, s.posted[0].wait, s.posted[0].op.task, a.net);
    t, p := s.(posted := [], link := r.0), r.1;
    assert s.(posted := Without(s.posted, 0)) == s.(posted := []);
  }

  // ---------------------------------------------------------------- starting

  /** The task that a posted handler takes up, if it is the front one. */
  lemma StartSends(s: State, a: Action)
    requires Inv(s) && Enabled(s, a) && a.Fire? && s.running && (s.posted[0].ProcessTask? || s.posted[0].Retry?)
    ensures var u := Step(s, a);
            var op := if s.posted[0].Retry? then s.posted[0].op else Op(s.tasks[0], true, Ok);
            && op.task == s.tasks[0] && u.running
            && Awaits(s, u, if s.link.open then ExWrite else Resolve, op)
            && (s.link.open ==>
                  u.link.wire == s.link.wire + [Written(s.link.conn, s.link.gen, s.tasks[0])])
            && (!s.link.open ==>
                  u.link.wire == s.link.wire + [ConnectBegun(s.link.conn + 1, u.link.gen)])
  {
    match s.posted[0]
    case ProcessTask =>
    case Retry(_) =>
  }

  /** A request that is taken up by a running session is sent, or its connect is begun; a posted
      handler never completes it. */
  lemma StartedIsSent(cfg: Config, tr: seq<State>, acts: seq<Action>, i: nat)
    requires IsRun(cfg, tr, acts) && i < |acts| && acts[i].Fire? && tr[i].running
    requires tr[i].posted[0].ProcessTask? || tr[i].posted[0].Retry?
    ensures tr[i].tasks != [] && tr[i + 1].running
    ensures exists op: Op :: op.task == tr[i].tasks[0] && Awaits(tr[i], tr[i + 1], if tr[i].link.open then ExWrite else Resolve, op)
    ensures tr[i + 1].link.wire == tr[i].link.wire +
              [if tr[i].link.open then Written(tr[i].link.conn, tr[i].link.gen, tr[i].tasks[0])
               else ConnectBegun(tr[i].link.conn + 1, tr[i + 1].link.gen)]
  {
    InvAlways(cfg, tr, acts, i);
    StartSends(tr[i], acts[i]);
  }

  /** What a running session does once its front task was completed. */
  predicate Advances(s: State, u: State) {
    && s.tasks != [] && u.tasks == s.tasks[1..] && u.completions == s.completions && u.running
    && (u.tasks == [] ==> u.posted == [] && u.link == s.link)
    && (u.tasks != [] ==>
          && u.posted == [Await(if s.link.open then ExWrite else Resolve, Op(s.tasks[1], true, Ok))]
          && u.link.wire == s.link.wire +
              [if s.link.open then Written(s.link.conn, s.link.gen, s.tasks[1])
               else ConnectBegun(s.link.conn + 1, u.link.gen)])
  }

  lemma AdvanceInStep(s: State, a: Action)
    requires Inv(s) && Enabled(s, a) && a.Fire? && s.running && s.posted[0].AdvanceTask?
    ensures Advances(s, Step(s, a))
  {
  }

  /** The next request is sent, or its connect is begun; with none left the session rests. */
  lemma AdvanceLaw(cfg: Config, tr: seq<State>, acts: seq<Action>, i: nat)
    requires IsRun(cfg, tr, acts) && i < |acts| && acts[i].Fire? && tr[i].running && tr[i].posted[0].AdvanceTask?
    ensures Advances(tr[i], tr[i + 1])
  {
    InvAlways(cfg, tr, acts, i);
    AdvanceInStep(tr[i], acts[i]);
  }

  // ---------------------------------------------------------------- connecting

  function PhaseOf(w: Wait): Phase
    requires w.IsConnect()
  {
    match w
    case Resolve => Resolving
    case Dial => Dialing
    case ProxyWrite => Proxying
    case ProxyRead => Proxying
    case Handshake => Greeting
  }

  /** The connect cannot go on from here: the answer is an error, or a local call is refused on
      the way, or the proxy says no. */
  predicate Fails(kind: Kind, w: Wait, net: Net, phase: Phase, code: Code)
    requires w.IsConnect()
  {
    || (net.code != Ok && phase == PhaseOf(w) && code == net.code)
    || (net.code == Ok && net.setup != Ok && code == net.setup &&
        ((w == Resolve && kind != Tcp && phase == NamingHost) || (w == Dial && kind == Ssl && phase == Tuning)))
    || (net.code == Ok && w == ProxyRead && !net.welcome && phase == Proxying && code == Refused)
  }

  /** The connect can go on from here. */
  predicate Fine(kind: Kind, w: Wait, net: Net)
    requires w.IsConnect()
  {
    && net.code == Ok && (w == ProxyRead ==> net.welcome)
    && ((w == Resolve && kind != Tcp) || (w == Dial && kind == Ssl) ==> net.setup == Ok)
  }

  lemma FineUnlessFails(kind: Kind, w: Wait, net: Net)
    requires w.IsConnect()
    ensures Fine(kind, w, net) <==> forall phase, code :: !Fails(kind, w, net, phase, code)
  {
    if !Fine(kind, w, net) {
      if net.code != Ok {
        assert Fails(kind, w, net, PhaseOf(w), net.code);
      } else if w == ProxyRead {
        assert Fails(kind, w, net, Proxying, Refused);
      } else {
        assert Fails(kind, w, net, if w == Resolve then NamingHost else Tuning, net.setup);
      }
    }
  }

  /** What a connect waits for, from its beginning to its end. */
  function Script(kind: Kind): seq<Wait> {
    match kind
    case Tcp => [Resolve, Dial]
    case Ssl => [Resolve, Dial, Handshake]
    case Tunnel => [Resolve, Dial, ProxyWrite, ProxyRead, Handshake]
  }

  predicate FailedAs(l: Link, w: Wait, id: nat, net: Net, phase: Phase, code: Code, r: (Link, Progress)) {
    && r.1 == Connected(code)
    && Ends(r.0.wire, ConnectFailed(l.conn, id, phase, code)) && l.wire <= r.0.wire
    && r.0.running == l.running
    && (r.0.open <==> l.open && (w == Dial && net.code != Ok ==> net.keepsOpen))
  }

  lemma ResolveFails(l: Link, id: nat, net: Net, phase: Phase, code: Code)
    requires Fails(l.cfg.kind, Resolve, net, phase, code)
    ensures FailedAs(l, Resolve, id, net, phase, code, OnResolve(l, id, net))
  {
    if net.code == Ok {
      match l.cfg.kind
      case Ssl =>
      case Tunnel =>
    }
  }

  lemma DialFails(l: Link, id: nat, net: Net, phase: Phase, code: Code)
    requires Fails(l.cfg.kind, Dial, net, phase, code)
    ensures FailedAs(l, Dial, id, net, phase, code, OnDial(l, id, net))
  {
  }

  lemma ContinueFails(l: Link, w: Wait, id: nat, net: Net, phase: Phase, code: Code)
    requires Plausible(l, net) && w.IsConnect() && Fails(l.cfg.kind, w, net, phase, code)
    ensures FailedAs(l, w, id, net, phase, code, Continue(l, w, id, net))
  {
    match w
    case Resolve => ResolveFails(l, id, net, phase, code);
    case Dial => DialFails(l, id, net, phase, code);
    case ProxyWrite =>
    case ProxyRead =>
    case Handshake =>
  }

  /** The next wait of the script, or after the last one a connection that is established. */
  predicate WentOn(l: Link, k: nat, r: (Link, Progress))
    requires k < |Script(l.cfg.kind)|
  {
    && r.0.open == (l.open || k == 0) && r.0.running == l.running && r.0.conn == l.conn && r.0.gen == l.gen
    && (if k + 1 < |Script(l.cfg.kind)| then r.1 == Pending(Script(l.cfg.kind)[k + 1])
        else r.1 == Connected(Ok) && Ends(r.0.wire, Established(l.conn)))
  }

  lemma ResolveGoesOn(l: Link, id: nat, net: Net)
    requires Fine(l.cfg.kind, Resolve, net)
    ensures WentOn(l, 0, OnResolve(l, id, net))
  {
  }

  lemma DialGoesOn(l: Link, id: nat, net: Net)
    requires Fine(l.cfg.kind, Dial, net)
    ensures WentOn(l, 1, OnDial(l, id, net))
  {
    match l.cfg.kind
    case Tcp =>
    case Ssl =>
    case Tunnel =>
  }

  lemma ContinueGoesOn(l: Link, w: Wait, id: nat, net: Net, k: nat)
    requires Plausible(l, net) && k < |Script(l.cfg.kind)| && w == Script(l.cfg.kind)[k] && Fine(l.cfg.kind, w, net)
    ensures WentOn(l, k, Continue(l, w, id, net))
  {
    match w
    case Resolve => ResolveGoesOn(l, id, net);
    case Dial => DialGoesOn(l, id, net);
    case ProxyWrite =>
    case ProxyRead =>
    case Handshake =>
  }

  /** A connect of a running session fails in this step. */
  predicate ConnectFails(s: State, a: Action, phase: Phase, code: Code) {
    && s.running && Hears(s, a) && s.posted[0].wait.IsConnect()
    && Fails(s.link.cfg.kind, s.posted[0].wait, a.net.(code := Heard(s, a.net)), phase, code)
  }

  lemma DeliverFails(s: State, a: Action, phase: Phase, code: Code)
    requires Inv(s) && ConnectFails(s, a, phase, code)
    ensures FailedAs(s.link, s.posted[0].wait, s.tasks[0], a.net.(code := Heard(s, a.net)), phase, code,
                     Deliver(s.link, s.posted[0].wait, s.tasks[0], a.net))
  {
    var l := if s.posted[0].wait.OnStream(s.link.cfg.kind) && s.link.expired then s.link.(expired := false) else s.link;
    ContinueFails(l, s.posted[0].wait, s.tasks[0], a.net.(code := Heard(s, a.net)), phase, code);
  }

  lemma FailureCompletes(s: State, a: Action, phase: Phase, code: Code)
    requires Inv(s) && ConnectFails(s, a, phase, code)
    ensures var u := Step(s, a);
            && Ends(u.link.wire, ConnectFailed(s.link.conn, s.tasks[0], phase, code))
            && Completes(s, u, code) && (u.running <==> code == Aborted)
            && (u.link.open <==> s.link.open && (s.posted[0].wait == Dial && Heard(s, a.net) != Ok ==> a.net.keepsOpen))
  {
    DeliverFails(s, a, phase, code);
    var t, p := StepOfAwait(s, a);
  }

  /** A connect that fails, in whichever phase and for whichever reason, completes its task with
      that very code, logs it, and takes the session down unless it was an abort. */
  lemma ConnectFailureIsFinal(cfg: Config, tr: seq<State>, acts: seq<Action>, i: nat, phase: Phase, code: Code)
    requires IsRun(cfg, tr, acts) && i < |acts| && ConnectFails(tr[i], acts[i], phase, code)
    ensures tr[i].tasks != [] && Completes(tr[i], tr[i + 1], code)
    ensures Ends(tr[i + 1].link.wire, ConnectFailed(tr[i].link.conn, tr[i].tasks[0], phase, code))
    ensures tr[i + 1].running <==> code == Aborted
    ensures tr[i + 1].link.open <==>
              tr[i].link.open && (tr[i].posted[0].wait == Dial && Heard(tr[i], acts[i].net) != Ok ==> acts[i].net.keepsOpen)
  {
    InvAlways(cfg, tr, acts, i);
    FailureCompletes(tr[i], acts[i], phase, code);
  }

  lemma FitsScript(kind: Kind, w: Wait) returns (k: nat)
    requires w.IsConnect() && WaitFits(kind, w)
    ensures k < |Script(kind)| && Script(kind)[k] == w
  {
    match w
    case Resolve => k := 0;
    case Dial => k := 1;
    case ProxyWrite => k := 2;
    case ProxyRead => k := 3;
    case Handshake => k := if kind == Ssl then 2 else 4;
  }

  /** A connect hears an answer with which it can go on. */
  predicate HearsFine(s: State, a: Action) {
    && Hears(s, a) && s.posted[0].wait.IsConnect()
    && Fine(s.link.cfg.kind, s.posted[0].wait, a.net.(code := Heard(s, a.net)))
  }

  lemma DeliverGoesOn(s: State, a: Action, k: nat)
    requires Inv(s) && HearsFine(s, a) && k < |Script(s.link.cfg.kind)| && s.posted[0].wait == Script(s.link.cfg.kind)[k]
    ensures WentOn(s.link, k, Deliver(s.link, s.posted[0].wait, s.posted[0].op.task, a.net))
  {
    ContinueGoesOn(s.link, s.posted[0].wait, s.posted[0].op.task, a.net, k);
  }

  /** Step `k` of the script leads on to the next, and the last one to the request itself. */
  predicate ScriptGoesOn(s: State, u: State, k: nat)
    requires s.posted != [] && s.posted[0].Await? && k < |Script(s.link.cfg.kind)|
  {
    var script := Script(s.link.cfg.kind);
    && s.posted[0].wait == script[k] && s.tasks != [] && u.running && u.link.conn == s.link.conn
    && Awaits(s, u, if k + 1 < |script| then script[k + 1] else ExWrite, s.posted[0].op)
    && (k + 1 == |script| ==>
          && |u.link.wire| >= 2 && u.link.wire[|u.link.wire| - 2] == Established(s.link.conn)
          && Ends(u.link.wire, Written(s.link.conn, s.link.gen, s.tasks[0])))
  }

  predicate ScriptLeadsOn(s: State, u: State)
    requires s.posted != [] && s.posted[0].Await?
  {
    exists k | 0 <= k < |Script(s.link.cfg.kind)| :: ScriptGoesOn(s, u, k)
  }

  lemma GoesOnInStep(s: State, a: Action, k: nat)
    requires Inv(s) && s.running && HearsFine(s, a)
    requires k < |Script(s.link.cfg.kind)| && s.posted[0].wait == Script(s.link.cfg.kind)[k]
    ensures ScriptGoesOn(s, Step(s, a), k)
  {
    DeliverGoesOn(s, a, k);
    var t, p := StepOfAwait(s, a);
  }

  /** A connect whose answers are fine goes through the script of its kind, and is followed by
      the write of the request it was made for. */
  lemma ConnectGoesOn(cfg: Config, tr: seq<State>, acts: seq<Action>, i: nat)
    requires IsRun(cfg, tr, acts) && i < |acts| && tr[i].running
    requires HearsFine(tr[i], acts[i])
    ensures tr[i].tasks != [] && tr[i].link.cfg == cfg
    ensures ScriptLeadsOn(tr[i], tr[i + 1])
  {
    InvAlways(cfg, tr, acts, i);
    ConfigStays(cfg, tr, acts, i);
    var k := FitsScript(cfg.kind, tr[i].posted[0].wait);
    GoesOnInStep(tr[i], acts[i], k);
  }

  // ---------------------------------------------------------------- exchanging

  lemma ContinueExchange(l: Link, w: Wait, id: nat, net: Net)
    requires Plausible(l, net) && w.IsExchange()
    ensures var (u, p) := Continue(l, w, id, net);
            && u.running == l.running && u.open == l.open && u.conn == l.conn && u.gen == l.gen && u.cfg == l.cfg
            && (net.code == Ok && l.running && w.ExWrite? ==> p == Pending(ExRead) && u == l)
            && (net.code == Ok && l.running && w.ExRead? ==>
                  && p == Exchanged(Ok)
                  && u.responses == l.responses[id := Filled(l, false, net.received)[..net.consumed]]
                  && u.buffer == Filled(l, false, net.received)[net.consumed..]
                  && u.wire == l.wire + [Answered(l.conn, l.gen, id, Filled(l, false, net.received)[..net.consumed])])
            && (net.code == Ok && !l.running ==>
                  p == Exchanged(Aborted) && u.responses == l.responses && u.wire == l.wire + [ExchangeRefused(l.conn, l.gen, id)])
            && (net.code != Ok ==>
                  p == Exchanged(net.code) && u.responses == l.responses && u.wire == l.wire + [ExchangeFailed(l.conn, l.gen, id, net.code)])
  {
  }

  /** What an exchange of a session makes of what it hears. */
  predicate ExchangeSettles(s: State, a: Action, u: State)
    requires Hears(s, a) && s.posted[0].wait.IsExchange()
  {
    var w, op, h := s.posted[0].wait, s.posted[0].op, Heard(s, a.net);
    var body := Filled(s.link, false, a.net.received)[..a.net.consumed];
    var failed := s.link.wire + [ExchangeFailed(s.link.conn, s.link.gen, op.task, h)];
    if !s.running then
      && Completes(s, u, Aborted) && u.link.responses == s.link.responses
      && u.link.wire == if h == Ok then s.link.wire + [ExchangeRefused(s.link.conn, s.link.gen, op.task)] else failed
    else if h == Ok && w == ExWrite then
      Awaits(s, u, ExRead, op) && u.link == s.link
    else if h == Ok then
      && Completes(s, u, Ok) && u.running
      && u.link.responses == s.link.responses[op.task := body]
      && u.link.buffer == Filled(s.link, false, a.net.received)[a.net.consumed..]
      && u.link.wire == s.link.wire + [Answered(s.link.conn, s.link.gen, op.task, body)]
    else if h == Aborted then
      && Completes(s, u, Aborted) && u.running && (u.link.open <==> s.link.open)
      && u.link.responses == s.link.responses && u.link.wire == failed
    else
      && Awaits(s, u, if s.link.open then Shutdown else ClosePosted, op.(lastEc := h))
      && u.link.responses == s.link.responses && u.link.wire == failed && !u.link.running
  }

  lemma DeadTransport(s: State)
    requires Inv(s) && !s.running && s.posted != [] && s.posted[0].Await?
    ensures !s.link.running
  {
  }

  lemma ExchangeInStep(s: State, a: Action)
    requires Inv(s) && Hears(s, a) && s.posted[0].wait.IsExchange()
    ensures ExchangeSettles(s, a, Step(s, a))
  {
    var w, op := s.posted[0].wait, s.posted[0].op;
    var t, p := StepOfAwait(s, a);
    if s.link.expired {
      ContinueExchange(s.link.(expired := false), w, op.task, a.net.(code := StreamTimeout));
    } else {
      ContinueExchange(s.link, w, op.task, a.net);
    }
    if !s.running {
      DeadTransport(s);
    }
  }

  /** In every run: a request that is answered completes with success, its response stored; one
      whose exchange fails is given a close, or completes if it was aborted; and one that was
      stopped completes aborted, with nothing stored. */
  lemma ExchangeLaw(cfg: Config, tr: seq<State>, acts: seq<Action>, i: nat)
    requires IsRun(cfg, tr, acts) && i < |acts| && Hears(tr[i], acts[i]) && tr[i].posted[0].wait.IsExchange()
    ensures ExchangeSettles(tr[i], acts[i], tr[i + 1])
  {
    InvAlways(cfg, tr, acts, i);
    ExchangeInStep(tr[i], acts[i]);
  }

  // ---------------------------------------------------------------- closing

  /** What the op makes of the end of its close, whatever that returned. */
  predicate CloseSettles(s: State, u: State)
    requires s.posted != [] && s.posted[0].Await?
  {
    var op := s.posted[0].op;
    && !u.link.armed && (s.posted[0].wait == Shutdown ==> !u.link.open)
    && u.link.gen == (if s.link.cfg.kind == Tunnel then s.link.gen + 1 else s.link.gen)
    && u.link.wire == s.link.wire && u.link.responses == s.link.responses
    && (if !s.running then Completes(s, u, Aborted)
        else if op.firstRound then
          && u.running && u.completions == s.completions && u.tasks == s.tasks
          && u.posted == [Retry(op.(firstRound := false))]
        else Completes(s, u, op.lastEc) && !u.running)
  }

  lemma ContinueCloses(l: Link, w: Wait, id: nat, net: Net)
    requires Plausible(l, net) && w.IsClose()
    ensures var (u, p) := Continue(l, w, id, net);
            && p.Closed? && p.ec != Aborted && !u.armed && (w == Shutdown ==> !u.open) && u.running == l.running
            && u.gen == (if l.cfg.kind == Tunnel then l.gen + 1 else l.gen)
            && u.wire == l.wire && u.responses == l.responses
  {
  }

  lemma CloseInStep(s: State, a: Action)
    requires Inv(s) && Hears(s, a) && s.posted[0].wait.IsClose()
    ensures CloseSettles(s, Step(s, a))
  {
    if s.posted[0].wait.OnStream(s.link.cfg.kind) && s.link.expired {
      ContinueCloses(s.link.(expired := false), s.posted[0].wait, s.posted[0].op.task, a.net.(code := StreamTimeout));
    } else {
      ContinueCloses(s.link, s.posted[0].wait, s.posted[0].op.task, a.net);
    }
    var t, p := StepOfAwait(s, a);
  }

  lemma CloseLaw(cfg: Config, tr: seq<State>, acts: seq<Action>, i: nat)
    requires IsRun(cfg, tr, acts) && i < |acts| && Hears(tr[i], acts[i]) && tr[i].posted[0].wait.IsClose()
    ensures CloseSettles(tr[i], tr[i + 1])
  {
    InvAlways(cfg, tr, acts, i);
    CloseInStep(tr[i], acts[i]);
  }

  // ---------------------------------------------------------------- after the session went down

  /** A connect that hears of its operation once the session is down goes on with the script, but
      sends nothing at its end: its task completes aborted. */
  predicate DeadConnectSettles(s: State, a: Action, u: State)
    requires Hears(s, a) && s.posted[0].wait.IsConnect()
  {
    var script := Script(s.link.cfg.kind);
    || (HearsFine(s, a) &&
        exists k | 0 <= k < |script| - 1 ::
          script[k] == s.posted[0].wait && Awaits(s, u, script[k + 1], s.posted[0].op))
    || (Completes(s, u, Aborted) && (HearsFine(s, a) ==> s.posted[0].wait == script[|script| - 1]))
  }

  lemma DeadConnectInStep(s: State, a: Action)
    requires Inv(s) && !s.running && Hears(s, a) && s.posted[0].wait.IsConnect()
    ensures DeadConnectSettles(s, a, Step(s, a))
  {
    var t, p := StepOfAwait(s, a);
    var w, kind := s.posted[0].wait, s.link.cfg.kind;
    var net := a.net.(code := Heard(s, a.net));
    if HearsFine(s, a) {
      var k := FitsScript(kind, w);
      DeliverGoesOn(s, a, k);
    } else {
      FineUnlessFails(kind, w, net);
      var phase, code :| Fails(kind, w, net, phase, code);
      DeadDeliverFails(s, a, phase, code);
    }
  }

  lemma DeadDeliverFails(s: State, a: Action, phase: Phase, code: Code)
    requires Inv(s) && Hears(s, a) && s.posted[0].wait.IsConnect()
    requires Fails(s.link.cfg.kind, s.posted[0].wait, a.net.(code := Heard(s, a.net)), phase, code)
    ensures Deliver(s.link, s.posted[0].wait, s.posted[0].op.task, a.net).1 == Connected(code)
  {
    var w := s.posted[0].wait;
    var l := if w.OnStream(s.link.cfg.kind) && s.link.expired then s.link.(expired := false) else s.link;
    ContinueFails(l, w, s.posted[0].op.task, a.net.(code := Heard(s, a.net)), phase, code);
  }

  /** A handler that was posted when the session went down completes its task aborted, or all
      that are queued, without touching the transport. */
  lemma DeadStart(s: State, a: Action)
    requires Inv(s) && !s.running && Enabled(s, a) && a.Fire? && !s.posted[0].Await?
    ensures var u := Step(s, a);
            && u.link == s.link
            && (if s.posted[0].AdvanceTask? then
                  && u.tasks == [] && u.posted == []
                  && u.completions == s.completions + Cancelled(s.tasks[1..], |s.link.wire|)
                else Completes(s, u, Aborted))
  {
    match s.posted[0]
    case ProcessTask =>
    case AdvanceTask =>
    case Retry(_) =>
  }

  lemma DeadLaw(cfg: Config, tr: seq<State>, acts: seq<Action>, i: nat)
    requires IsRun(cfg, tr, acts) && i < |acts| && !tr[i].running && acts[i].Fire?
    ensures !tr[i].posted[0].Await? ==> tr[i + 1].link == tr[i].link
    ensures tr[i].posted[0].AdvanceTask? ==>
              && tr[i].tasks != [] && tr[i + 1].tasks == []
              && tr[i + 1].completions == tr[i].completions + Cancelled(tr[i].tasks[1..], |tr[i].link.wire|)
    ensures tr[i].posted[0].ProcessTask? || tr[i].posted[0].Retry? ==> Completes(tr[i], tr[i + 1], Aborted)
    ensures Hears(tr[i], acts[i]) && tr[i].posted[0].wait.IsConnect() ==> DeadConnectSettles(tr[i], acts[i], tr[i + 1])
  {
    InvAlways(cfg, tr, acts, i);
    if !tr[i].posted[0].Await? {
      DeadStart(tr[i], acts[i]);
    } else if tr[i].posted[0].wait.IsConnect() {
      DeadConnectInStep(tr[i], acts[i]);
    }
  }

  // ---------------------------------------------------------------- who completes, and why

  /** The reasons for which a request completes with `code` while its session runs: a connect
      that fails, an answer, an exchange that is aborted, or the close after a second failure. */
  predicate HasReason(s: State, a: Action, code: Code) {
    && s.running && Hears(s, a)
    && (if s.posted[0].wait.IsConnect() then exists phase :: ConnectFails(s, a, phase, code)
        else if s.posted[0].wait.IsClose() then !s.posted[0].op.firstRound && code == s.posted[0].op.lastEc
        else code == Heard(s, a.net) && (code == Aborted || (code == Ok && s.posted[0].wait == ExRead)))
  }

  lemma ReasonCompletes(s: State, a: Action, code: Code)
    requires Inv(s) && HasReason(s, a, code)
    ensures Completes(s, Step(s, a), code)
  {
    if s.posted[0].wait.IsConnect() {
      var phase :| ConnectFails(s, a, phase, code);
      FailureCompletes(s, a, phase, code);
    } else if s.posted[0].wait.IsClose() {
      CloseInStep(s, a);
    } else {
      ExchangeInStep(s, a);
    }
  }

  lemma NoReasonNoCompletion(s: State, a: Action)
    requires Inv(s) && s.running && Hears(s, a) && forall code :: !HasReason(s, a, code)
    ensures Step(s, a).completions == s.completions && Step(s, a).running
  {
    var w, kind := s.posted[0].wait, s.link.cfg.kind;
    if w.IsConnect() {
      forall phase, code ensures !Fails(kind, w, a.net.(code := Heard(s, a.net)), phase, code) {
        assert !HasReason(s, a, code);
        assert !ConnectFails(s, a, phase, code);
      }
      FineUnlessFails(kind, w, a.net.(code := Heard(s, a.net)));
      var k := FitsScript(kind, w);
      GoesOnInStep(s, a, k);
    } else if w.IsClose() {
      assert !HasReason(s, a, s.posted[0].op.lastEc);
      CloseInStep(s, a);
    } else {
      assert !HasReason(s, a, Heard(s, a.net));
      ExchangeInStep(s, a);
    }
  }

  lemma OthersCompleteNothing(s: State, a: Action)
    requires Inv(s) && Enabled(s, a) && s.running && !Hears(s, a)
    ensures Step(s, a).completions == s.completions && (Step(s, a).running <==> !a.Stop?)
  {
    if a.Fire? {
      match s.posted[0]
      case ProcessTask =>
      case AdvanceTask =>
      case Retry(_) =>
    }
  }

  lemma CompletesForReason(s: State, a: Action)
    requires Inv(s) && Enabled(s, a) && s.running
    ensures Step(s, a).completions == s.completions ||
              exists code :: HasReason(s, a, code) && Completes(s, Step(s, a), code)
  {
    if !Hears(s, a) {
      OthersCompleteNothing(s, a);
    } else if code :| HasReason(s, a, code) {
      ReasonCompletes(s, a, code);
    } else {
      NoReasonNoCompletion(s, a);
    }
  }

  lemma SameCode(s: State, a: Action, u: State, code: Code)
    requires Completes(s, u, code)
    requires u.completions == s.completions || exists c :: HasReason(s, a, c) && Completes(s, u, c)
    ensures HasReason(s, a, code)
  {
    assert |u.completions| == |s.completions| + 1;
    var c :| HasReason(s, a, c) && Completes(s, u, c);
    assert u.completions[|s.completions|].code == c;
    assert u.completions[|s.completions|].code == code;
  }

  /** In every run, a step of a running session completes its front task with some code exactly
      when one of those reasons gives that code, and completes nothing otherwise. */
  lemma CompletionIff(cfg: Config, tr: seq<State>, acts: seq<Action>, i: nat, code: Code)
    requires IsRun(cfg, tr, acts) && i < |acts| && tr[i].running
    ensures HasReason(tr[i], acts[i], code) <==> Completes(tr[i], tr[i + 1], code)
    ensures (forall c :: !HasReason(tr[i], acts[i], c)) ==> tr[i + 1].completions == tr[i].completions
  {
    InvAlways(cfg, tr, acts, i);
    CompletesForReason(tr[i], acts[i]);
    if HasReason(tr[i], acts[i], code) {
      ReasonCompletes(tr[i], acts[i], code);
    }
    if Completes(tr[i], tr[i + 1], code) {
      SameCode(tr[i], acts[i], tr[i + 1], code);
    }
  }

  /** So a request that was accepted completes aborted in a running session only when its own
      connect or exchange was reported as aborted in that very step. */
  lemma AbortHasCause(cfg: Config, tr: seq<State>, acts: seq<Action>, i: nat, k: nat)
    requires IsRun(cfg, tr, acts) && i < |acts| && tr[i].running
    requires |tr[i].completions| <= k < |tr[i + 1].completions|
    ensures tr[i].tasks != [] && tr[i + 1].completions[k].id == tr[i].tasks[0] && k == |tr[i].completions|
    ensures tr[i + 1].completions[k].code == Aborted ==>
              Hears(tr[i], acts[i]) && Heard(tr[i], acts[i].net) == Aborted && !tr[i].posted[0].wait.IsClose()
  {
    InvAlways(cfg, tr, acts, i);
    CompletesForReason(tr[i], acts[i]);
    var code :| HasReason(tr[i], acts[i], code) && Completes(tr[i], tr[i + 1], code);
    if code == Aborted {
      AbortIsHeard(tr[i], acts[i]);
    }
  }

  lemma AbortIsHeard(s: State, a: Action)
    requires Inv(s) && HasReason(s, a, Aborted)
    ensures Heard(s, a.net) == Aborted && !s.posted[0].wait.IsClose()
  {
  }

  // ---------------------------------------------------------------- when nothing goes wrong

  /** The answer in this step, if any, is no fault, and the session is not stopped. */
  predicate Faultless(s: State, a: Action) {
    && !a.Stop?
    && (Hears(s, a) && s.posted[0].wait.IsConnect() ==> HearsFine(s, a))
    && (Hears(s, a) && s.posted[0].wait.IsExchange() ==> Heard(s, a.net) == Ok)
  }

  /** Nothing has gone wrong so far. */
  predicate Spotless(s: State) {
    && s.running && (forall e | e in s.posted :: !e.Retry? && (e.Await? ==> !e.wait.IsClose()))
    && forall c | c in s.completions :: c.accepted && c.code == Ok
  }

  /** A step goes on waiting, or completes with success. */
  ghost predicate GoesWell(s: State, u: State) {
    u.running && ((exists w, op :: Awaits(s, u, w, op) && !w.IsClose()) || Completes(s, u, Ok))
  }

  lemma StaysSpotless(s: State, u: State)
    requires Spotless(s) && GoesWell(s, u)
    ensures Spotless(u)
  {
  }

  lemma ScriptGoesWell(s: State, u: State, k: nat)
    requires s.posted != [] && s.posted[0].Await? && k < |Script(s.link.cfg.kind)| && ScriptGoesOn(s, u, k)
    ensures GoesWell(s, u)
  {
    var script := Script(s.link.cfg.kind);
    assert Awaits(s, u, if k + 1 < |script| then script[k + 1] else ExWrite, s.posted[0].op);
  }

  lemma ExchangeGoesWell(s: State, a: Action, u: State)
    requires Hears(s, a) && s.running && s.posted[0].wait.IsExchange() && Heard(s, a.net) == Ok && ExchangeSettles(s, a, u)
    ensures GoesWell(s, u)
  {
    assert s.posted[0].wait == ExWrite ==> Awaits(s, u, ExRead, s.posted[0].op);
  }

  lemma FaultlessHearing(s: State, a: Action)
    requires Inv(s) && Spotless(s) && Hears(s, a) && Faultless(s, a)
    ensures Spotless(Step(s, a))
  {
    assert s.posted[0] in s.posted;
    if s.posted[0].wait.IsConnect() {
      var k := FitsScript(s.link.cfg.kind, s.posted[0].wait);
      GoesOnInStep(s, a, k);
      ScriptGoesWell(s, Step(s, a), k);
    } else {
      ExchangeInStep(s, a);
      ExchangeGoesWell(s, a, Step(s, a));
    }
    StaysSpotless(s, Step(s, a));
  }

  lemma FaultlessRest(s: State, a: Action)
    requires Inv(s) && Enabled(s, a) && Spotless(s) && !Hears(s, a) && Faultless(s, a)
    ensures Spotless(Step(s, a))
  {
    OthersCompleteNothing(s, a);
    if a.Fire? {
      assert s.posted[0] in s.posted;
      match s.posted[0]
      case ProcessTask =>
      case AdvanceTask =>
    }
  }

  lemma FaultlessNext(cfg: Config, tr: seq<State>, acts: seq<Action>, i: nat)
    requires IsRun(cfg, tr, acts) && i < |acts| && Faultless(tr[i], acts[i]) && Spotless(tr[i])
    ensures Spotless(tr[i + 1])
  {
    InvAlways(cfg, tr, acts, i);
    if Hears(tr[i], acts[i]) {
      FaultlessHearing(tr[i], acts[i]);
    } else {
      FaultlessRest(tr[i], acts[i]);
    }
  }

  /** In a run without faults and stops every request is accepted, and completes with success. */
  lemma {:induction false} FaultlessRunsSucceed(cfg: Config, tr: seq<State>, acts: seq<Action>, i: nat)
    requires IsRun(cfg, tr, acts) && i < |tr| && forall k | 0 <= k < i :: Faultless(tr[k], acts[k])
    ensures Spotless(tr[i])
  {
    if i > 0 {
      FaultlessRunsSucceed(cfg, tr, acts, i - 1);
      FaultlessNext(cfg, tr, acts, i - 1);
    }
  }
}
