/** The inductive invariant of the session protocol, and that every step keeps it. */
module Invariants {
  import opened ErrorCodes
  import opened Transports
  import opened Protocol

  // ---------------------------------------------------------------- vocabulary

  /** The ids completed for accepted requests, in the order of their completions. */
  function Done(cs: seq<Completion>): (ids: seq<nat>) {
    if cs == [] then []
    else
      var c := cs[|cs| - 1];
      Done(cs[..|cs| - 1]) + (if c.accepted then [c.id] else [])
  }

  /** The ids of the pushes that were turned away, in order. */
  function Rejected(cs: seq<Completion>): (ids: seq<nat>) {
    if cs == [] then []
    else
      var c := cs[|cs| - 1];
      Rejected(cs[..|cs| - 1]) + (if c.accepted then [] else [c.id])
  }

  predicate Increasing(ids: seq<nat>, bound: nat) {
    (forall i, j | 0 <= i < j < |ids| :: ids[i] < ids[j]) &&
    (forall i | 0 <= i < |ids| :: ids[i] < bound)
  }

  predicate HasOp(e: Event) {
    e.Retry? || e.Await?
  }

  // ---------------------------------------------------------------- the invariant

  /** A non-empty queue has exactly one handler of the driver pending, an empty one none. */
  predicate SingleDriver(s: State) {
    |s.posted| == (if s.tasks == [] then 0 else 1)
  }

  predicate StopConsistent(s: State) {
    && |s.stopPosted| == (if s.stop == Closing then 1 else 0)
    && (forall i | 0 <= i < |s.stopPosted| :: s.stopPosted[i].IsClose())
    && (s.stop == Waiting ==> s.tasks != [])
    && (s.stop == WaitCancelled ==> s.tasks == [])
    && (s.stop != NoStop ==> s.stops > 0)
    && (s.stops > 0 ==> !s.running && !s.link.running)
  }

  /** The waits that a transport of this kind can be in. */
  predicate WaitFits(kind: Kind, w: Wait) {
    && (w.ProxyWrite? || w.ProxyRead? ==> kind == Tunnel)
    && (w.Handshake? ==> kind != Tcp)
  }

  predicate EventShape(s: State, e: Event) {
    && (HasOp(e) ==> s.tasks != [] && e.op.task == s.tasks[0])
    && (e.Await? ==> WaitFits(s.link.cfg.kind, e.wait))
    && (e.Await? && e.wait.IsClose() ==> e.op.lastEc != Ok && e.op.lastEc != Aborted)
    && (e.Retry? ==> !e.op.firstRound)
    && (!e.AdvanceTask? && s.stops == 0 ==> s.running)
  }

  /** The transport's flag and socket against what the driver of a running session does. */
  predicate EventCoherent(l: Link, e: Event) {
    match e
    case ProcessTask => l.running
    case AdvanceTask => l.running
    case Retry(_) => !l.running && !l.open
    case Await(w, _) => WaitCoherent(l, w)
  }

  predicate WaitCoherent(l: Link, w: Wait) {
    if w.IsClose() then !l.running && (w.ClosePosted? ==> !l.open) else l.running
  }

  predicate Coherent(s: State) {
    && (forall i | 0 <= i < |s.posted| :: EventShape(s, s.posted[i]))
    && (s.running ==>
          && (forall i | 0 <= i < |s.posted| :: EventCoherent(s.link, s.posted[i]))
          && (s.posted == [] ==> s.link.running))
  }

  /** How many accepted requests have been completed. */
  function Served(s: State): int {
    |s.accepted| - |s.tasks| + (if AdvanceTask in s.posted then 1 else 0)
  }

  predicate Fifo(s: State) {
    && |s.tasks| <= |s.accepted|
    && s.tasks == s.accepted[|s.accepted| - |s.tasks|..]
    && 0 <= Served(s) <= |s.accepted|
    && Done(s.completions) == s.accepted[..Served(s)]
  }

  predicate Numbered(s: State) {
    && Increasing(s.accepted, s.nextId)
    && Increasing(Rejected(s.completions), s.nextId)
    && (forall id: nat | id < s.nextId :: id in s.accepted <==> id !in Rejected(s.completions))
  }

  predicate Inv(s: State) {
    SingleDriver(s) && StopConsistent(s) && Coherent(s) && Fifo(s) && Numbered(s)
  }

  // ---------------------------------------------------------------- the logs grow at the end

  lemma DoneAppend(cs: seq<Completion>, c: Completion)
    ensures Done(cs + [c]) == Done(cs) + (if c.accepted then [c.id] else [])
    ensures Rejected(cs + [c]) == Rejected(cs) + (if c.accepted then [] else [c.id])
  {
    assert (cs + [c])[..|cs|] == cs;
  }

  lemma {:induction false} CancelledDone(cs: seq<Completion>, ids: seq<nat>, at: nat)
    ensures Done(cs + Cancelled(ids, at)) == Done(cs) + ids
    ensures Rejected(cs + Cancelled(ids, at)) == Rejected(cs)
  {
    if ids == [] {
      assert cs + Cancelled(ids, at) == cs;
    } else {
      var n := |ids| - 1;
      CancelledDone(cs, ids[..n], at);
      assert cs + Cancelled(ids, at) == (cs + Cancelled(ids[..n], at)) + [Completion(ids[n], Aborted, true, at)];
      DoneAppend(cs + Cancelled(ids[..n], at), Completion(ids[n], Aborted, true, at));
      assert ids == ids[..n] + [ids[n]];
    }
  }

  // ---------------------------------------------------------------- the transport in between

  /** An upper bound on the handlers of one round that are still to run, this one included. */
  function StepsLeft(w: Wait): nat {
    match w
    case Resolve => 9
    case Dial => 8
    case ProxyWrite => 7
    case ProxyRead => 6
    case Handshake => 5
    case ExWrite => 4
    case ExRead => 3
    case Shutdown => 2
    case ClosePosted => 2
  }

  /** Where a resumed transport operation can end up: at a later wait of the same operation
      or at its completion. The flag is left alone, and a close never reports Aborted. */
  predicate Shape(l: Link, w: Wait, r: (Link, Progress)) {
    && r.0.cfg == l.cfg && r.0.running == l.running && r.0.conn == l.conn
    && (!w.IsClose() ==> r.0.gen == l.gen)
    && match r.1
       case Pending(w') =>
         WaitFits(l.cfg.kind, w') && StepsLeft(w') < StepsLeft(w) &&
         (if w.IsConnect() then w'.IsConnect() else w.ExWrite? && w'.ExRead?)
       case Connected(_) => w.IsConnect()
       case Exchanged(_) => w.IsExchange()
       case Closed(ec) => w.IsClose() && ec != Aborted && (w.Shutdown? || !l.open ==> !r.0.open)
  }

  lemma ResolveShape(l: Link, id: nat, net: Net)
    ensures Shape(l, Resolve, OnResolve(l, id, net))
  {
  }

  lemma DialShape(l: Link, id: nat, net: Net)
    ensures Shape(l, Dial, OnDial(l, id, net))
  {
    if net.code == Ok {
      match l.cfg.kind
      case Tcp =>
      case Ssl =>
      case Tunnel =>
    }
  }

  lemma ProxyShape(l: Link, id: nat, net: Net)
    requires Plausible(l, net) && l.cfg.kind == Tunnel
    ensures Shape(l, ProxyWrite, OnProxyWrite(l, id, net)) && Shape(l, ProxyRead, OnProxyRead(l, id, net))
  {
  }

  lemma ExchangeShape(l: Link, w: Wait, id: nat, net: Net)
    requires Plausible(l, net) && w.IsExchange()
    ensures Shape(l, w, Continue(l, w, id, net))
  {
  }

  lemma ContinueShape(l: Link, w: Wait, id: nat, net: Net)
    requires Plausible(l, net) && WaitFits(l.cfg.kind, w)
    ensures Shape(l, w, Continue(l, w, id, net))
  {
    if w.Resolve? {
      ResolveShape(l, id, net);
    } else if w.Dial? {
      DialShape(l, id, net);
    } else if w.ProxyWrite? || w.ProxyRead? {
      ProxyShape(l, id, net);
    } else if w.IsExchange() {
      ExchangeShape(l, w, id, net);
    }
  }

  lemma DeliverShape(l: Link, w: Wait, id: nat, net: Net)
    requires Plausible(l, net) && WaitFits(l.cfg.kind, w)
    ensures Shape(l, w, Deliver(l, w, id, net))
  {
    if w.OnStream(l.cfg.kind) && l.expired {
      ContinueShape(l.(expired := false), w, id, net.(code := StreamTimeout));
    } else {
      ContinueShape(l, w, id, net);
    }
  }

  // ---------------------------------------------------------------- preservation

  /** A handler of the driver has been taken off; the queue is still waiting for it. */
  predicate Between(s: State) {
    && s.tasks != [] && s.posted == []
    && StopConsistent(s) && Numbered(s)
    && |s.tasks| <= |s.accepted|
    && s.tasks == s.accepted[|s.accepted| - |s.tasks|..]
  }

  /** ... and the front task has not been completed. */
  predicate Serving(s: State) {
    && Between(s)
    && Done(s.completions) == s.accepted[..|s.accepted| - |s.tasks|]
    && (s.stops == 0 ==> s.running)
  }

  /** Completing the front task moves the line by one. */
  lemma CompleteFifo(s: State, u: State, code: Code)
    requires Serving(s) && u == Complete(s.(running := u.running), s.tasks[0], code)
    ensures Fifo(u) && Rejected(u.completions) == Rejected(s.completions)
  {
    DoneAppend(s.completions, Completion(s.tasks[0], code, true, |s.link.wire|));
    assert s.accepted[|s.accepted| - |s.tasks|] == s.tasks[0];
  }

  lemma CompleteKeeps(s: State, r: bool, code: Code)
    requires Serving(s)
    requires r ==> s.running && s.link.running
    ensures Inv(Complete(s.(running := r), s.tasks[0], code))
  {
    CompleteFifo(s, Complete(s.(running := r), s.tasks[0], code), code);
  }

  lemma PostKeeps(s: State, e: Event)
    requires Serving(s) && !e.AdvanceTask?
    requires EventShape(s, e) && (s.running ==> EventCoherent(s.link, e))
    ensures Inv(Post(s, e))
  {
  }

  lemma OpExchangedKeeps(s: State, op: Op, ec: Code)
    requires Serving(s) && op.task == s.tasks[0]
    requires s.running ==> s.link.running
    ensures Inv(OpExchanged(s, op, ec))
  {
    if !s.running || ec == Aborted {
      CompleteKeeps(s, s.running, Aborted);
    } else if ec == Ok {
      CompleteKeeps(s, s.running, Ok);
    } else {
      var (l, p) := CloseBegin(s.link, true);
      PostKeeps(s.(link := l), Await(p.wait, op.(lastEc := ec)));
    }
  }

  lemma OpExchangeKeeps(s: State, op: Op)
    requires Serving(s) && op.task == s.tasks[0]
    requires s.running && s.link.running
    ensures Inv(OpExchange(s, op))
  {
    PostKeeps(s.(link := ExchangeBegin(s.link, op.task).0), Await(ExWrite, op));
  }

  lemma OpConnectedKeeps(s: State, op: Op, ec: Code)
    requires Serving(s) && op.task == s.tasks[0]
    requires s.running ==> s.link.running
    ensures Inv(OpConnected(s, op, ec))
  {
    if !s.running || ec == Aborted {
      CompleteKeeps(s, s.running, Aborted);
    } else if ec != Ok {
      CompleteKeeps(s, false, ec);
    } else {
      OpExchangeKeeps(s, op);
    }
  }

  lemma OpClosedKeeps(s: State, op: Op, ec: Code)
    requires Serving(s) && op.task == s.tasks[0]
    requires s.running ==> !s.link.running && !s.link.open
    requires ec != Aborted
    ensures Inv(OpClosed(s, op, ec))
  {
    if !s.running {
      CompleteKeeps(s, s.running, Aborted);
    } else if op.firstRound {
      PostKeeps(s, Retry(op.(firstRound := false)));
    } else {
      CompleteKeeps(s, false, op.lastEc);
    }
  }

  lemma OpRunKeeps(s: State, op: Op)
    requires Serving(s) && op.task == s.tasks[0]
    requires s.running ==> s.link.open ==> s.link.running
    ensures Inv(OpRun(s, op))
  {
    if !s.running {
      CompleteKeeps(s, s.running, Aborted);
    } else if !s.link.open {
      PostKeeps(s.(link := ConnectBegin(s.link)), Await(Resolve, op));
    } else {
      OpExchangeKeeps(s, op);
    }
  }

  lemma AwaitKeeps(s: State, w: Wait, op: Op, net: Net)
    requires Serving(s) && EventShape(s, Await(w, op)) && (s.running ==> WaitCoherent(s.link, w))
    requires Plausible(s.link, net)
    ensures Inv(Resume(s, Await(w, op), net))
  {
    var (l, p) := Deliver(s.link, w, op.task, net);
    DeliverShape(s.link, w, op.task, net);
    var u := s.(link := l);
    match p
    case Pending(w') => PostKeeps(u, Await(w', op));
    case Connected(ec) => OpConnectedKeeps(u, op, ec);
    case Exchanged(ec) => OpExchangedKeeps(u, op, ec);
    case Closed(ec) => OpClosedKeeps(u, op, ec);
  }

  lemma CancelFifo(s: State)
    requires s.posted == [] && Fifo(s)
    ensures Fifo(CancelAll(s)) && Rejected(CancelAll(s).completions) == Rejected(s.completions)
  {
    CancelledDone(s.completions, s.tasks, |s.link.wire|);
    assert s.accepted == s.accepted[..|s.accepted| - |s.tasks|] + s.tasks;
  }

  /** An advance has taken the front task off the queue. */
  lemma CancelKeeps(s: State)
    requires s.posted == [] && !s.running && (s.stops > 0 ==> !s.link.running)
    requires |s.stopPosted| == (if s.stop == Closing then 1 else 0)
    requires forall i | 0 <= i < |s.stopPosted| :: s.stopPosted[i].IsClose()
    requires s.stop != NoStop ==> s.stops > 0
    requires Fifo(s) && Numbered(s)
    ensures Inv(CancelAll(s))
  {
    CancelFifo(s);
  }

  lemma PopKeeps(s: State)
    requires Between(s) && Done(s.completions) == s.accepted[..|s.accepted| - |s.tasks| + 1]
    ensures Fifo(s.(tasks := s.tasks[1..]))
  {
    assert s.tasks[1..] == s.accepted[|s.accepted| - |s.tasks[1..]|..];
  }

  lemma AdvanceKeeps(s: State)
    requires Between(s) && Done(s.completions) == s.accepted[..|s.accepted| - |s.tasks| + 1]
    requires s.running ==> s.link.running
    ensures Inv(Advance(s))
  {
    var u := s.(tasks := s.tasks[1..]);
    PopKeeps(s);
    if !u.running {
      CancelKeeps(u);
    } else if u.tasks != [] {
      OpRunKeeps(u, Op(u.tasks[0], true, Ok));
    }
  }

  lemma FireKeeps(s: State, net: Net)
    requires Inv(s) && Enabled(s, Fire(0, net))
    ensures Inv(Step(s, Fire(0, net)))
  {
    var u := s.(posted := Without(s.posted, 0));
    assert u.posted == [] && s.posted == [s.posted[0]];
    match s.posted[0]
    case AdvanceTask => AdvanceKeeps(u);
    case ProcessTask => OpRunKeeps(u, Op(u.tasks[0], true, Ok));
    case Retry(op) => OpRunKeeps(u, op);
    case Await(w, op) => AwaitKeeps(u, w, op, net);
  }

  lemma RejectKeeps(s: State)
    requires Inv(s) && !s.running
    ensures Inv(PushRequest(s))
  {
    DoneAppend(s.completions, Completion(s.nextId, Aborted, false, |s.link.wire|));
    assert s.nextId !in s.accepted;
  }

  lemma AcceptFifo(s: State)
    requires Fifo(s) && s.running
    ensures Fifo(PushRequest(s))
  {
    var u := PushRequest(s);
    assert u.accepted[..Served(u)] == s.accepted[..Served(s)];
    assert u.tasks == u.accepted[|u.accepted| - |u.tasks|..];
  }

  lemma AcceptNumbered(s: State)
    requires Numbered(s) && s.running
    ensures Numbered(PushRequest(s))
  {
    assert s.nextId !in Rejected(s.completions);
    assert PushRequest(s).accepted == s.accepted + [s.nextId];
  }

  lemma AcceptCoherent(s: State)
    requires SingleDriver(s) && StopConsistent(s) && Coherent(s) && s.running
    ensures SingleDriver(PushRequest(s)) && StopConsistent(PushRequest(s)) && Coherent(PushRequest(s))
  {
    assert forall i | 0 <= i < |s.posted| :: EventShape(s, s.posted[i]) ==> EventShape(PushRequest(s), s.posted[i]);
  }

  lemma AcceptKeeps(s: State)
    requires Inv(s) && s.running
    ensures Inv(PushRequest(s))
  {
    AcceptFifo(s);
    AcceptNumbered(s);
    AcceptCoherent(s);
  }

  /** The part of a state that a stop and its close leave alone. */
  lemma StopStepKeeps(s: State, u: State)
    requires Inv(s) && StopConsistent(u) && !u.running && u.stops > 0
    requires u == s.(running := u.running, stop := u.stop, stops := u.stops, stopPosted := u.stopPosted,
                     link := u.link, reports := u.reports)
    requires u.link.cfg == s.link.cfg
    ensures Inv(u)
  {
    assert forall i | 0 <= i < |u.posted| :: EventShape(s, s.posted[i]) ==> EventShape(u, u.posted[i]);
  }

  lemma TimerKeeps(s: State)
    requires Inv(s)
    ensures Inv(s.(link := s.link.(open := false, expired := true)))
  {
    var u := s.(link := s.link.(open := false, expired := true));
    assert forall i | 0 <= i < |s.posted| :: EventShape(s, s.posted[i]) ==> EventShape(u, s.posted[i]);
  }

  lemma StepKeeps(s: State, a: Action)
    requires Inv(s) && Enabled(s, a)
    ensures Inv(Step(s, a))
  {
    match a
    case Push => if s.running { AcceptKeeps(s); } else { RejectKeeps(s); }
    case Fire(_, net) => FireKeeps(s, net);
    case Stop(_) => StopStepKeeps(s, Step(s, a));
    case FireStop(_, net) =>
      DeliverShape(s.link, s.stopPosted[0], 0, net);
      StopStepKeeps(s, Step(s, a));
    case StopWakes => StopStepKeeps(s, Step(s, a));
    case WaitExpires => StopStepKeeps(s, Step(s, a));
    case StreamTimer => TimerKeeps(s);
  }
}
