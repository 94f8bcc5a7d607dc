/**
  What the driver does to the transport, one move at a time.

  A step of the protocol is at most three moves: an operation of the transport resumes, the op
  that waited for it decides, and the next operation begins. A property of views that every
  move keeps is kept by every step, so the theorems about the wire are proved move by move.
 */
module Moves {
  import opened ErrorCodes
  import opened Transports
  import opened Protocol
  import opened Invariants

  /** What the driver is doing with the transport. `Ended` only exists inside a step. */
  datatype Status =
    | Idle
    | Busy(w: Wait, op: Op)
    | Ended(p: Progress, op: Op)
    | Retrying(op: Op)

  /** `live` is the session's running flag, `stopped` says that a stop has begun, and an idle
      driver will not serve any id below `floor` again. */
  datatype View = View(l: Link, st: Status, live: bool, stopped: bool, floor: nat, done: seq<Completion>)

  datatype Move =
    | Connect(op: Op)
    | Exchange(op: Op)
    | Hear(net: Net)                              // the awaited operation resumes
    | Close
    | Again                                       // the op posts itself for its second round
    | Finish                                      // the op completes
    | GiveUp                                      // the posted op finds the session stopped
    | Abort(floor: nat, cs: seq<Completion>)      // handlers are posted without the transport
    | TimerFires
    | StopBegins(graceful: bool)
    | StopHears(w: Wait, net: Net)

  /** The op starts from the idle driver with a new task, or from its own retry. */
  predicate CanStart(v: View, op: Op) {
    if v.st.Retrying? then v.st.op == op
    else v.st.Idle? && v.floor <= op.task && op.firstRound
  }

  /** Whether the op completes now that its operation has ended. */
  predicate CanFinish(v: View) {
    && v.st.Ended? && !v.st.p.Pending?
    && (v.live ==>
          match v.st.p
          case Pending(_) => false
          case Connected(ec) => ec != Ok
          case Exchanged(ec) => ec == Ok || ec == Aborted
          case Closed(ec) => ec != Aborted && !v.st.op.firstRound)
  }

  /** The code with which it completes. */
  function Verdict(v: View): Code
    requires CanFinish(v)
  {
    if !v.live || v.st.p.ec == Aborted then Aborted
    else if v.st.p.Closed? then v.st.op.lastEc
    else v.st.p.ec
  }

  /** When a move is possible; what the invariant of the protocol adds is part of it. */
  predicate Can(v: View, m: Move) {
    match m
    case Connect(op) =>
      v.live && !v.stopped && CanStart(v, op) && !v.l.open && (v.l.running <==> v.st.Idle?)
    case Exchange(op) =>
      v.live && !v.stopped && v.l.running &&
      ((v.l.open && v.st.Idle? && CanStart(v, op)) || v.st == Ended(Connected(Ok), op))
    case Hear(net) =>
      v.st.Busy? && Plausible(v.l, net) && WaitFits(v.l.cfg.kind, v.st.w) &&
      (if v.live then !v.stopped && WaitCoherent(v.l, v.st.w) else v.stopped && !v.l.running)
    case Close =>
      v.live && !v.stopped && v.st.Ended? && v.st.p.Exchanged? && v.st.p.ec != Ok && v.st.p.ec != Aborted
    case Again =>
      v.live && !v.stopped && v.st.Ended? && v.st.p.Closed? && v.st.op.firstRound && !v.l.running && !v.l.open
    case Finish => CanFinish(v)
    case GiveUp => !v.live && v.st.Retrying?
    case Abort(floor, cs) =>
      && v.floor <= floor && (!v.st.Idle? ==> v.floor == floor)
      && (forall i | 0 <= i < |cs| :: cs[i].code == Aborted && cs[i].at <= |v.l.wire|)
    case TimerFires =>
      v.l.armed && v.l.open && ((v.stopped && !v.live) || (v.st.Busy? && v.st.w.OnStream(v.l.cfg.kind)))
    case StopBegins(_) => !v.st.Ended?
    case StopHears(w, net) => v.stopped && !v.live && w.IsClose() && Plausible(v.l, net)
  }

  function Apply(v: View, m: Move): View
    requires Can(v, m)
  {
    match m
    case Connect(op) => v.(l := ConnectBegin(v.l), st := Busy(Resolve, op), floor := op.task)
    case Exchange(op) => v.(l := ExchangeBegin(v.l, op.task).0, st := Busy(ExWrite, op), floor := op.task)
    case Hear(net) =>
      var (l, p) := Deliver(v.l, v.st.w, v.st.op.task, net);
      v.(l := l, st := if p.Pending? then Busy(p.wait, v.st.op) else Ended(p, v.st.op))
    case Close =>
      var (l, p) := CloseBegin(v.l, true);
      v.(l := l, st := Busy(p.wait, v.st.op.(lastEc := v.st.p.ec)))
    case Again => v.(st := Retrying(v.st.op.(firstRound := false)))
    case Finish =>
      v.(st := Idle, floor := v.st.op.task + 1,
         live := v.live && (v.st.p.ec == Aborted || (v.st.p.Exchanged? && v.st.p.ec == Ok)),
         done := v.done + [Completion(v.st.op.task, Verdict(v), true, |v.l.wire|)])
    case GiveUp =>
      v.(st := Idle, floor := v.st.op.task + 1,
         done := v.done + [Completion(v.st.op.task, Aborted, true, |v.l.wire|)])
    case Abort(floor, cs) => v.(floor := floor, done := v.done + cs)
    case TimerFires => v.(l := v.l.(open := false, expired := true))
    case StopBegins(graceful) => v.(l := CloseBegin(v.l, graceful).0, live := false, stopped := true)
    case StopHears(w, net) => v.(l := Deliver(v.l, w, 0, net).0)
  }

  // ---------------------------------------------------------------- views of states

  function StatusOf(s: State): Status {
    if s.posted == [] || !HasOp(s.posted[0]) then Idle
    else if s.posted[0].Retry? then Retrying(s.posted[0].op)
    else Busy(s.posted[0].wait, s.posted[0].op)
  }

  function FloorOf(s: State): nat {
    if s.tasks == [] then s.nextId
    else if AdvanceTask in s.posted then s.tasks[0] + 1
    else s.tasks[0]
  }

  function ViewOf(s: State): View {
    View(s.link, StatusOf(s), s.running, s.stops > 0, FloorOf(s), s.completions)
  }

  ghost predicate Kept(P: View -> bool) {
    forall v, m | P(v) && Can(v, m) :: P(Apply(v, m))
  }

  // ---------------------------------------------------------------- every step is made of moves

  lemma ByMove(P: View -> bool, v: View, m: Move)
    requires Kept(P) && P(v) && Can(v, m)
    ensures P(Apply(v, m))
  {
  }

  /** The view in the middle of a step, with the pending handler of the driver taken off. */
  function Mid(s: State, st: Status): View {
    View(s.link, st, s.running, s.stops > 0, if s.tasks == [] then s.nextId else s.tasks[0], s.completions)
  }

  lemma FinishStep(P: View -> bool, s: State, p: Progress, op: Op, r: bool, code: Code)
    requires Kept(P) && s.tasks != [] && s.posted == [] && op.task == s.tasks[0]
    requires P(Mid(s, Ended(p, op))) && CanFinish(Mid(s, Ended(p, op)))
    requires code == Verdict(Mid(s, Ended(p, op)))
    requires r == (s.running && (p.ec == Aborted || (p.Exchanged? && p.ec == Ok)))
    ensures P(ViewOf(Complete(s.(running := r), op.task, code)))
  {
    ByMove(P, Mid(s, Ended(p, op)), Finish);
    assert Apply(Mid(s, Ended(p, op)), Finish) == ViewOf(Complete(s.(running := r), op.task, code));
  }

  lemma ExchangeStep(P: View -> bool, s: State, st: Status, op: Op)
    requires Kept(P) && Serving(s) && op.task == s.tasks[0]
    requires s.running && s.stops == 0 && s.link.running
    requires P(Mid(s, st)) && Can(Mid(s, st), Exchange(op))
    ensures P(ViewOf(OpExchange(s, op)))
  {
    ByMove(P, Mid(s, st), Exchange(op));
    assert Apply(Mid(s, st), Exchange(op)) == ViewOf(OpExchange(s, op));
  }

  lemma RunStep(P: View -> bool, s: State, st: Status, op: Op)
    requires Kept(P) && Serving(s) && op.task == s.tasks[0]
    requires if st.Retrying? then st.op == op else st.Idle? && op.firstRound
    requires s.running ==> s.stops == 0 && (s.link.running <==> st.Idle?) && (st.Retrying? ==> !s.link.open)
    requires P(Mid(s, st))
    ensures P(ViewOf(OpRun(s, op)))
  {
    var v := Mid(s, st);
    if !s.running {
      var c := Completion(op.task, Aborted, true, |s.link.wire|);
      var m := if st.Idle? then Abort(op.task + 1, [c]) else GiveUp;
      ByMove(P, v, m);
      assert Apply(v, m) == ViewOf(OpRun(s, op));
    } else if !s.link.open {
      ByMove(P, v, Connect(op));
      assert Apply(v, Connect(op)) == ViewOf(OpRun(s, op));
    } else {
      ExchangeStep(P, s, st, op);
    }
  }

  lemma SettleStep(P: View -> bool, s: State, p: Progress, op: Op)
    requires Kept(P) && Serving(s) && op.task == s.tasks[0] && !p.Pending?
    requires s.running ==> s.stops == 0 && (if p.Closed? then !s.link.running && !s.link.open else s.link.running)
    requires p.Closed? ==> p.ec != Aborted
    requires P(Mid(s, Ended(p, op)))
    ensures P(ViewOf(OpSettle(s, op, p)))
  {
    var v := Mid(s, Ended(p, op));
    if CanFinish(v) {
      FinishStep(P, s, p, op, s.running && (p.ec == Aborted || (p.Exchanged? && p.ec == Ok)), Verdict(v));
    } else if p.Connected? {
      ExchangeStep(P, s, Ended(p, op), op);
    } else if p.Exchanged? {
      ByMove(P, v, Close);
      assert Apply(v, Close) == ViewOf(OpSettle(s, op, p));
    } else {
      ByMove(P, v, Again);
      assert Apply(v, Again) == ViewOf(OpSettle(s, op, p));
    }
  }

  lemma AwaitStep(P: View -> bool, s: State, w: Wait, op: Op, net: Net)
    requires Kept(P) && Serving(s) && EventShape(s, Await(w, op)) && (s.running ==> WaitCoherent(s.link, w))
    requires Plausible(s.link, net)
    requires P(Mid(s, Busy(w, op)))
    ensures P(ViewOf(Resume(s, Await(w, op), net)))
  {
    var v := Mid(s, Busy(w, op));
    ByMove(P, v, Hear(net));
    DeliverShape(s.link, w, op.task, net);
    var (l, p) := Deliver(s.link, w, op.task, net);
    var u := s.(link := l);
    if p.Pending? {
      assert Apply(v, Hear(net)) == ViewOf(Post(u, Await(p.wait, op)));
    } else {
      assert Apply(v, Hear(net)) == Mid(u, Ended(p, op));
      SettleStep(P, u, p, op);
    }
  }

  lemma AdvanceStep(P: View -> bool, s: State)
    requires Kept(P) && Between(s) && Done(s.completions) == s.accepted[..|s.accepted| - |s.tasks| + 1]
    requires s.running ==> s.link.running
    requires P(Mid(s, Idle).(floor := s.tasks[0] + 1))
    ensures P(ViewOf(Advance(s)))
  {
    var v := Mid(s, Idle).(floor := s.tasks[0] + 1);
    var u := s.(tasks := s.tasks[1..]);
    assert s.accepted[|s.accepted| - |s.tasks|] == s.tasks[0];
    assert u.tasks != [] ==> s.accepted[|s.accepted| - |s.tasks| + 1] == u.tasks[0];
    var m := if s.running then Abort(Mid(u, Idle).floor, []) else Abort(s.nextId, Cancelled(u.tasks, |s.link.wire|));
    ByMove(P, v, m);
    if !s.running || u.tasks == [] {
      assert Apply(v, m) == ViewOf(Advance(s));
    } else {
      assert Apply(v, m) == Mid(u, Idle);
      RunStep(P, u, Idle, Op(u.tasks[0], true, Ok));
    }
  }

  lemma FireStep(P: View -> bool, s: State, net: Net)
    requires Kept(P) && Inv(s) && Enabled(s, Fire(0, net)) && P(ViewOf(s))
    ensures P(ViewOf(Step(s, Fire(0, net))))
  {
    var u := s.(posted := Without(s.posted, 0));
    assert u.posted == [] && s.posted == [s.posted[0]];
    match s.posted[0]
    case AdvanceTask =>
      assert ViewOf(s) == Mid(u, Idle).(floor := u.tasks[0] + 1);
      AdvanceStep(P, u);
    case ProcessTask =>
      assert ViewOf(s) == Mid(u, Idle);
      RunStep(P, u, Idle, Op(u.tasks[0], true, Ok));
    case Retry(op) =>
      assert ViewOf(s) == Mid(u, Retrying(op));
      RunStep(P, u, Retrying(op), op);
    case Await(w, op) =>
      assert ViewOf(s) == Mid(u, Busy(w, op));
      AwaitStep(P, u, w, op, net);
  }

  lemma PushStep(P: View -> bool, s: State)
    requires Kept(P) && Inv(s) && P(ViewOf(s))
    ensures P(ViewOf(PushRequest(s)))
  {
    var v, u := ViewOf(s), PushRequest(s);
    var cs := if s.running then [] else [Completion(s.nextId, Aborted, false, |s.link.wire|)];
    ByMove(P, v, Abort(FloorOf(u), cs));
    assert Apply(v, Abort(FloorOf(u), cs)) == ViewOf(u);
  }

  lemma StopStep(P: View -> bool, s: State, a: Action)
    requires Kept(P) && Inv(s) && Enabled(s, a) && P(ViewOf(s)) && (a.Stop? || a.FireStop?)
    ensures P(ViewOf(Step(s, a)))
  {
    var m := if a.Stop? then StopBegins(a.graceful) else StopHears(s.stopPosted[0], a.net);
    ByMove(P, ViewOf(s), m);
    assert Apply(ViewOf(s), m) == ViewOf(Step(s, a));
  }

  /** The rule: what every move keeps, every step keeps. */
  lemma StepByMoves(P: View -> bool, s: State, a: Action)
    requires Kept(P) && Inv(s) && Enabled(s, a) && P(ViewOf(s))
    ensures P(ViewOf(Step(s, a)))
  {
    match a
    case Push => PushStep(P, s);
    case Fire(_, net) => FireStep(P, s, net);
    case Stop(_) => StopStep(P, s, a);
    case FireStop(_, _) => StopStep(P, s, a);
    case StreamTimer =>
      ByMove(P, ViewOf(s), TimerFires);
      assert Apply(ViewOf(s), TimerFires) == ViewOf(Step(s, a));
    case WaitExpires => assert ViewOf(Step(s, a)) == ViewOf(s);
    case StopWakes => assert ViewOf(Step(s, a)) == ViewOf(s);
  }
}
