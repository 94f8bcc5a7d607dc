/** How often a request is written, and what its completion says about the wire. */
module Outcomes {
  import opened ErrorCodes
  import opened Transports
  import opened Protocol
  import opened Invariants
  import opened Moves
  import opened Ordering
  import opened Streams

  // ---------------------------------------------------------------- counting writes

  /** How often request `id` was put on the wire. */
  function Writes(log: seq<Wire>, id: nat): nat {
    if log == [] then 0
    else
      var w := log[|log| - 1];
      Writes(log[..|log| - 1], id) + (if w.Written? && w.id == id then 1 else 0)
  }

  lemma WritesAppend(log: seq<Wire>, w: Wire)
    ensures forall id :: Writes(log + [w], id) == Writes(log, id) + (if w.Written? && w.id == id then 1 else 0)
  {
    assert (log + [w])[..|log|] == log;
  }

  /** How often the op has written its request, by where it is. */
  function Expected(st: Status): nat
    requires !st.Idle?
  {
    (if st.op.firstRound then 0 else 1) +
    (match st
     case Busy(w, _) => if w.IsConnect() then 0 else 1
     case Ended(p, _) => if p.Connected? then 0 else 1
     case Retrying(_) => 0)
  }

  ghost predicate Counted(v: View) {
    && (forall id :: Writes(v.l.wire, id) <= 2)
    && (v.st.Idle? ==> forall id | v.floor <= id :: Writes(v.l.wire, id) == 0)
    && (!v.st.Idle? ==>
          && v.floor == v.st.op.task
          && Writes(v.l.wire, v.floor) == Expected(v.st)
          && (forall id | v.floor < id :: Writes(v.l.wire, id) == 0))
    && (v.st.Retrying? ==> !v.st.op.firstRound)
  }

  ghost predicate SameWrites(log: seq<Wire>, log': seq<Wire>) {
    forall id :: Writes(log', id) == Writes(log, id)
  }

  lemma ContinueWrites(l: Link, w: Wait, id: nat, net: Net)
    requires Plausible(l, net)
    ensures SameWrites(l.wire, Continue(l, w, id, net).0.wire)
  {
    if w.IsConnect() {
      forall log, x | SameWrites(l.wire, log) && OfConnect(l.conn, x) ensures SameWrites(l.wire, log + [x]) {
        WritesAppend(log, x);
      }
      ConnectLogs(log => SameWrites(l.wire, log), l, w, id, net);
    } else if w.IsExchange() {
      WritesAppend(l.wire, ExchangeFailed(l.conn, l.gen, id, net.code));
      WritesAppend(l.wire, ExchangeRefused(l.conn, l.gen, id));
      WritesAppend(l.wire, Answered(l.conn, l.gen, id, Filled(l, false, net.received)[..net.consumed]));
    }
  }

  lemma DeliverWrites(l: Link, w: Wait, id: nat, net: Net)
    requires Plausible(l, net)
    ensures SameWrites(l.wire, Deliver(l, w, id, net).0.wire)
  {
    if w.OnStream(l.cfg.kind) && l.expired {
      ContinueWrites(l.(expired := false), w, id, net.(code := StreamTimeout));
    } else {
      ContinueWrites(l, w, id, net);
    }
  }

  lemma HearCounted(v: View, net: Net)
    requires Counted(v) && Can(v, Hear(net))
    ensures Counted(Apply(v, Hear(net)))
  {
    DeliverShape(v.l, v.st.w, v.st.op.task, net);
    DeliverWrites(v.l, v.st.w, v.st.op.task, net);
  }

  lemma StartCounted(v: View, m: Move)
    requires Counted(v) && Can(v, m) && (m.Connect? || m.Exchange?)
    ensures Counted(Apply(v, m))
  {
    if m.Connect? {
      var u := ConnectBegin(v.l);
      WritesAppend(v.l.wire, ConnectBegun(u.conn, u.gen));
    } else {
      WritesAppend(v.l.wire, Written(v.l.conn, v.l.gen, m.op.task));
    }
  }

  lemma DecideCounted(v: View, m: Move)
    requires Counted(v) && Can(v, m) && (m.Close? || m.Again? || m.Finish? || m.GiveUp? || m.Abort?)
    ensures Counted(Apply(v, m))
  {
  }

  lemma BesideCounted(v: View, m: Move)
    requires Counted(v) && Can(v, m) && (m.TimerFires? || m.StopBegins? || m.StopHears?)
    ensures Counted(Apply(v, m))
  {
    if m.StopHears? {
      StopHearsLittle(v, m);
    }
  }

  lemma MoveCounted(v: View, m: Move)
    requires Counted(v) && Can(v, m)
    ensures Counted(Apply(v, m))
  {
    if m.Hear? {
      HearCounted(v, m.net);
    } else if m.Connect? || m.Exchange? {
      StartCounted(v, m);
    } else if m.Close? || m.Again? || m.Finish? || m.GiveUp? || m.Abort? {
      DecideCounted(v, m);
    } else {
      BesideCounted(v, m);
    }
  }

  lemma CountedKept()
    ensures Kept(Counted)
  {
    forall v, m | Counted(v) && Can(v, m) ensures Counted(Apply(v, m)) {
      MoveCounted(v, m);
    }
  }

  // ---------------------------------------------------------------- what a completion means

  predicate IsFailure(w: Wire, id: nat) {
    w.ExchangeFailed? && w.id == id && w.code != Aborted
  }

  predicate FailedBefore(log: seq<Wire>, id: nat) {
    exists w | w in log :: IsFailure(w, id)
  }

  /** The log as it was when `c` was posted accounts for its code. */
  predicate Justified(log: seq<Wire>, c: Completion) {
    && c.at <= |log|
    && (c.code == Ok ==> c.at > 0 && log[c.at - 1].Answered? && log[c.at - 1].id == c.id)
    && (c.code != Ok && c.code != Aborted ==>
          && c.at > 0
          && match log[c.at - 1]
             case ConnectFailed(_, id, _, code) => id == c.id && code == c.code
             case ExchangeFailed(_, _, id, code) => id == c.id && code == c.code && FailedBefore(log[..c.at - 1], id)
             case _ => false)
  }

  predicate AllJustified(log: seq<Wire>, done: seq<Completion>) {
    forall i | 0 <= i < |done| :: Justified(log, done[i])
  }

  /** Every answer among the first `n` entries has been delivered with success. */
  predicate Delivered(log: seq<Wire>, n: nat, done: seq<Completion>) {
    forall k | 0 <= k < n && k < |log| :: log[k].Answered? ==> Completion(log[k].id, Ok, true, k + 1) in done
  }

  /** An op in its second round has a failure behind it. */
  predicate RoundNow(l: Link, st: Status) {
    match st
    case Idle => true
    case Busy(w, op) =>
      if w.IsClose() then
        && op.lastEc != Ok && op.lastEc != Aborted
        && (!op.firstRound && l.wire != [] ==> FailedBefore(l.wire[..|l.wire| - 1], op.task))
      else !op.firstRound ==> FailedBefore(l.wire, op.task)
    case Ended(p, op) =>
      (match p
       case Pending(_) => false
       case Connected(_) => !op.firstRound ==> FailedBefore(l.wire, op.task)
       case Exchanged(_) => !op.firstRound && l.wire != [] ==> FailedBefore(l.wire[..|l.wire| - 1], op.task)
       case Closed(_) =>
         && op.lastEc != Ok && op.lastEc != Aborted
         && (!op.firstRound && l.wire != [] ==> FailedBefore(l.wire[..|l.wire| - 1], op.task)))
    case Retrying(op) => FailedBefore(l.wire, op.task)
  }

  predicate Sound(v: View) {
    && Ordered(v) && AllJustified(v.l.wire, v.done)
    && Delivered(v.l.wire, if v.st.Ended? && v.st.p == Exchanged(Ok) && v.live then |v.l.wire| - 1 else |v.l.wire|, v.done)
    && (v.live ==> RoundNow(v.l, v.st))
  }

  lemma JustifiedAppend(log: seq<Wire>, w: Wire, done: seq<Completion>)
    requires AllJustified(log, done)
    ensures AllJustified(log + [w], done)
  {
    forall i | 0 <= i < |done| ensures Justified(log + [w], done[i]) {
      assert Justified(log, done[i]);
      if done[i].at > 0 {
        assert (log + [w])[..done[i].at - 1] == log[..done[i].at - 1];
      }
    }
  }

  lemma FailedAppend(log: seq<Wire>, w: Wire, id: nat)
    requires FailedBefore(log, id)
    ensures FailedBefore(log + [w], id)
  {
    var x :| x in log && IsFailure(x, id);
    assert x in log + [w];
  }

  /** What the log of a session keeps while its op is connecting. */
  predicate LogSound(log: seq<Wire>, done: seq<Completion>, again: bool, id: nat) {
    AllJustified(log, done) && Delivered(log, |log|, done) && (again ==> FailedBefore(log, id))
  }

  lemma LogSoundAppend(log: seq<Wire>, w: Wire, done: seq<Completion>, again: bool, id: nat)
    requires LogSound(log, done, again, id) && !w.Answered?
    ensures LogSound(log + [w], done, again, id)
  {
    JustifiedAppend(log, w, done);
    if again {
      FailedAppend(log, w, id);
    }
  }

  lemma ConnectSound(l: Link, w: Wait, id: nat, net: Net, done: seq<Completion>, again: bool)
    requires Plausible(l, net) && w.IsConnect() && LogSound(l.wire, done, again, id)
    ensures LogSound(Continue(l, w, id, net).0.wire, done, again, id)
  {
    forall log, x | LogSound(log, done, again, id) && OfConnect(l.conn, x) ensures LogSound(log + [x], done, again, id) {
      LogSoundAppend(log, x, done, again, id);
    }
    ConnectLogs(log => LogSound(log, done, again, id), l, w, id, net);
  }

  /** An exchange that ends does so with one entry. */
  lemma ExchangeAdds(l: Link, w: Wait, id: nat, net: Net)
    requires Plausible(l, net) && w.IsExchange()
    ensures var (u, p) := Continue(l, w, id, net);
            && (p.Pending? ==> u.wire == l.wire)
            && (!p.Pending? ==> |u.wire| == |l.wire| + 1 && u.wire == l.wire + [u.wire[|l.wire|]])
            && (!p.Pending? && p != Exchanged(Ok) ==> !u.wire[|l.wire|].Answered?)
            && (p == Exchanged(Ok) ==> l.running)
  {
  }

  /** What was known of the log before is still known. */
  lemma ExchangeSound(l: Link, w: Wait, id: nat, net: Net, done: seq<Completion>, again: bool)
    requires Plausible(l, net) && w.IsExchange() && LogSound(l.wire, done, again, id)
    ensures var (u, p) := Continue(l, w, id, net);
            && AllJustified(u.wire, done)
            && Delivered(u.wire, if p == Exchanged(Ok) then |u.wire| - 1 else |u.wire|, done)
            && (again ==> if p.Pending? then FailedBefore(u.wire, id) else FailedBefore(u.wire[..|u.wire| - 1], id))
  {
    ExchangeAdds(l, w, id, net);
    var (u, p) := Continue(l, w, id, net);
    if !p.Pending? {
      JustifiedAppend(l.wire, u.wire[|l.wire|], done);
      assert u.wire[..|u.wire| - 1] == l.wire;
    }
  }

  lemma ContinueSound(l: Link, w: Wait, live: bool, op: Op, net: Net, done: seq<Completion>)
    requires Plausible(l, net) && WaitFits(l.cfg.kind, w) && (live || !l.running)
    requires AllJustified(l.wire, done) && Delivered(l.wire, |l.wire|, done) && (live ==> RoundNow(l, Busy(w, op)))
    ensures var (u, p) := Continue(l, w, op.task, net);
            && AllJustified(u.wire, done)
            && Delivered(u.wire, if p == Exchanged(Ok) && live then |u.wire| - 1 else |u.wire|, done)
            && (live ==> RoundNow(u, After(p, op)))
  {
    ContinueShape(l, w, op.task, net);
    var again := live && !op.firstRound;
    if w.IsConnect() {
      ConnectSound(l, w, op.task, net, done, again);
    } else if w.IsExchange() {
      ExchangeAdds(l, w, op.task, net);
      ExchangeSound(l, w, op.task, net, done, again);
    } else {
      assert Continue(l, w, op.task, net).0.wire == l.wire;
    }
  }

  lemma HearSound(v: View, net: Net)
    requires Sound(v) && Can(v, Hear(net))
    ensures Sound(Apply(v, Hear(net)))
  {
    MoveOrdered(v, Hear(net));
    var late := v.st.w.OnStream(v.l.cfg.kind) && v.l.expired;
    var l := if late then v.l.(expired := false) else v.l;
    var n := if late then net.(code := StreamTimeout) else net;
    ContinueSound(l, v.st.w, v.live, v.st.op, n, v.done);
  }

  lemma StartSound(v: View, m: Move)
    requires Sound(v) && Can(v, m) && (m.Connect? || m.Exchange?)
    requires m.op.firstRound || FailedBefore(v.l.wire, m.op.task)
    ensures Sound(Apply(v, m))
  {
    MoveOrdered(v, m);
    var u := ConnectBegin(v.l);
    var w := if m.Connect? then ConnectBegun(u.conn, u.gen) else Written(v.l.conn, v.l.gen, m.op.task);
    LogSoundAppend(v.l.wire, w, v.done, !m.op.firstRound, m.op.task);
  }

  lemma AppendDone(log: seq<Wire>, n: nat, done: seq<Completion>, cs: seq<Completion>)
    requires AllJustified(log, done) && Delivered(log, n, done) && AllJustified(log, cs)
    ensures AllJustified(log, done + cs) && Delivered(log, n, done + cs)
  {
  }

  lemma VerdictJustified(v: View)
    requires Sound(v) && Can(v, Finish)
    ensures Justified(v.l.wire, Completion(v.st.op.task, Verdict(v), true, |v.l.wire|))
  {
  }

  lemma FinishSound(v: View)
    requires Sound(v) && Can(v, Finish)
    ensures Sound(Apply(v, Finish))
  {
    MoveOrdered(v, Finish);
    var log := v.l.wire;
    var c := Completion(v.st.op.task, Verdict(v), true, |log|);
    var n := if v.st.p == Exchanged(Ok) && v.live then |log| - 1 else |log|;
    VerdictJustified(v);
    AppendDone(log, n, v.done, [c]);
    assert c in v.done + [c];
  }

  lemma DecideSound(v: View, m: Move)
    requires Sound(v) && Can(v, m) && (m.Close? || m.Again?)
    ensures Sound(Apply(v, m))
  {
    MoveOrdered(v, m);
    if m.Again? {
      assert v.l.wire[|v.l.wire| - 1] in v.l.wire && IsFailure(v.l.wire[|v.l.wire| - 1], v.st.op.task);
    }
  }

  lemma DropSound(v: View, m: Move)
    requires Sound(v) && Can(v, m) && (m.GiveUp? || m.Abort?)
    ensures Sound(Apply(v, m))
  {
    MoveOrdered(v, m);
  }

  /** What happens beside the driver leaves the log alone. */
  lemma BesideSound(v: View, m: Move)
    requires Sound(v) && Can(v, m) && (m.TimerFires? || m.StopBegins? || m.StopHears?)
    ensures Sound(Apply(v, m))
  {
    MoveOrdered(v, m);
    if m.StopHears? {
      StopHearsLittle(v, m);
    }
  }

  lemma MoveSound(v: View, m: Move)
    requires Sound(v) && Can(v, m)
    ensures Sound(Apply(v, m))
  {
    if m.Hear? {
      HearSound(v, m.net);
    } else if m.Connect? || m.Exchange? {
      StartSound(v, m);
    } else if m.Finish? {
      FinishSound(v);
    } else if m.Close? || m.Again? {
      DecideSound(v, m);
    } else if m.GiveUp? || m.Abort? {
      DropSound(v, m);
    } else {
      BesideSound(v, m);
    }
  }

  lemma SoundKept()
    ensures Kept(Sound)
  {
    forall v, m | Sound(v) && Can(v, m) ensures Sound(Apply(v, m)) {
      MoveSound(v, m);
    }
  }

  // ---------------------------------------------------------------- responses are stored

  /** Every answer is in the response object of its request, and stays there: no request is
      answered again. */
  predicate Filed(v: View) {
    && (!v.st.Idle? ==> v.floor == v.st.op.task)
    && forall w | w in v.l.wire :: w.Answered? ==>
         && w.id in v.l.responses && v.l.responses[w.id] == w.body
         && (w.id < v.floor || (w.id == v.floor && v.st.Ended? && v.st.p == Exchanged(Ok)))
  }

  /** What resuming an operation adds to the log and the response objects. */
  ghost predicate AddsAtMost(l: Link, id: nat, r: (Link, Progress)) {
    || (l.wire <= r.0.wire && NoAnswerFrom(r.0.wire, |l.wire|) && r.0.responses == l.responses)
    || (r.1 == Exchanged(Ok) && exists conn, gen, body ::
          r.0.wire == l.wire + [Answered(conn, gen, id, body)] && r.0.responses == l.responses[id := body])
  }

  lemma ConnectAddsNone(l: Link, w: Wait, id: nat, net: Net)
    requires Plausible(l, net) && w.IsConnect()
    ensures l.wire <= Continue(l, w, id, net).0.wire && NoAnswerFrom(Continue(l, w, id, net).0.wire, |l.wire|)
  {
    var n := |l.wire|;
    ConnectLogs(log => l.wire <= log && NoAnswerFrom(log, n), l, w, id, net);
  }

  lemma ContinueAddsAtMost(l: Link, w: Wait, id: nat, net: Net)
    requires Plausible(l, net)
    ensures AddsAtMost(l, id, Continue(l, w, id, net))
  {
    if w.IsConnect() {
      ConnectAddsNone(l, w, id, net);
      ConnectStores(l, w, id, net);
    } else if w.ExRead? && net.code == Ok && l.running {
      var body := Filled(l, false, net.received)[..net.consumed];
      assert Continue(l, w, id, net).0.wire == l.wire + [Answered(l.conn, l.gen, id, body)];
    }
  }

  lemma DeliverAddsAtMost(l: Link, w: Wait, id: nat, net: Net)
    requires Plausible(l, net)
    ensures AddsAtMost(l, id, Deliver(l, w, id, net))
  {
    if w.OnStream(l.cfg.kind) && l.expired {
      ContinueAddsAtMost(l.(expired := false), w, id, net.(code := StreamTimeout));
    } else {
      ContinueAddsAtMost(l, w, id, net);
    }
  }

  lemma FiledAfter(v: View, r: (Link, Progress))
    requires Filed(v) && v.st.Busy? && AddsAtMost(v.l, v.st.op.task, r)
    ensures Filed(v.(l := r.0, st := After(r.1, v.st.op)))
  {
    forall w | w in r.0.wire && w.Answered?
      ensures w.id in r.0.responses && r.0.responses[w.id] == w.body
      ensures w.id < v.floor || (w.id == v.floor && r.1 == Exchanged(Ok))
    {
      var k :| 0 <= k < |r.0.wire| && r.0.wire[k] == w;
      if k < |v.l.wire| {
        assert v.l.wire[k] == w;
      }
    }
  }

  lemma HearFiled(v: View, net: Net)
    requires Filed(v) && Can(v, Hear(net))
    ensures Filed(Apply(v, Hear(net)))
  {
    DeliverAddsAtMost(v.l, v.st.w, v.st.op.task, net);
    FiledAfter(v, Deliver(v.l, v.st.w, v.st.op.task, net));
  }

  lemma StartFiled(v: View, m: Move)
    requires Filed(v) && Can(v, m) && (m.Connect? || m.Exchange?)
    ensures Filed(Apply(v, m))
  {
  }

  lemma DecideFiled(v: View, m: Move)
    requires Filed(v) && Can(v, m) && (m.Close? || m.Again? || m.Finish? || m.GiveUp? || m.Abort?)
    ensures Filed(Apply(v, m))
  {
  }

  lemma MoveFiled(v: View, m: Move)
    requires Filed(v) && Can(v, m)
    ensures Filed(Apply(v, m))
  {
    if m.Hear? {
      HearFiled(v, m.net);
    } else if m.Connect? || m.Exchange? {
      StartFiled(v, m);
    } else if m.StopHears? {
      StopHearsLittle(v, m);
    } else if !m.TimerFires? && !m.StopBegins? {
      DecideFiled(v, m);
    }
  }

  lemma FiledKept()
    ensures Kept(Filed)
  {
    forall v, m | Filed(v) && Can(v, m) ensures Filed(Apply(v, m)) {
      MoveFiled(v, m);
    }
  }
}
