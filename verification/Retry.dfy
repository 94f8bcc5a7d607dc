/**
  The second attempt: when a request that failed is sent again, and when its stream is.
 */
module Retries {
  import opened ErrorCodes
  import opened Transports
  import opened Protocol
  import opened Invariants
  import opened Moves
  import opened Runs
  import opened Streams
  import opened Drain
  import opened Theorems

  // ---------------------------------------------------------------- the log only grows

  lemma ContinueGrows(l: Link, w: Wait, id: nat, net: Net, w0: seq<Wire>)
    requires Plausible(l, net) && w0 <= l.wire
    ensures w0 <= Continue(l, w, id, net).0.wire
  {
    if w.IsConnect() {
      ConnectLogs(log => w0 <= log, l, w, id, net);
    }
  }

  lemma HearGrows(v: View, net: Net, w0: seq<Wire>)
    requires w0 <= v.l.wire && Can(v, Hear(net))
    ensures w0 <= Apply(v, Hear(net)).l.wire
  {
    if v.st.w.OnStream(v.l.cfg.kind) && v.l.expired {
      ContinueGrows(v.l.(expired := false), v.st.w, v.st.op.task, net.(code := StreamTimeout), w0);
    } else {
      ContinueGrows(v.l, v.st.w, v.st.op.task, net, w0);
    }
  }

  lemma MoveGrows(v: View, m: Move, w0: seq<Wire>)
    requires w0 <= v.l.wire && Can(v, m)
    ensures w0 <= Apply(v, m).l.wire
  {
    if m.Hear? {
      HearGrows(v, m.net, w0);
    }
  }

  lemma WireGrows(cfg: Config, tr: seq<State>, acts: seq<Action>, i: nat, j: nat)
    requires IsRun(cfg, tr, acts) && i <= j < |tr|
    ensures tr[i].link.wire <= tr[j].link.wire
  {
    var w0 := tr[i].link.wire;
    forall v: View, m | w0 <= v.l.wire && Can(v, m) ensures w0 <= Apply(v, m).l.wire {
      MoveGrows(v, m, w0);
    }
    From((v: View) => w0 <= v.l.wire, cfg, tr, acts, i, j);
  }

  // ---------------------------------------------------------------- a first failure

  /** The code the op hears when the handler it waits in runs with answer `net`. */
  function Heard(s: State, net: Net): Code
    requires s.posted != [] && s.posted[0].Await?
  {
    if s.posted[0].wait.OnStream(s.link.cfg.kind) && s.link.expired then StreamTimeout else net.code
  }

  /** An exchange of the first round fails in this step, and not by an abort. */
  predicate FailsFirst(s: State, a: Action) {
    && s.running && a.Fire? && Enabled(s, a)
    && s.posted != [] && s.posted[0].Await? && s.posted[0].wait.IsExchange() && s.posted[0].op.firstRound
    && Heard(s, a.net) != Ok && Heard(s, a.net) != Aborted
  }

  /** The way back to a connect: first the close, then the op posted again. It starts from
      connection `conn` and generation `gen`; the tunnel renews its stream at the close. */
  predicate OnTheWay(s: State, op: Op, conn: nat, gen: nat, passed: nat) {
    && |s.posted| == 1 && s.running && s.link.conn == conn
    && match passed
       case 0 => s.posted[0].Await? && s.posted[0].wait.IsClose() && s.posted[0].op == op && s.link.gen == gen
       case 1 =>
         && s.posted[0] == Retry(op.(firstRound := false))
         && s.link.gen == if s.link.cfg.kind == Tunnel then gen + 1 else gen
       case _ => false
  }

  /** The same op connects again: the next attempt, on the next stream. */
  predicate Redials(s: State, u: State, op: Op, conn: nat, gen: nat) {
    && u.link.wire == s.link.wire + [ConnectBegun(conn + 1, gen + 1)]
    && u.posted == [Await(Resolve, op.(firstRound := false))]
  }

  lemma FailureStarts(s: State, a: Action)
    requires Inv(s) && FailsFirst(s, a)
    ensures OnTheWay(Step(s, a), s.posted[0].op.(lastEc := Heard(s, a.net)), s.link.conn, s.link.gen, 0)
  {
    if s.posted[0].wait.OnStream(s.link.cfg.kind) && s.link.expired {
      match s.posted[0].wait
      case ExWrite =>
      case ExRead =>
    }
  }

  lemma WayCloses(s: State, a: Action, op: Op, conn: nat, gen: nat)
    requires Inv(s) && Enabled(s, a) && OnTheWay(s, op, conn, gen, 0) && op.firstRound && a.Fire?
    ensures OnTheWay(Step(s, a), op, conn, gen, 1)
  {
    DeliverShape(s.link, s.posted[0].wait, s.posted[0].op.task, a.net);
  }

  /** Nothing but a stop gets in the way, whatever the close returned. */
  lemma WayStep(s: State, a: Action, op: Op, conn: nat, gen: nat, passed: nat)
    requires Inv(s) && Enabled(s, a) && OnTheWay(s, op, conn, gen, passed) && op.firstRound && Step(s, a).running
    ensures !a.Fire? ==> OnTheWay(Step(s, a), op, conn, gen, passed)
    ensures a.Fire? && passed == 0 ==> OnTheWay(Step(s, a), op, conn, gen, 1)
    ensures a.Fire? && passed == 1 ==> Redials(s, Step(s, a), op, conn, gen)
  {
    if a.Fire? && passed == 0 {
      WayCloses(s, a, op, conn, gen);
    }
  }

  /** Where the driver has got to between `i` and `k`, after `passed` handlers. */
  ghost predicate Way(tr: seq<State>, i: nat, k: nat, op: Op, conn: nat, gen: nat, passed: nat)
    requires k < |tr|
  {
    if passed < 2 then OnTheWay(tr[k], op, conn, gen, passed)
    else exists m | i <= m < k :: Redials(tr[m], tr[m + 1], op, conn, gen)
  }

  /** What holds at the start and follows the count of handlers holds at the end. */
  lemma {:induction false} ByFired(P: (nat, nat) -> bool, acts: seq<Action>, i: nat, j: nat)
    requires i <= j <= |acts| && P(i, 0)
    requires forall k: nat, n: nat | i <= k < j && P(k, n) :: P(k + 1, n + (if acts[k].Fire? then 1 else 0))
    ensures P(j, Fired(acts[i..j]))
    decreases j
  {
    if i < j {
      ByFired(P, acts, i, j - 1);
      FiredAppend(acts, i, j);
    }
  }

  lemma WayNext(cfg: Config, tr: seq<State>, acts: seq<Action>, i: nat, k: nat, op: Op, conn: nat, gen: nat, passed: nat)
    requires IsRun(cfg, tr, acts) && i <= k < |acts| && tr[k + 1].running
    requires op.firstRound && (tr[k].running ==> Way(tr, i, k, op, conn, gen, passed))
    ensures Way(tr, i, k + 1, op, conn, gen, passed + (if acts[k].Fire? then 1 else 0))
  {
    InvAlways(cfg, tr, acts, k);
    RunningBefore(cfg, tr, acts, k);
    if passed < 2 {
      WayStep(tr[k], acts[k], op, conn, gen, passed);
    }
  }

  lemma WayBack(cfg: Config, tr: seq<State>, acts: seq<Action>, i: nat, j: nat, op: Op, conn: nat, gen: nat)
    requires IsRun(cfg, tr, acts) && i <= j < |tr| && tr[j].running
    requires OnTheWay(tr[i], op, conn, gen, 0) && op.firstRound
    ensures Way(tr, i, j, op, conn, gen, Fired(acts[i..j]))
  {
    var P := (k: nat, n: nat) => k < |tr| && (tr[k].running ==> Way(tr, i, k, op, conn, gen, n));
    forall k: nat, n: nat | i <= k < j && P(k, n) ensures P(k + 1, n + (if acts[k].Fire? then 1 else 0)) {
      if tr[k + 1].running {
        WayNext(cfg, tr, acts, i, k, op, conn, gen, n);
      }
    }
    ByFired(P, acts, i, j);
  }

  lemma RunningBefore(cfg: Config, tr: seq<State>, acts: seq<Action>, j: nat)
    requires IsRun(cfg, tr, acts) && j < |acts| && tr[j + 1].running
    ensures tr[j].running
  {
    InvAlways(cfg, tr, acts, j);
  }

  /** A first failed exchange leads its own op to the next attempt on a new stream, within two
      more handlers of the driver, as long as the session is running and whatever the close
      reports. */
  lemma FirstFailureReconnects(cfg: Config, tr: seq<State>, acts: seq<Action>, i: nat, j: nat)
    requires IsRun(cfg, tr, acts) && i < j < |tr| && FailsFirst(tr[i], acts[i])
    requires tr[j].running && Fired(acts[i + 1..j]) >= 2
    ensures exists m | i < m < j ::
              Redials(tr[m], tr[m + 1], tr[i].posted[0].op.(lastEc := Heard(tr[i], acts[i].net)),
                      tr[i].link.conn, tr[i].link.gen)
  {
    InvAlways(cfg, tr, acts, i);
    FailureStarts(tr[i], acts[i]);
    WayBack(cfg, tr, acts, i + 1, j, tr[i].posted[0].op.(lastEc := Heard(tr[i], acts[i].net)),
            tr[i].link.conn, tr[i].link.gen);
  }

  // ---------------------------------------------------------------- a stream after a failure

  /** An exchange fails in this step, in either round, with the code the op hears. */
  predicate FailsNow(s: State, a: Action) {
    && s.running && a.Fire? && Enabled(s, a)
    && s.posted != [] && s.posted[0].Await? && s.posted[0].wait.IsExchange() && Heard(s, a.net) != Ok
  }

  lemma FailureIsLogged(s: State, a: Action)
    requires Inv(s) && FailsNow(s, a)
    ensures Step(s, a).link.wire ==
            s.link.wire + [ExchangeFailed(s.link.conn, s.link.gen, s.posted[0].op.task, Heard(s, a.net))]
  {
    if s.posted[0].wait.OnStream(s.link.cfg.kind) && s.link.expired {
      match s.posted[0].wait
      case ExWrite =>
      case ExRead =>
    }
  }

  /** Only if: a stream whose exchange failed is written again only if it was an abort. */
  lemma ReusedOnlyAfterAbort(cfg: Config, tr: seq<State>, acts: seq<Action>, i: nat, j: nat, k: nat)
    requires IsRun(cfg, tr, acts) && i < j < |tr| && FailsNow(tr[i], acts[i])
    requires |tr[i].link.wire| < k < |tr[j].link.wire|
    requires tr[j].link.wire[k].Written? && tr[j].link.wire[k].gen == tr[i].link.gen
    ensures Heard(tr[i], acts[i].net) == Aborted
  {
    InvAlways(cfg, tr, acts, i);
    FailureIsLogged(tr[i], acts[i]);
    WireGrows(cfg, tr, acts, i + 1, j);
    var n := |tr[i].link.wire|;
    assert tr[j].link.wire[n] == tr[i + 1].link.wire[n];
    WriteIsFresh(cfg, tr, acts, j, k);
  }

  // ---------------------------------------------------------------- until the driver goes on

  /** Nothing has happened but new requests. */
  predicate Rests(s: State, u: State) {
    u.posted == s.posted && u.link == s.link && s.tasks <= u.tasks
  }

  lemma RestStep(s: State, a: Action)
    requires Inv(s) && Enabled(s, a) && !a.Fire? && s.posted == [AdvanceTask] && Step(s, a).running
    ensures Rests(s, Step(s, a))
  {
  }

  lemma RestNext(cfg: Config, tr: seq<State>, acts: seq<Action>, s: State, k: nat)
    requires IsRun(cfg, tr, acts) && k < |acts| && !acts[k].Fire? && tr[k + 1].running
    requires s.posted == [AdvanceTask] && (tr[k].running ==> Rests(s, tr[k]))
    ensures Rests(s, tr[k + 1])
  {
    InvAlways(cfg, tr, acts, k);
    RunningBefore(cfg, tr, acts, k);
    RestStep(tr[k], acts[k]);
  }

  lemma RestsUntil(cfg: Config, tr: seq<State>, acts: seq<Action>, i: nat, j: nat)
    requires IsRun(cfg, tr, acts) && i <= j < |tr| && tr[j].running
    requires tr[i].posted == [AdvanceTask] && Fired(acts[i..j]) == 0
    ensures Rests(tr[i], tr[j])
  {
    var P := (k: nat, n: nat) => k < |tr| && (tr[k].running && n == 0 ==> Rests(tr[i], tr[k]));
    forall k: nat, n: nat | i <= k < j && P(k, n) ensures P(k + 1, n + (if acts[k].Fire? then 1 else 0)) {
      if tr[k + 1].running && n == 0 && !acts[k].Fire? {
        RestNext(cfg, tr, acts, tr[i], k);
      }
    }
    assert Rests(tr[i], tr[i]) && P(i, 0);
    ByFired(P, acts, i, j);
  }

  /** The handler after which a session that is still running goes on with its next task. */
  ghost predicate GoesOn(tr: seq<State>, acts: seq<Action>, i: nat, j: nat)
    requires |tr| == |acts| + 1
  {
    i < j < |acts| && acts[j].Fire? && Fired(acts[i + 1..j]) == 0 && tr[j].running && |tr[j].tasks| > 1
  }

  /** What going on with task `id` appends to the log. */
  function NextEntry(l: Link, id: nat): Wire {
    if l.open then Written(l.conn, l.gen, id) else ConnectBegun(l.conn + 1, l.gen)
  }

  lemma AdvanceGoesOn(s: State, a: Action)
    requires Inv(s) && Enabled(s, a) && a.Fire? && s.running && s.posted == [AdvanceTask] && |s.tasks| > 1
    ensures Step(s, a).link.wire == s.link.wire + [NextEntry(s.link, s.tasks[1])]
  {
  }

  lemma NextGoesOn(cfg: Config, tr: seq<State>, acts: seq<Action>, i: nat, j: nat)
    requires IsRun(cfg, tr, acts) && GoesOn(tr, acts, i, j) && tr[i + 1].posted == [AdvanceTask]
    ensures tr[j + 1].link.wire == tr[i + 1].link.wire + [NextEntry(tr[i + 1].link, tr[j].tasks[1])]
  {
    InvAlways(cfg, tr, acts, j);
    RestsUntil(cfg, tr, acts, i + 1, j);
    AdvanceGoesOn(tr[j], acts[j]);
  }

  // ---------------------------------------------------------------- after an aborted exchange

  /** If: after an abort the next request goes out on the same stream, in the very next handler
      of the driver. */
  lemma ReusedAfterAbort(cfg: Config, tr: seq<State>, acts: seq<Action>, i: nat, j: nat)
    requires IsRun(cfg, tr, acts) && i < |acts| && FailsNow(tr[i], acts[i]) && Heard(tr[i], acts[i].net) == Aborted
    requires GoesOn(tr, acts, i, j)
    ensures tr[j + 1].link.wire ==
            tr[i + 1].link.wire + [Written(tr[i].link.conn, tr[i].link.gen, tr[j].tasks[1])]
  {
    InvAlways(cfg, tr, acts, i);
    StreamIsOpen(cfg, tr, acts, i);
    AbortKeepsStream(tr[i], acts[i]);
    NextGoesOn(cfg, tr, acts, i, j);
  }

  lemma StreamIsOpen(cfg: Config, tr: seq<State>, acts: seq<Action>, i: nat)
    requires IsRun(cfg, tr, acts) && i < |acts| && FailsNow(tr[i], acts[i])
    ensures tr[i].link.open || tr[i].link.expired
  {
    FreshKept();
    Always(Fresh, cfg, tr, acts, i);
  }

  lemma AbortKeepsStream(s: State, a: Action)
    requires Inv(s) && FailsNow(s, a) && Heard(s, a.net) == Aborted && (s.link.open || s.link.expired)
    ensures var u := Step(s, a);
            && u.posted == [AdvanceTask] && u.link.open
            && u.link.conn == s.link.conn && u.link.gen == s.link.gen
  {
  }

  // ---------------------------------------------------------------- after an aborted connect

  /** A connect of a running session is reported as aborted in this step. */
  predicate AbortsConnect(s: State, a: Action) {
    && s.running && a.Fire? && Enabled(s, a)
    && s.posted != [] && s.posted[0].Await? && s.posted[0].wait.IsConnect() && Heard(s, a.net) == Aborted
  }

  /** Whether it leaves the socket open: a dial may close it. */
  predicate LeftOpen(s: State, a: Action)
    requires AbortsConnect(s, a)
  {
    s.link.open && (s.posted[0].wait.Dial? ==> a.net.keepsOpen)
  }

  lemma AbortLeaves(s: State, a: Action)
    requires Inv(s) && AbortsConnect(s, a)
    ensures var u := Step(s, a);
            && u.posted == [AdvanceTask] && (u.link.open <==> LeftOpen(s, a))
            && u.link.conn == s.link.conn && u.link.gen == s.link.gen
  {
    match s.posted[0].wait
    case Resolve =>
    case Dial =>
    case ProxyWrite =>
    case ProxyRead =>
    case Handshake =>
  }

  lemma AbortLeavesAt(cfg: Config, tr: seq<State>, acts: seq<Action>, i: nat)
    requires IsRun(cfg, tr, acts) && i < |acts| && AbortsConnect(tr[i], acts[i])
    ensures tr[i + 1].posted == [AdvanceTask] && (tr[i + 1].link.open <==> LeftOpen(tr[i], acts[i]))
    ensures tr[i + 1].link.conn == tr[i].link.conn && tr[i + 1].link.gen == tr[i].link.gen
  {
    InvAlways(cfg, tr, acts, i);
    AbortLeaves(tr[i], acts[i]);
  }

  /** What going on with task `id` then appends: a write on the same stream if the socket was
      left open, otherwise the next attempt, on that stream. */
  function EntryAfterAbort(s: State, a: Action, id: nat): Wire
    requires AbortsConnect(s, a)
  {
    if LeftOpen(s, a) then Written(s.link.conn, s.link.gen, id) else ConnectBegun(s.link.conn + 1, s.link.gen)
  }

  lemma EntryAfter(cfg: Config, tr: seq<State>, acts: seq<Action>, i: nat, id: nat)
    requires IsRun(cfg, tr, acts) && i < |acts| && AbortsConnect(tr[i], acts[i])
    ensures tr[i + 1].posted == [AdvanceTask]
    ensures NextEntry(tr[i + 1].link, id) == EntryAfterAbort(tr[i], acts[i], id)
  {
    AbortLeavesAt(cfg, tr, acts, i);
  }

  /** The exact law: the next request is written on the stream whose connect was aborted if and
      only if the socket was left open; otherwise the next attempt is made, on that stream. */
  lemma AfterAbortedConnect(cfg: Config, tr: seq<State>, acts: seq<Action>, i: nat, j: nat)
    requires IsRun(cfg, tr, acts) && i < |acts| && AbortsConnect(tr[i], acts[i]) && GoesOn(tr, acts, i, j)
    ensures tr[j + 1].link.wire == tr[i + 1].link.wire + [EntryAfterAbort(tr[i], acts[i], tr[j].tasks[1])]
  {
    EntryAfter(cfg, tr, acts, i, tr[j].tasks[1]);
    NextGoesOn(cfg, tr, acts, i, j);
  }

  /** Nothing was written on connection `conn` since the log had `n` entries. */
  predicate Unwritten(log: seq<Wire>, conn: nat, n: nat) {
    forall k | n <= k < |log| :: log[k].Written? ==> log[k].conn != conn
  }

  /** Connection `conn` is done with: its socket is closed, or a later one has begun. */
  predicate Abandoned(v: View, conn: nat, n: nat) {
    && Unwritten(v.l.wire, conn, n)
    && (v.live ==> v.l.conn > conn || (v.l.conn == conn && !v.l.open && v.st.Idle?))
  }

  lemma ContinueUnwritten(l: Link, w: Wait, id: nat, net: Net, conn: nat, n: nat)
    requires Plausible(l, net) && Unwritten(l.wire, conn, n)
    ensures Unwritten(Continue(l, w, id, net).0.wire, conn, n)
  {
    if w.IsConnect() {
      ConnectLogs(log => Unwritten(log, conn, n), l, w, id, net);
    }
  }

  lemma HearAbandoned(v: View, net: Net, conn: nat, n: nat)
    requires Abandoned(v, conn, n) && Can(v, Hear(net))
    ensures Abandoned(Apply(v, Hear(net)), conn, n)
  {
    DeliverShape(v.l, v.st.w, v.st.op.task, net);
    if v.st.w.OnStream(v.l.cfg.kind) && v.l.expired {
      ContinueUnwritten(v.l.(expired := false), v.st.w, v.st.op.task, net.(code := StreamTimeout), conn, n);
    } else {
      ContinueUnwritten(v.l, v.st.w, v.st.op.task, net, conn, n);
    }
  }

  lemma AbandonedKept(conn: nat, n: nat)
    ensures Kept(v => Abandoned(v, conn, n))
  {
    forall v, m | Abandoned(v, conn, n) && Can(v, m) ensures Abandoned(Apply(v, m), conn, n) {
      if m.Hear? {
        HearAbandoned(v, m.net, conn, n);
      }
    }
  }

  /** ... and a connection whose aborted connect left the socket closed is never written on. */
  lemma WrittenOnlyIfLeftOpen(cfg: Config, tr: seq<State>, acts: seq<Action>, i: nat, j: nat, k: nat)
    requires IsRun(cfg, tr, acts) && i < j < |tr| && AbortsConnect(tr[i], acts[i])
    requires |tr[i + 1].link.wire| <= k < |tr[j].link.wire|
    requires tr[j].link.wire[k].Written? && tr[j].link.wire[k].conn == tr[i].link.conn
    ensures LeftOpen(tr[i], acts[i])
  {
    var c, n := tr[i].link.conn, |tr[i + 1].link.wire|;
    if !LeftOpen(tr[i], acts[i]) {
      AbortLeavesAt(cfg, tr, acts, i);
      AbandonedKept(c, n);
      From(v => Abandoned(v, c, n), cfg, tr, acts, i + 1, j);
    }
  }
}
