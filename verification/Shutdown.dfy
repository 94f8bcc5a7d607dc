/** What still happens once a session is no longer running, and what a stop reports. */
module Shutdown {
  import opened ErrorCodes
  import opened Transports
  import opened Protocol
  import opened Invariants
  import opened Moves
  import opened Runs
  import opened Streams
  import opened Drain

  predicate NoWriteFrom(log: seq<Wire>, n: nat) {
    forall k | n <= k < |log| :: !log[k].Written?
  }

  predicate AbortedFrom(done: seq<Completion>, n: nat) {
    forall k | n <= k < |done| :: done[k].code == Aborted
  }

  /** Since the log was `log` and the completions were `done`, nothing was written and only
      `operation_aborted` was delivered. */
  predicate Quiet(v: View, log: seq<Wire>, done: seq<Completion>) {
    && !v.live
    && log <= v.l.wire && NoWriteFrom(v.l.wire, |log|)
    && done <= v.done && AbortedFrom(v.done, |done|)
  }

  predicate QuietLog(w0: seq<Wire>, log: seq<Wire>) {
    w0 <= log && NoWriteFrom(log, |w0|)
  }

  lemma ContinueQuiet(l: Link, w: Wait, id: nat, net: Net, w0: seq<Wire>)
    requires Plausible(l, net) && QuietLog(w0, l.wire)
    ensures QuietLog(w0, Continue(l, w, id, net).0.wire)
  {
    if w.IsConnect() {
      forall log, x | QuietLog(w0, log) && OfConnect(l.conn, x) ensures QuietLog(w0, log + [x]) {
      }
      ConnectLogs(log => QuietLog(w0, log), l, w, id, net);
    }
  }

  lemma HearQuiet(v: View, net: Net, w0: seq<Wire>, done: seq<Completion>)
    requires Quiet(v, w0, done) && Can(v, Hear(net))
    ensures Quiet(Apply(v, Hear(net)), w0, done)
  {
    if v.st.w.OnStream(v.l.cfg.kind) && v.l.expired {
      ContinueQuiet(v.l.(expired := false), v.st.w, v.st.op.task, net.(code := StreamTimeout), w0);
    } else {
      ContinueQuiet(v.l, v.st.w, v.st.op.task, net, w0);
    }
  }

  lemma QuietKept(w0: seq<Wire>, done: seq<Completion>)
    ensures Kept(v => Quiet(v, w0, done))
  {
    forall v, m | Quiet(v, w0, done) && Can(v, m) ensures Quiet(Apply(v, m), w0, done) {
      if m.Hear? {
        HearQuiet(v, m.net, w0, done);
      }
    }
  }

  /** Once `running` is false it stays false, no request is written any more, and every later
      completion is `operation_aborted`. */
  lemma SafeAfterShutdown(cfg: Config, tr: seq<State>, acts: seq<Action>, i: nat, j: nat)
    requires IsRun(cfg, tr, acts) && i <= j < |tr| && !tr[i].running
    ensures !tr[j].running
    ensures tr[i].link.wire <= tr[j].link.wire && NoWriteFrom(tr[j].link.wire, |tr[i].link.wire|)
    ensures tr[i].completions <= tr[j].completions && AbortedFrom(tr[j].completions, |tr[i].completions|)
  {
    var w0, done := tr[i].link.wire, tr[i].completions;
    QuietKept(w0, done);
    From(v => Quiet(v, w0, done), cfg, tr, acts, i, j);
  }

  // ---------------------------------------------------------------- who ends a session

  /** The op that ends a session completes its own task, with the code of its failure. */
  predicate DiesOf(s: State, u: State, op: Op) {
    s.running && !u.running ==>
      && |u.completions| == |s.completions| + 1
      && u.completions == s.completions + [u.completions[|s.completions|]]
      && u.completions[|s.completions|].id == op.task
      && u.completions[|s.completions|].code != Ok
      && u.completions[|s.completions|].code != Aborted
  }

  lemma SettleDies(s: State, op: Op, p: Progress)
    requires p.Closed? ==> op.lastEc != Ok && op.lastEc != Aborted
    ensures DiesOf(s, OpSettle(s, op, p), op)
  {
  }

  lemma RunLives(s: State, op: Op)
    ensures OpRun(s, op).running == s.running
  {
  }

  lemma FireDies(s: State, net: Net)
    requires Inv(s) && Enabled(s, Fire(0, net))
    ensures DiesOf(s, Step(s, Fire(0, net)), Op(s.tasks[0], true, Ok))
  {
    var u := s.(posted := Without(s.posted, 0));
    match s.posted[0]
    case ProcessTask => RunLives(u, Op(u.tasks[0], true, Ok));
    case AdvanceTask =>
      if u.running && |u.tasks| > 1 {
        RunLives(u.(tasks := u.tasks[1..]), Op(u.tasks[1], true, Ok));
      }
    case Retry(op) => RunLives(u, op);
    case Await(w, op) =>
      DeliverShape(u.link, w, op.task, net);
      var (l, p) := Deliver(u.link, w, op.task, net);
      SettleDies(u.(link := l), op, p);
  }

  /** A session goes down by a stop, which completes nothing itself, or by the failure of the
      task in front, whose own code is the only one delivered in that step. */
  lemma CauseOfShutdown(cfg: Config, tr: seq<State>, acts: seq<Action>, i: nat)
    requires IsRun(cfg, tr, acts) && i < |acts| && tr[i].running && !tr[i + 1].running
    ensures acts[i].Stop? ==> tr[i + 1].completions == tr[i].completions
    ensures !acts[i].Stop? ==>
              && tr[i].tasks != []
              && exists c :: tr[i + 1].completions == tr[i].completions + [c]
                          && c.id == tr[i].tasks[0] && c.code != Ok && c.code != Aborted
  {
    InvAlways(cfg, tr, acts, i);
    if acts[i].Fire? {
      FireDies(tr[i], acts[i].net);
      var c := tr[i + 1].completions[|tr[i].completions|];
      assert tr[i + 1].completions == tr[i].completions + [c];
    }
  }

  // ---------------------------------------------------------------- stopping

  predicate ReportSound(s: State, u: State) {
    |u.reports| != |s.reports| ==>
      && |u.reports| == |s.reports| + 1
      && (var r := u.reports[|s.reports|];
          && u.reports == s.reports + [r]
          && (r.waited ==> r.code == if s.stop == WaitCancelled then Ok else TimedOut)
          && (r.waited && r.code != Ok ==> s.stop == WaitExpired)
          && (!r.waited || r.code == Ok ==> u.tasks == [])
          && r.code != Aborted)
  }

  lemma FireReports(s: State, net: Net)
    requires Inv(s) && Enabled(s, Fire(0, net))
    ensures Step(s, Fire(0, net)).reports == s.reports
  {
  }

  lemma StepReports(s: State, a: Action)
    requires Inv(s) && Enabled(s, a)
    ensures ReportSound(s, Step(s, a))
  {
    if a.Fire? {
      FireReports(s, a.net);
    } else if a.FireStop? {
      DeliverShape(s.link, s.stopPosted[a.i], 0, a.net);
    }
  }

  /** A stop that reports success, or that did not have to wait, leaves an empty queue; one
      that had to wait reports success or `timed_out`. No stop reports `operation_aborted`. */
  lemma StopReportsTruth(cfg: Config, tr: seq<State>, acts: seq<Action>, i: nat)
    requires IsRun(cfg, tr, acts) && i < |acts|
    ensures ReportSound(tr[i], tr[i + 1])
  {
    InvAlways(cfg, tr, acts, i);
    StepReports(tr[i], acts[i]);
  }

  // ---------------------------------------------------------------- one report for each stop

  lemma FireStops(s: State, net: Net)
    requires Inv(s) && Enabled(s, Fire(0, net))
    ensures var u := Step(s, Fire(0, net));
            && u.stops == s.stops
            && u.stop == if s.stop == Waiting && u.tasks == [] then WaitCancelled else s.stop
  {
  }

  /** A stop that has been begun and has not reported is under way, and no other. */
  predicate ReportsPaired(s: State) {
    |s.reports| + (if s.stop == NoStop then 0 else 1) == s.stops
  }

  lemma StepPairs(s: State, a: Action)
    requires Inv(s) && Enabled(s, a) && ReportsPaired(s)
    ensures ReportsPaired(Step(s, a))
  {
    if a.Fire? {
      FireStops(s, a.net);
      FireReports(s, a.net);
    }
  }

  /** In every run each stop reports once, and only the last can still be under way. */
  lemma {:induction false} EachStopReportsOnce(cfg: Config, tr: seq<State>, acts: seq<Action>, i: nat)
    requires IsRun(cfg, tr, acts) && i < |tr|
    ensures ReportsPaired(tr[i])
  {
    if i > 0 {
      EachStopReportsOnce(cfg, tr, acts, i - 1);
      InvAlways(cfg, tr, acts, i - 1);
      StepPairs(tr[i - 1], acts[i - 1]);
    }
  }

  // ---------------------------------------------------------------- how a wait ends

  predicate Expires(acts: seq<Action>) {
    exists k | 0 <= k < |acts| :: acts[k].WaitExpires?
  }

  predicate WaitsOrWakes(st: StopState) {
    st == Waiting || st == WaitExpired || st == WaitCancelled
  }

  lemma WaitStep(s: State, a: Action)
    requires Inv(s) && Enabled(s, a)
    ensures var u := Step(s, a);
            && s.reports <= u.reports
            && (WaitsOrWakes(s.stop) && u.reports == s.reports ==>
                  && WaitsOrWakes(u.stop)
                  && (u.stop == WaitExpired <==> s.stop == WaitExpired || a.WaitExpires?))
  {
    if a.Fire? {
      FireStops(s, a.net);
      FireReports(s, a.net);
    }
  }

  /** The stop that waits at `i` is still to report at `k`, and knows whether its timer ran out. */
  ghost predicate WaitKnows(tr: seq<State>, acts: seq<Action>, i: nat, k: nat)
    requires i <= k < |tr| && |tr| == |acts| + 1
  {
    && tr[i].reports <= tr[k].reports
    && (tr[k].reports == tr[i].reports ==>
          WaitsOrWakes(tr[k].stop) && (tr[k].stop == WaitExpired <==> Expires(acts[i..k])))
  }

  lemma ExpiresAppend(acts: seq<Action>, i: nat, k: nat)
    requires i <= k < |acts|
    ensures Expires(acts[i..k + 1]) <==> Expires(acts[i..k]) || acts[k].WaitExpires?
  {
    assert acts[i..k + 1] == acts[i..k] + [acts[k]];
    if j :| 0 <= j < |acts[i..k]| && acts[i..k][j].WaitExpires? {
      assert acts[i..k + 1][j].WaitExpires?;
    }
    assert acts[i..k + 1][k - i] == acts[k];
  }

  lemma WaitStarts(tr: seq<State>, acts: seq<Action>, i: nat)
    requires i < |tr| && |tr| == |acts| + 1 && tr[i].stop == Waiting
    ensures WaitKnows(tr, acts, i, i)
  {
    assert acts[i..i] == [];
  }

  lemma WaitNext(cfg: Config, tr: seq<State>, acts: seq<Action>, i: nat, k: nat)
    requires IsRun(cfg, tr, acts) && i <= k < |acts| && WaitKnows(tr, acts, i, k)
    ensures WaitKnows(tr, acts, i, k + 1)
  {
    InvAlways(cfg, tr, acts, k);
    WaitStep(tr[k], acts[k]);
    ExpiresAppend(acts, i, k);
  }

  lemma WaitLasts(cfg: Config, tr: seq<State>, acts: seq<Action>, i: nat, j: nat)
    requires IsRun(cfg, tr, acts) && i <= j < |tr| && tr[i].stop == Waiting
    ensures WaitKnows(tr, acts, i, j)
  {
    var P := (k: nat) => i <= k < |tr| && WaitKnows(tr, acts, i, k);
    forall k: nat | i <= k < j && P(k) ensures P(k + 1) {
      WaitNext(cfg, tr, acts, i, k);
    }
    WaitStarts(tr, acts, i);
    Along(P, i, j);
  }

  /** A stop that waits reports success if and only if its timer has not run out by then, and
      then the queue is empty. */
  lemma WaitSucceedsIff(cfg: Config, tr: seq<State>, acts: seq<Action>, i: nat, j: nat)
    requires IsRun(cfg, tr, acts) && i <= j < |acts| && tr[i].stop == Waiting
    requires acts[j].StopWakes? && tr[j].reports == tr[i].reports
    ensures tr[j + 1].reports == tr[i].reports + [Report(if Expires(acts[i..j]) then TimedOut else Ok, true)]
    ensures !Expires(acts[i..j]) ==> tr[j + 1].tasks == []
  {
    InvAlways(cfg, tr, acts, j);
    WaitLasts(cfg, tr, acts, i, j);
  }

  /** While a stop waits, a handler of the driver is pending and the queue cannot grow. */
  lemma WaitingIsDriven(cfg: Config, tr: seq<State>, acts: seq<Action>, i: nat)
    requires IsRun(cfg, tr, acts) && i < |tr| && tr[i].stop == Waiting
    ensures !tr[i].running && tr[i].tasks != [] && |tr[i].posted| == 1
  {
    InvAlways(cfg, tr, acts, i);
  }

  lemma {:induction false} NothingAccepted(cfg: Config, tr: seq<State>, acts: seq<Action>, i: nat, j: nat)
    requires IsRun(cfg, tr, acts) && i <= j < |tr| && !tr[i].running
    ensures tr[j].accepted == tr[i].accepted
    decreases j
  {
    if i < j {
      NothingAccepted(cfg, tr, acts, i, j - 1);
      SafeAfterShutdown(cfg, tr, acts, i, j - 1);
      InvAlways(cfg, tr, acts, j - 1);
      StepAccepts(tr[j - 1], acts[j - 1]);
    }
  }

  lemma StepAccepts(s: State, a: Action)
    requires Inv(s) && Enabled(s, a) && !s.running
    ensures Step(s, a).accepted == s.accepted
  {
    if a.Fire? {
      FireAccepts(s, a.net);
    }
  }

  /** No lost wake-up: a waiting stop has been woken by the time the driver has run nineteen
      handlers for each task that was in the queue, whatever the network answered. */
  lemma StopIsWoken(cfg: Config, tr: seq<State>, acts: seq<Action>, i: nat, j: nat)
    requires IsRun(cfg, tr, acts) && i <= j < |tr|
    requires tr[i].stop == Waiting && PER_TASK * |tr[i].tasks| <= Fired(acts[i..j])
    ensures tr[j].tasks == [] && tr[j].stop != Waiting
  {
    WaitingIsDriven(cfg, tr, acts, i);
    NothingAccepted(cfg, tr, acts, i, j);
    QueueDrains(cfg, tr, acts, i, j);
    InvAlways(cfg, tr, acts, j);
  }
}
