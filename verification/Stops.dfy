/** Which close a stop makes, and the code with which a stop that does not wait reports. */
module Stops {
  import opened ErrorCodes
  import opened Transports
  import opened Protocol
  import opened Invariants
  import opened Runs
  import opened Theorems
  import opened Shutdown

  // ---------------------------------------------------------------- the beginning

  /** A stop takes the session and the transport down. It waits for the shutdown of an open
      socket if it is graceful, and for nothing if it is not; a closed one is closed later. */
  predicate Stops(s: State, u: State, graceful: bool) {
    && !u.running && !u.link.running && u.stops == s.stops + 1
    && u.tasks == s.tasks && u.posted == s.posted && u.completions == s.completions && u.link.wire == s.link.wire
    && (if s.link.open && !graceful then
          && u.stopPosted == []
          && (if s.tasks != [] then u.stop == Waiting && u.reports == s.reports
              else u.stop == NoStop && u.reports == s.reports + [Report(Ok, false)])
        else
          && u.stop == Closing && u.reports == s.reports
          && u.stopPosted == [if s.link.open then Shutdown else ClosePosted]
          && u.link.open == s.link.open && u.link.armed)
  }

  lemma StopInStep(s: State, graceful: bool)
    requires Inv(s) && s.stop == NoStop
    ensures Stops(s, Step(s, Stop(graceful)), graceful)
  {
  }

  lemma StopLaw(cfg: Config, tr: seq<State>, acts: seq<Action>, i: nat)
    requires IsRun(cfg, tr, acts) && i < |acts| && acts[i].Stop?
    ensures Stops(tr[i], tr[i + 1], acts[i].graceful)
  {
    InvAlways(cfg, tr, acts, i);
    StopInStep(tr[i], acts[i].graceful);
  }

  // ---------------------------------------------------------------- the end of its close

  /** The code that the close of a stop hears. */
  function StopHeard(s: State, net: Net): Code
    requires s.stopPosted != []
  {
    if s.stopPosted[0].OnStream(s.link.cfg.kind) && s.link.expired then StreamTimeout else net.code
  }

  /** The ends of a TLS shutdown that count as success. */
  const GOOD_ENDS := {Ok, Eof, Truncated, Unspecified, Aborted}

  /** What a stop makes of the end of its close: it reports if the queue is empty, and waits
      otherwise. A shutdown leaves the socket closed. */
  predicate ReportsOrWaits(s: State, u: State, code: Code)
    requires s.stopPosted != []
  {
    && u.stopPosted == [] && !u.link.armed && (s.stopPosted[0] == Shutdown ==> !u.link.open)
    && u.tasks == s.tasks && u.completions == s.completions && u.link.wire == s.link.wire
    && (if s.tasks != [] then u.stop == Waiting && u.reports == s.reports
        else u.stop == NoStop && u.reports == s.reports + [Report(code, false)])
  }

  /** The code of the close: only the shutdown of a TLS stream can fail. */
  predicate IsCodeOf(s: State, net: Net, code: Code)
    requires s.stopPosted != []
  {
    var good := s.stopPosted[0] == ClosePosted || s.link.cfg.kind == Tcp || StopHeard(s, net) in GOOD_ENDS;
    code == if good then Ok else StopHeard(s, net)
  }

  lemma ContinueEnds(l: Link, w: Wait, net: Net)
    requires Plausible(l, net) && w.IsClose()
    ensures var (u, p) := Continue(l, w, 0, net);
            && u.wire == l.wire && !u.armed && (w == Shutdown ==> !u.open)
            && p == Closed(if w == ClosePosted || l.cfg.kind == Tcp || net.code in GOOD_ENDS then Ok else net.code)
  {
  }

  lemma EndInStep(s: State, a: Action, code: Code)
    requires Inv(s) && Enabled(s, a) && a.FireStop? && IsCodeOf(s, a.net, code)
    ensures ReportsOrWaits(s, Step(s, a), code)
  {
    if s.stopPosted[0].OnStream(s.link.cfg.kind) && s.link.expired {
      ContinueEnds(s.link.(expired := false), s.stopPosted[0], a.net.(code := StreamTimeout));
    } else {
      ContinueEnds(s.link, s.stopPosted[0], a.net);
    }
  }

  lemma StopEndLaw(cfg: Config, tr: seq<State>, acts: seq<Action>, i: nat, code: Code)
    requires IsRun(cfg, tr, acts) && i < |acts| && acts[i].FireStop?
    requires tr[i].stopPosted != [] && IsCodeOf(tr[i], acts[i].net, code)
    ensures ReportsOrWaits(tr[i], tr[i + 1], code)
  {
    InvAlways(cfg, tr, acts, i);
    EndInStep(tr[i], acts[i], code);
  }

  // ---------------------------------------------------------------- from beginning to end

  /** The close `w` of a stop is still under way, or the stop has gone on to wait. */
  predicate UnderWay(s: State, w: Wait) {
    (s.stop == Closing && s.stopPosted == [w]) || WaitsOrWakes(s.stop)
  }

  lemma UnderWayStep(s: State, a: Action, w: Wait)
    requires Inv(s) && Enabled(s, a) && UnderWay(s, w)
    ensures Step(s, a).reports == s.reports ==> UnderWay(Step(s, a), w)
  {
    WaitStep(s, a);
    if a.Fire? {
      FireStops(s, a.net);
    }
  }

  /** While the stop that was begun before `i` has not reported, it is under way at `k`. */
  ghost predicate NotYet(tr: seq<State>, i: nat, k: nat, w: Wait)
    requires i < |tr| && k < |tr|
  {
    tr[i].reports <= tr[k].reports && (tr[k].reports == tr[i].reports ==> UnderWay(tr[k], w))
  }

  lemma NotYetNext(cfg: Config, tr: seq<State>, acts: seq<Action>, i: nat, k: nat, w: Wait)
    requires IsRun(cfg, tr, acts) && i <= k < |acts| && NotYet(tr, i, k, w)
    ensures NotYet(tr, i, k + 1, w)
  {
    InvAlways(cfg, tr, acts, k);
    WaitStep(tr[k], acts[k]);
    if tr[k].reports == tr[i].reports {
      UnderWayStep(tr[k], acts[k], w);
    }
  }

  lemma NotYetUntil(cfg: Config, tr: seq<State>, acts: seq<Action>, i: nat, j: nat, w: Wait)
    requires IsRun(cfg, tr, acts) && i <= j < |tr| && UnderWay(tr[i], w)
    ensures NotYet(tr, i, j, w)
  {
    var P := (k: nat) => k < |tr| && NotYet(tr, i, k, w);
    forall k: nat | i <= k < j && P(k) ensures P(k + 1) {
      NotYetNext(cfg, tr, acts, i, k, w);
    }
    Along(P, i, j);
  }

  lemma ReportsOfClose(s: State, a: Action, w: Wait, code: Code)
    requires Inv(s) && Enabled(s, a) && UnderWay(s, w)
    requires Step(s, a).reports == s.reports + [Report(code, false)]
    ensures a.FireStop? && s.stopPosted == [w] && IsCodeOf(s, a.net, code)
  {
    assert Step(s, a).reports[|s.reports|] == Report(code, false);
    if a.Fire? {
      FireReports(s, a.net);
    } else if a.FireStop? {
      var c := if w == ClosePosted || s.link.cfg.kind == Tcp || StopHeard(s, a.net) in GOOD_ENDS then Ok else StopHeard(s, a.net);
      EndInStep(s, a, c);
      assert Step(s, a).reports[|s.reports|] == Report(c, false);
    }
  }

  /** The code of a stop that reports without having waited. It reports in the step in which it
      was begun exactly if the socket was open and it was not graceful, and then with success;
      otherwise when it hears of its close: with success if the socket was not open, if it is a
      plain TCP stream, or if the shutdown ended well, and else with the code of the shutdown. */
  lemma PromptStopCode(cfg: Config, tr: seq<State>, acts: seq<Action>, i: nat, j: nat, code: Code)
    requires IsRun(cfg, tr, acts) && i <= j < |acts| && acts[i].Stop?
    requires tr[j].reports == tr[i].reports && tr[j + 1].reports == tr[i].reports + [Report(code, false)]
    ensures i == j <==> tr[i].link.open && !acts[i].graceful
    ensures i == j ==> code == Ok
    ensures i < j ==>
              && acts[j].FireStop? && tr[j].stopPosted != []
              && (if !tr[i].link.open || cfg.kind == Tcp || StopHeard(tr[j], acts[j].net) in GOOD_ENDS then code == Ok
                  else code == StopHeard(tr[j], acts[j].net))
  {
    StopLaw(cfg, tr, acts, i);
    if i < j {
      LaterStopCode(cfg, tr, acts, i, j, code);
    } else {
      assert tr[i + 1].reports[|tr[i].reports|] == Report(code, false);
    }
  }

  /** A prompt report while the close `w` is under way is the report of that close. */
  lemma CloseReports(cfg: Config, tr: seq<State>, acts: seq<Action>, i: nat, j: nat, w: Wait, code: Code)
    requires IsRun(cfg, tr, acts) && i <= j < |acts| && UnderWay(tr[i], w) && tr[j].reports == tr[i].reports
    requires tr[j + 1].reports == tr[j].reports + [Report(code, false)]
    ensures acts[j].FireStop? && tr[j].stopPosted == [w]
    ensures IsCodeOf(tr[j], acts[j].net, code) && tr[j].link.cfg == cfg
  {
    NotYetUntil(cfg, tr, acts, i, j, w);
    InvAlways(cfg, tr, acts, j);
    ReportsOfClose(tr[j], acts[j], w, code);
    ConfigStays(cfg, tr, acts, j);
  }

  /** A stop that has not reported in its own step has begun a close, or waits. */
  lemma HasBegun(cfg: Config, tr: seq<State>, acts: seq<Action>, i: nat, j: nat)
    requires IsRun(cfg, tr, acts) && i < j < |tr| && acts[i].Stop? && tr[j].reports == tr[i].reports
    ensures tr[i + 1].reports == tr[i].reports
    ensures UnderWay(tr[i + 1], if tr[i].link.open then Shutdown else ClosePosted)
    ensures tr[i].link.open && !acts[i].graceful ==> tr[i + 1].stop == Waiting
  {
    StopLaw(cfg, tr, acts, i);
    ReportsGrow(cfg, tr, acts, i + 1, j);
  }

  lemma LaterStopCode(cfg: Config, tr: seq<State>, acts: seq<Action>, i: nat, j: nat, code: Code)
    requires IsRun(cfg, tr, acts) && i < j < |acts| && acts[i].Stop?
    requires tr[j].reports == tr[i].reports && tr[j + 1].reports == tr[i].reports + [Report(code, false)]
    ensures !(tr[i].link.open && !acts[i].graceful)
    ensures acts[j].FireStop? && tr[j].stopPosted == [if tr[i].link.open then Shutdown else ClosePosted]
    ensures IsCodeOf(tr[j], acts[j].net, code) && tr[j].link.cfg == cfg
  {
    HasBegun(cfg, tr, acts, i, j);
    CloseReports(cfg, tr, acts, i + 1, j, if tr[i].link.open then Shutdown else ClosePosted, code);
    if tr[i + 1].stop == Waiting {
      CloseReports(cfg, tr, acts, i + 1, j, if tr[i].link.open then ClosePosted else Shutdown, code);
      assert false;
    }
  }

  lemma {:induction false} ReportsGrow(cfg: Config, tr: seq<State>, acts: seq<Action>, i: nat, j: nat)
    requires IsRun(cfg, tr, acts) && i <= j < |tr|
    ensures tr[i].reports <= tr[j].reports
    decreases j
  {
    if i < j {
      ReportsGrow(cfg, tr, acts, i, j - 1);
      InvAlways(cfg, tr, acts, j - 1);
      WaitStep(tr[j - 1], acts[j - 1]);
    }
  }
}
