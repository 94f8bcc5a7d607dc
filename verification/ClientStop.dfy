/** Stopping every session of a client, one after the other. */
module ClientStops {
  import opened ErrorCodes

  /** Where the resumable loop of `client_stop_sessions_op` is. */
  datatype Stage = NotStarted | Stopping | Finished(report: Code)

  /** The stop op over `end` sessions: `begin` is the session being stopped, `ec` the last
      failure, `asked` the sessions whose stop was started, in order. */
  datatype StopOp = StopOp(end: nat, begin: nat, ec: Code, stage: Stage, asked: seq<nat>)

  function Fresh(end: nat): StopOp {
    StopOp(end, 0, Ok, NotStarted, [])
  }

  /** The head of the loop, reached with the result `ec` of the last resumption. */
  function LoopHead(op: StopOp, ec: Code): StopOp {
    if op.begin != op.end then op.(stage := Stopping, asked := op.asked + [op.begin])
    else op.(stage := Finished(if op.ec != Ok then Aborted else ec))
  }

  /** The op is called, for the first time or with the result of a session's stop. */
  function Resume(op: StopOp, ec: Code): StopOp {
    match op.stage
    case NotStarted => LoopHead(op.(begin := 0), ec)
    case Stopping => LoopHead(op.(ec := if ec != Ok then ec else op.ec, begin := op.begin + 1), ec)
    case Finished(_) => op
  }

  /** The op started, and then resumed with these results. */
  function After(n: nat, rs: seq<Code>): StopOp {
    if rs == [] then Resume(Fresh(n), Ok) else Resume(After(n, rs[..|rs| - 1]), rs[|rs| - 1])
  }

  predicate AllOk(rs: seq<Code>) {
    forall i | 0 <= i < |rs| :: rs[i] == Ok
  }

  function Indices(n: nat): seq<nat> {
    seq(n, i requires 0 <= i < n => i)
  }

  /** After `k` results, the stops of sessions 0 to `k` have been started, once each and in
      order, and nothing has been reported. */
  lemma {:induction false} WhileStopping(n: nat, rs: seq<Code>)
    requires |rs| < n
    ensures var op := After(n, rs);
            && op.stage == Stopping && op.end == n && op.begin == |rs|
            && op.asked == Indices(|rs| + 1) && (op.ec == Ok <==> AllOk(rs))
  {
    if rs == [] {
      assert Indices(1) == [0];
    } else {
      var k := |rs| - 1;
      WhileStopping(n, rs[..k]);
      assert Indices(|rs| + 1) == Indices(|rs|) + [|rs|];
      assert rs == rs[..k] + [rs[k]];
    }
  }

  lemma AllOkSplits(rs: seq<Code>)
    requires rs != []
    ensures AllOk(rs) <==> AllOk(rs[..|rs| - 1]) && rs[|rs| - 1] == Ok
  {
    assert rs == rs[..|rs| - 1] + [rs[|rs| - 1]];
  }

  /** With all the results in, every session was asked to stop exactly once, in order, and the
      report is success exactly when every session reported success. */
  lemma StopsEverySession(n: nat, rs: seq<Code>)
    requires |rs| == n
    ensures var op := After(n, rs);
            && op.asked == Indices(n) && op.begin == n
            && op.stage == Finished(if AllOk(rs) then Ok else Aborted)
  {
    if n > 0 {
      WhileStopping(n, rs[..n - 1]);
      AllOkSplits(rs);
      assert After(n, rs) == Resume(After(n, rs[..n - 1]), rs[n - 1]);
    }
  }

  /** ... and nothing that comes after is heard. */
  lemma {:induction false} StaysFinished(n: nat, rs: seq<Code>)
    requires |rs| >= n
    ensures After(n, rs).stage.Finished?
  {
    if |rs| == n {
      StopsEverySession(n, rs);
    } else {
      StaysFinished(n, rs[..|rs| - 1]);
    }
  }

  /** The op as an object. */
  class StopSessionsOp {
    const end: nat
    var begin: nat
    var ec: Code
    var stage: Stage
    var asked: seq<nat>
    ghost var results: seq<Code>

    ghost predicate Valid()
      reads this
    {
      if stage == NotStarted then Now() == Fresh(end) && results == [] else Now() == After(end, results)
    }

    ghost function Now(): StopOp
      reads this
    {
      StopOp(end, begin, ec, stage, asked)
    }

    constructor (sessions: nat)
      ensures Valid() && stage == NotStarted && end == sessions && results == []
    {
      end, begin, ec, stage, asked, results := sessions, 0, Ok, NotStarted, [], [];
    }

    method Start()
      requires Valid() && stage == NotStarted
      modifies this
      ensures Valid() && stage != NotStarted && results == []
      ensures stage.Finished? <==> end == 0
    {
      begin := 0;
      Continue(Ok);
    }

    /** A session has reported; its stop is the last one that was started. */
    method Resumed(result: Code)
      requires Valid() && stage == Stopping
      modifies this
      ensures Valid() && results == old(results) + [result]
      ensures |results| <= end
      ensures |results| < end ==> stage == Stopping && asked == Indices(|results| + 1)
      ensures |results| == end ==>
                asked == Indices(end) && stage == Finished(if AllOk(results) then Ok else Aborted)
    {
      if |results| >= end {
        StaysFinished(end, results);
      }
      if result != Ok {
        ec := result;
      }
      begin := begin + 1;
      results := results + [result];
      assert results[..|results| - 1] == old(results);
      Continue(result);
      if |results| < end {
        WhileStopping(end, results);
      } else {
        StopsEverySession(end, results);
      }
    }

    method Continue(last: Code)
      modifies this`stage, this`asked
      ensures Now() == LoopHead(old(Now()), last)
    {
      if begin != end {
        stage := Stopping;
        asked := asked + [begin];
      } else {
        stage := Finished(if ec != Ok then Aborted else last);
      }
    }
  }
}

/** The loop over the sessions of a pool, while they go on working. */
module PoolShutdown {
  import opened ErrorCodes
  import Transports
  import opened Protocol
  import opened Invariants
  import opened Runs
  import opened Shutdown
  import opened Pools
  import L = ClientStops

  // ---------------------------------------------------------------- one session

  function LastCode(s: State): Code {
    if s.reports == [] then Ok else s.reports[|s.reports| - 1].code
  }

  /** Every stop of the session has reported, and success was the truth. */
  predicate Settled(s: State) {
    s.stops > 0 && s.stop == NoStop ==> !s.running && (LastCode(s) == Ok ==> s.tasks == [])
  }

  predicate Sound(s: State) {
    Inv(s) && ReportsPaired(s) && Settled(s)
  }

  lemma CountStep(s: State, a: Action)
    requires Inv(s) && Enabled(s, a)
    ensures Step(s, a).stops == s.stops + (if a.Stop? then 1 else 0)
    ensures !a.Stop? && s.stop == NoStop ==> Step(s, a).stop == NoStop && Step(s, a).reports == s.reports
  {
    if a.Fire? {
      FireStops(s, a.net);
      FireReports(s, a.net);
    }
  }

  /** A session that is down stays down, and its queue does not grow. */
  lemma DownStep(s: State, a: Action)
    requires Inv(s) && Enabled(s, a) && !s.running
    ensures !Step(s, a).running && (s.tasks == [] ==> Step(s, a).tasks == [])
  {
    if !a.Push? {
      TasksShrink(s, a);
    }
  }

  lemma SettledStep(s: State, a: Action)
    requires Inv(s) && Enabled(s, a) && Settled(s)
    ensures Settled(Step(s, a))
  {
    var u := Step(s, a);
    CountStep(s, a);
    StepReports(s, a);
    if s.stops > 0 {
      DownStep(s, a);
    }
    if a.Fire? {
      FireStops(s, a.net);
    }
  }

  lemma SoundStep(s: State, a: Action)
    requires Sound(s) && Enabled(s, a)
    ensures Sound(Step(s, a))
  {
    StepKeeps(s, a);
    StepPairs(s, a);
    SettledStep(s, a);
  }

  lemma {:induction false} SoundAlways(cfg: Transports.Config, tr: seq<State>, acts: seq<Action>, i: nat)
    requires IsRun(cfg, tr, acts) && i < |tr|
    ensures Sound(tr[i])
  {
    if i == 0 {
      InvAtStart(cfg);
    } else {
      SoundAlways(cfg, tr, acts, i - 1);
      SoundStep(tr[i - 1], acts[i - 1]);
    }
  }

  lemma PooledIsSound(max: nat, tr: seq<seq<Slot>>, acts: seq<PoolAction>, i: nat, k: nat)
    requires IsPoolRun(max, tr, acts) && i < |tr| && k < |tr[i]|
    ensures Sound(tr[i][k].s)
  {
    PooledSessionRuns(max, tr, acts, i, k);
    var cfg := ConfigFor(tr[i][k].dest);
    var run, steps :| IsRun(cfg, run, steps) && run[|run| - 1] == tr[i][k].s;
    SoundAlways(cfg, run, steps, |run| - 1);
  }

  // ---------------------------------------------------------------- the loop and the pool

  /** The pool while the loop runs over it. */
  datatype Stopped = Stopped(slots: seq<Slot>, op: L.StopOp)

  datatype Deed =
    | Works(a: PoolAction)   // the sessions go on, and requests are still placed
    | Resumed                // the loop hears from the session it is stopping

  predicate Quiet(slots: seq<Slot>) {
    forall k | 0 <= k < |slots| :: slots[k].s.stop == NoStop
  }

  /** The loop asks the next session to stop, if there is one. */
  function Ask(slots: seq<Slot>, op: L.StopOp, graceful: bool): seq<Slot> {
    if op.stage == L.Stopping && op.begin < |slots|
    then slots[op.begin := slots[op.begin].(s := StopBegin(slots[op.begin].s, graceful))]
    else slots
  }

  function Begin(slots: seq<Slot>, graceful: bool): Stopped {
    var op := L.After(|slots|, []);
    Stopped(Ask(slots, op, graceful), op)
  }

  /** Only the loop stops sessions, and no session is added meanwhile. */
  predicate CanDo(c: Stopped, d: Deed, max: nat) {
    match d
    case Works(Request(e)) => FirstFit(c.slots, e, max) < |c.slots|
    case Works(Inside(i, b)) => PoolEnabled(c.slots, d.a) && !b.Stop?
    case Resumed => c.op.stage == L.Stopping && c.op.begin < |c.slots| && c.slots[c.op.begin].s.stop == NoStop
  }

  function Does(c: Stopped, d: Deed, max: nat, graceful: bool): Stopped
    requires CanDo(c, d, max)
  {
    match d
    case Works(a) => c.(slots := PoolStep(c.slots, a, max))
    case Resumed =>
      var op := L.Resume(c.op, LastCode(c.slots[c.op.begin].s));
      Stopped(Ask(c.slots, op, graceful), op)
  }

  ghost predicate IsStopRun(max: nat, graceful: bool, slots: seq<Slot>, tr: seq<Stopped>, ds: seq<Deed>) {
    && |tr| == |ds| + 1
    && tr[0] == Begin(slots, graceful)
    && forall i | 0 <= i < |ds| :: CanDo(tr[i], ds[i], max) && tr[i + 1] == Does(tr[i], ds[i], max, graceful)
  }

  // ---------------------------------------------------------------- what the loop keeps

  /** What the first `m` sessions reported last. */
  function Results(slots: seq<Slot>, m: nat): (r: seq<Code>)
    requires m <= |slots|
    ensures |r| == m
  {
    seq(m, k requires 0 <= k < m => LastCode(slots[k].s))
  }

  /** Session `k` while the loop is at session `m`; it had been stopped `n` times before. */
  predicate SlotAt(s: State, k: nat, m: nat, n: nat) {
    && Sound(s)
    && (k != m ==> s.stop == NoStop)
    && s.stops == n + (if k <= m then 1 else 0)
  }

  predicate SlotsAt(slots: seq<Slot>, was: seq<Slot>, m: nat) {
    |slots| == |was| && forall k | 0 <= k < |was| :: SlotAt(slots[k].s, k, m, was[k].s.stops)
  }

  ghost predicate LoopInv(c: Stopped, was: seq<Slot>) {
    && SlotsAt(c.slots, was, c.op.begin) && c.op.begin <= |was|
    && c.op == L.After(|was|, Results(c.slots, c.op.begin))
  }

  /** A step that a session takes by itself. */
  lemma SlotWorks(s: State, a: Action, k: nat, m: nat, n: nat)
    requires SlotAt(s, k, m, n) && Enabled(s, a) && !a.Stop?
    ensures SlotAt(Step(s, a), k, m, n) && (k < m ==> LastCode(Step(s, a)) == LastCode(s))
  {
    SoundStep(s, a);
    CountStep(s, a);
  }

  /** The loop comes to the session after `m`. */
  lemma SlotAsked(s: State, m: nat, n: nat, graceful: bool)
    requires SlotAt(s, m + 1, m, n)
    ensures SlotAt(StopBegin(s, graceful), m + 1, m + 1, n)
  {
    SoundStep(s, Stop(graceful));
    CountStep(s, Stop(graceful));
  }

  lemma FirstAsked(s: State, graceful: bool)
    requires Sound(s) && s.stop == NoStop
    ensures SlotAt(StopBegin(s, graceful), 0, 0, s.stops)
  {
    SoundStep(s, Stop(graceful));
    CountStep(s, Stop(graceful));
  }

  lemma SlotsWork(slots: seq<Slot>, was: seq<Slot>, m: nat, i: nat, u: State)
    requires SlotsAt(slots, was, m) && m <= |was| && i < |was|
    requires SlotAt(u, i, m, was[i].s.stops) && (i < m ==> LastCode(u) == LastCode(slots[i].s))
    ensures SlotsAt(slots[i := slots[i].(s := u)], was, m)
    ensures Results(slots[i := slots[i].(s := u)], m) == Results(slots, m)
  {
  }

  lemma SlotsMoveOn(slots: seq<Slot>, was: seq<Slot>, m: nat, u: State)
    requires SlotsAt(slots, was, m) && m + 1 < |was| && slots[m].s.stop == NoStop
    requires SlotAt(u, m + 1, m + 1, was[m + 1].s.stops)
    ensures SlotsAt(slots[m + 1 := slots[m + 1].(s := u)], was, m + 1)
    ensures Results(slots[m + 1 := slots[m + 1].(s := u)], m + 1) == Results(slots, m + 1)
  {
    var next := slots[m + 1 := slots[m + 1].(s := u)];
    forall k | 0 <= k < |was| ensures SlotAt(next[k].s, k, m + 1, was[k].s.stops) {
      assert SlotAt(slots[k].s, k, m, was[k].s.stops);
    }
  }

  lemma SlotsEnd(slots: seq<Slot>, was: seq<Slot>, m: nat)
    requires SlotsAt(slots, was, m) && m + 1 == |was| && slots[m].s.stop == NoStop
    ensures SlotsAt(slots, was, m + 1)
  {
    forall k | 0 <= k < |was| ensures SlotAt(slots[k].s, k, m + 1, was[k].s.stops) {
      assert SlotAt(slots[k].s, k, m, was[k].s.stops);
    }
  }

  lemma BeginKeeps(was: seq<Slot>, graceful: bool)
    requires Quiet(was) && forall k | 0 <= k < |was| :: Sound(was[k].s)
    ensures LoopInv(Begin(was, graceful), was)
  {
    if was != [] {
      L.WhileStopping(|was|, []);
      FirstAsked(was[0].s, graceful);
    }
    assert Results(Begin(was, graceful).slots, 0) == [];
  }

  /** A step inside one session leaves the loop where it is. */
  lemma UpdateKeeps(c: Stopped, was: seq<Slot>, i: nat, a: Action)
    requires LoopInv(c, was) && i < |was| && Enabled(c.slots[i].s, a) && !a.Stop?
    ensures LoopInv(c.(slots := c.slots[i := c.slots[i].(s := Step(c.slots[i].s, a))]), was)
  {
    assert SlotAt(c.slots[i].s, i, c.op.begin, was[i].s.stops);
    SlotWorks(c.slots[i].s, a, i, c.op.begin, was[i].s.stops);
    SlotsWork(c.slots, was, c.op.begin, i, Step(c.slots[i].s, a));
  }

  /** The loop goes on to session `m + 1`, or ends. */
  lemma AskKeeps(slots: seq<Slot>, was: seq<Slot>, m: nat, op: L.StopOp, graceful: bool)
    requires SlotsAt(slots, was, m) && m < |was| && slots[m].s.stop == NoStop
    requires op == L.After(|was|, Results(slots, m + 1))
    ensures LoopInv(Stopped(Ask(slots, op, graceful), op), was)
  {
    if m + 1 < |was| {
      L.WhileStopping(|was|, Results(slots, m + 1));
      assert SlotAt(slots[m + 1].s, m + 1, m, was[m + 1].s.stops);
      SlotAsked(slots[m + 1].s, m, was[m + 1].s.stops, graceful);
      SlotsMoveOn(slots, was, m, StopBegin(slots[m + 1].s, graceful));
    } else {
      L.StopsEverySession(|was|, Results(slots, m + 1));
      SlotsEnd(slots, was, m);
    }
  }

  lemma ResumedKeeps(c: Stopped, was: seq<Slot>, max: nat, graceful: bool)
    requires LoopInv(c, was) && CanDo(c, Resumed, max)
    ensures LoopInv(Does(c, Resumed, max, graceful), was)
  {
    var m := c.op.begin;
    var rs := Results(c.slots, m + 1);
    assert rs[..m] == Results(c.slots, m);
    AskKeeps(c.slots, was, m, L.Resume(c.op, rs[m]), graceful);
  }

  lemma DeedKeeps(c: Stopped, was: seq<Slot>, d: Deed, max: nat, graceful: bool)
    requires LoopInv(c, was) && CanDo(c, d, max)
    ensures LoopInv(Does(c, d, max, graceful), was)
  {
    match d
    case Works(Request(e)) => UpdateKeeps(c, was, FirstFit(c.slots, e, max), Push);
    case Works(Inside(i, b)) => UpdateKeeps(c, was, i, b);
    case Resumed => ResumedKeeps(c, was, max, graceful);
  }

  lemma LoopNext(max: nat, graceful: bool, was: seq<Slot>, tr: seq<Stopped>, ds: seq<Deed>, i: nat)
    requires IsStopRun(max, graceful, was, tr, ds) && i < |ds| && LoopInv(tr[i], was)
    ensures LoopInv(tr[i + 1], was)
  {
    DeedKeeps(tr[i], was, ds[i], max, graceful);
  }

  lemma LoopInvAlways(max: nat, graceful: bool, was: seq<Slot>, tr: seq<Stopped>, ds: seq<Deed>, i: nat)
    requires IsStopRun(max, graceful, was, tr, ds) && i < |tr|
    requires Quiet(was) && forall k | 0 <= k < |was| :: Sound(was[k].s)
    ensures LoopInv(tr[i], was)
  {
    var P := (k: nat) => k < |tr| && LoopInv(tr[k], was);
    forall k: nat | 0 <= k < i && P(k) ensures P(k + 1) {
      LoopNext(max, graceful, was, tr, ds, k);
    }
    BeginKeeps(was, graceful);
    Along(P, 0, i);
  }

  /** Session `k` was stopped once and is down. */
  predicate IsDown(s: State, n: nat) {
    s.stops == n + 1 && s.stop == NoStop && !s.running
  }

  /** When the loop over a pool that has worked through any run reports, every session was
      stopped exactly once and is down; it reports success if and only if every session did;
      and then every queue is empty. */
  lemma StopDrainsPool(max: nat, pool: seq<seq<Slot>>, acts: seq<PoolAction>, h: nat, graceful: bool, tr: seq<Stopped>, ds: seq<Deed>, i: nat)
    requires IsPoolRun(max, pool, acts) && h < |pool| && Quiet(pool[h])
    requires IsStopRun(max, graceful, pool[h], tr, ds) && i < |tr| && tr[i].op.stage.Finished?
    ensures |tr[i].slots| == |pool[h]|
    ensures forall k | 0 <= k < |pool[h]| :: IsDown(tr[i].slots[k].s, pool[h][k].s.stops)
    ensures tr[i].op.stage == L.Finished(
              if forall k | 0 <= k < |pool[h]| :: LastCode(tr[i].slots[k].s) == Ok then Ok else Aborted)
    ensures tr[i].op.stage == L.Finished(Ok) ==> forall k | 0 <= k < |pool[h]| :: tr[i].slots[k].s.tasks == []
  {
    var was, c := pool[h], tr[i];
    forall k | 0 <= k < |was| ensures Sound(was[k].s) {
      PooledIsSound(max, pool, acts, h, k);
    }
    LoopInvAlways(max, graceful, was, tr, ds, i);
    FinishedMeans(c, was);
  }

  lemma FinishedMeans(c: Stopped, was: seq<Slot>)
    requires LoopInv(c, was) && c.op.stage.Finished?
    ensures forall k | 0 <= k < |was| :: IsDown(c.slots[k].s, was[k].s.stops)
    ensures c.op.stage == L.Finished(
              if forall k | 0 <= k < |was| :: LastCode(c.slots[k].s) == Ok then Ok else Aborted)
    ensures c.op.stage == L.Finished(Ok) ==> forall k | 0 <= k < |was| :: c.slots[k].s.tasks == []
  {
    var n, rs := |was|, Results(c.slots, c.op.begin);
    if c.op.begin < n {
      L.WhileStopping(n, rs);
    }
    L.StopsEverySession(n, rs);
    forall k | 0 <= k < n
      ensures IsDown(c.slots[k].s, was[k].s.stops) && LastCode(c.slots[k].s) == rs[k]
      ensures rs[k] == Ok ==> c.slots[k].s.tasks == []
    {
      assert SlotAt(c.slots[k].s, k, n, was[k].s.stops);
    }
    assert L.AllOk(rs) <==> forall k | 0 <= k < n :: LastCode(c.slots[k].s) == Ok;
  }
}
