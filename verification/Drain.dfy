/** How much work the driver can have left, whatever the network answers. */
module Drain {
  import opened ErrorCodes
  import opened Transports
  import opened Protocol
  import opened Invariants
  import opened Runs

  /** The most handlers that one task can take, from its first to its last. */
  const PER_TASK: nat := 19

  /** How many handlers the front task can still take, starting with the pending one. */
  function Rank(e: Event): nat {
    match e
    case ProcessTask => PER_TASK
    case AdvanceTask => 1
    case Retry(_) => 10
    case Await(w, op) => StepsLeft(w) + (if op.firstRound then 9 else 0)
  }

  function Work(s: State): nat {
    if s.posted == [] then 0 else Rank(s.posted[0]) + PER_TASK * (if s.tasks == [] then 0 else |s.tasks| - 1)
  }

  lemma OpWorks(s: State, op: Op)
    requires s.posted == [] && (s.running && s.link.open ==> s.link.running)
    ensures var u := OpRun(s, op);
            |u.posted| == 1 && u.tasks == s.tasks && Rank(u.posted[0]) <= 9 + (if op.firstRound then 9 else 0)
  {
  }

  lemma SettleWorks(s: State, w: Wait, op: Op, p: Progress)
    requires s.posted == [] && (s.running && !p.Closed? ==> s.link.running)
    requires p.Pending? ==> StepsLeft(p.wait) < StepsLeft(w)
    requires (p.Connected? ==> w.IsConnect()) && (p.Exchanged? ==> w.IsExchange())
    ensures var u := OpSettle(s, op, p);
            |u.posted| == 1 && u.tasks == s.tasks && Rank(u.posted[0]) < Rank(Await(w, op))
  {
  }

  /** Every handler of the driver that runs brings the work down. */
  lemma FireWorks(s: State, net: Net)
    requires Inv(s) && Enabled(s, Fire(0, net))
    ensures Work(Step(s, Fire(0, net))) < Work(s)
  {
    var u := s.(posted := Without(s.posted, 0));
    assert u.posted == [] && s.posted == [s.posted[0]];
    match s.posted[0]
    case AdvanceTask =>
      var v := u.(tasks := u.tasks[1..]);
      if v.running && v.tasks != [] {
        OpWorks(v, Op(v.tasks[0], true, Ok));
      }
    case ProcessTask => OpWorks(u, Op(u.tasks[0], true, Ok));
    case Retry(op) => OpWorks(u, op);
    case Await(w, op) =>
      DeliverShape(u.link, w, op.task, net);
      var (l, p) := Deliver(u.link, w, op.task, net);
      SettleWorks(u.(link := l), w, op, p);
  }

  lemma StepWorks(s: State, a: Action)
    requires Inv(s) && Enabled(s, a)
    ensures var u := Step(s, a);
            && |s.accepted| <= |u.accepted|
            && Work(u) + (if a.Fire? then 1 else 0) <= Work(s) + PER_TASK * (|u.accepted| - |s.accepted|)
  {
    if a.Fire? {
      FireWorks(s, a.net);
      FireAccepts(s, a.net);
    }
  }

  lemma FireAccepts(s: State, net: Net)
    requires Inv(s) && Enabled(s, Fire(0, net))
    ensures Step(s, Fire(0, net)).accepted == s.accepted
  {
    match s.posted[0]
    case ProcessTask =>
    case AdvanceTask =>
    case Retry(_) =>
    case Await(w, op) => DeliverShape(s.link, w, op.task, net);
  }

  /** How many handlers of the driver ran between two points of a run. */
  function Fired(acts: seq<Action>): nat {
    if acts == [] then 0 else Fired(acts[..|acts| - 1]) + (if acts[|acts| - 1].Fire? then 1 else 0)
  }

  lemma WorkStep(cfg: Config, tr: seq<State>, acts: seq<Action>, j: nat)
    requires IsRun(cfg, tr, acts) && j < |acts|
    ensures |tr[j].accepted| <= |tr[j + 1].accepted|
    ensures Work(tr[j + 1]) + (if acts[j].Fire? then 1 else 0)
            <= Work(tr[j]) + PER_TASK * (|tr[j + 1].accepted| - |tr[j].accepted|)
  {
    InvAlways(cfg, tr, acts, j);
    StepWorks(tr[j], acts[j]);
  }

  lemma FiredAppend(acts: seq<Action>, i: nat, j: nat)
    requires i < j <= |acts|
    ensures Fired(acts[i..j]) == Fired(acts[i..j - 1]) + (if acts[j - 1].Fire? then 1 else 0)
  {
    assert acts[i..j][..j - 1 - i] == acts[i..j - 1];
  }

  /** A quantity that each handler brings down by one falls by as much as handlers run. */
  lemma {:induction false} Descends(f: nat -> int, acts: seq<Action>, i: nat, j: nat)
    requires i <= j <= |acts|
    requires forall k: nat | i <= k < j :: f(k + 1) + (if acts[k].Fire? then 1 else 0) <= f(k)
    ensures Fired(acts[i..j]) + f(j) <= f(i)
    decreases j
  {
    if i < j {
      Descends(f, acts, i, j - 1);
      FiredAppend(acts, i, j);
    }
  }

  /** What is left to do, against what was accepted so far. */
  ghost function Balance(tr: seq<State>, k: nat): int {
    if k < |tr| then Work(tr[k]) - PER_TASK * |tr[k].accepted| else 0
  }

  lemma AcceptedGrows(cfg: Config, tr: seq<State>, acts: seq<Action>, i: nat, j: nat)
    requires IsRun(cfg, tr, acts) && i <= j < |tr|
    ensures |tr[i].accepted| <= |tr[j].accepted|
  {
    var P := (k: nat) => k < |tr| && |tr[i].accepted| <= |tr[k].accepted|;
    forall k: nat | i <= k < j && P(k) ensures P(k + 1) {
      WorkStep(cfg, tr, acts, k);
    }
    Along(P, i, j);
  }

  /** The work done and the work left never exceed what was there and what came in. */
  lemma WorkBound(cfg: Config, tr: seq<State>, acts: seq<Action>, i: nat, j: nat)
    requires IsRun(cfg, tr, acts) && i <= j < |tr|
    ensures |tr[i].accepted| <= |tr[j].accepted|
    ensures Fired(acts[i..j]) + Work(tr[j]) <= Work(tr[i]) + PER_TASK * (|tr[j].accepted| - |tr[i].accepted|)
  {
    AcceptedGrows(cfg, tr, acts, i, j);
    forall k: nat | i <= k < j
      ensures Balance(tr, k + 1) + (if acts[k].Fire? then 1 else 0) <= Balance(tr, k)
    {
      WorkStep(cfg, tr, acts, k);
    }
    Descends((k: nat) => Balance(tr, k), acts, i, j);
  }

  lemma WorkOfQueue(s: State)
    requires Inv(s)
    ensures Work(s) <= PER_TASK * |s.tasks|
    ensures Work(s) == 0 <==> s.tasks == []
  {
  }

  /** In every run the driver runs at most nineteen handlers for each accepted request. */
  lemma DriverStepsAreLinear(cfg: Config, tr: seq<State>, acts: seq<Action>, i: nat)
    requires IsRun(cfg, tr, acts) && i < |tr|
    ensures Fired(acts[..i]) + Work(tr[i]) <= PER_TASK * |tr[i].accepted|
  {
    WorkBound(cfg, tr, acts, 0, i);
    assert acts[0..i] == acts[..i];
  }

  /** Without new requests the queue empties after a number of handlers linear in its length. */
  lemma QueueDrains(cfg: Config, tr: seq<State>, acts: seq<Action>, i: nat, j: nat)
    requires IsRun(cfg, tr, acts) && i <= j < |tr|
    requires tr[j].accepted == tr[i].accepted
    requires PER_TASK * |tr[i].tasks| <= Fired(acts[i..j])
    ensures tr[j].tasks == []
  {
    WorkBound(cfg, tr, acts, i, j);
    InvAlways(cfg, tr, acts, i);
    InvAlways(cfg, tr, acts, j);
    WorkOfQueue(tr[i]);
    WorkOfQueue(tr[j]);
  }

  /** ... and the driver is never stuck before that. */
  lemma DriverCanRun(cfg: Config, tr: seq<State>, acts: seq<Action>, i: nat, code: Code)
    requires IsRun(cfg, tr, acts) && i < |tr| && tr[i].tasks != []
    ensures Enabled(tr[i], Fire(0, Net(code, Ok, true, 0, 0, true)))
  {
    InvAlways(cfg, tr, acts, i);
  }
}
