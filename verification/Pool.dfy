/** The client: a pool of sessions, first fit with a cap, over the session protocol. */
module Pools {
  import opened ErrorCodes
  import opened Transports
  import opened Protocol
  import opened Invariants
  import opened Runs
  import opened Endpoints

  datatype Slot = Slot(dest: Destination, s: State)

  /** The transport of a session, and the host it names to a proxy. */
  function ConfigFor(d: Destination): Config {
    match d
    case Plain(_) => Config(Tcp, "")
    case Secure(_) => Config(Ssl, "")
    case Through(_, target) => Config(Tunnel, Host(target))
  }

  /** The transport that a destination calls for: TLS for a secure one, and for one behind a proxy
      a tunnel to the target, named by its domain and port. */
  predicate SpeaksTo(cfg: Config, d: Destination) {
    match d
    case Plain(_) => cfg.kind == Tcp
    case Secure(_) => cfg.kind == Ssl
    case Through(_, target) => cfg.kind == Tunnel && cfg.host == target.domain + ":" + Decimal(target.port)
  }

  predicate Fits(slot: Slot, d: Destination, max: nat) {
    SameDestination(d, slot.dest) && |slot.s.tasks| < max
  }

  /** The first session that fits, or the place of a new one. */
  function FirstFit(slots: seq<Slot>, d: Destination, max: nat): (i: nat)
    ensures i <= |slots|
    ensures i < |slots| ==> Fits(slots[i], d, max)
    ensures forall j | 0 <= j < i :: !Fits(slots[j], d, max)
  {
    if slots == [] then 0
    else if Fits(slots[0], d, max) then 0
    else 1 + FirstFit(slots[1..], d, max)
  }

  /** `get_session`. */
  function WithSession(slots: seq<Slot>, d: Destination, max: nat): seq<Slot> {
    if FirstFit(slots, d, max) < |slots| then slots else slots + [Slot(d, Init(ConfigFor(d)))]
  }

  /** A session is selected and the request pushed into it, in one step. */
  function Fetch(slots: seq<Slot>, d: Destination, max: nat): seq<Slot> {
    var all := WithSession(slots, d, max);
    var i := FirstFit(slots, d, max);
    all[i := all[i].(s := PushRequest(all[i].s))]
  }

  datatype PoolAction =
    | Request(d: Destination)
    | Inside(i: nat, a: Action)   // a step of one session that is not a push

  predicate PoolEnabled(slots: seq<Slot>, a: PoolAction) {
    a.Inside? ==> a.i < |slots| && !a.a.Push? && Enabled(slots[a.i].s, a.a)
  }

  function PoolStep(slots: seq<Slot>, a: PoolAction, max: nat): seq<Slot>
    requires PoolEnabled(slots, a)
  {
    match a
    case Request(d) => Fetch(slots, d, max)
    case Inside(i, b) => slots[i := slots[i].(s := Step(slots[i].s, b))]
  }

  ghost predicate IsPoolRun(max: nat, tr: seq<seq<Slot>>, acts: seq<PoolAction>) {
    && |tr| == |acts| + 1
    && tr[0] == []
    && forall i | 0 <= i < |acts| :: PoolEnabled(tr[i], acts[i]) && tr[i + 1] == PoolStep(tr[i], acts[i], max)
  }

  // ---------------------------------------------------------------- counting

  /** How many sessions were opened for a destination. */
  function Opened(slots: seq<Slot>, d: Destination): nat {
    if slots == [] then 0
    else Opened(slots[..|slots| - 1], d) + (if slots[|slots| - 1].dest == d then 1 else 0)
  }

  /** How many requests are queued for it. */
  function Queued(slots: seq<Slot>, d: Destination): nat {
    if slots == [] then 0
    else
      Queued(slots[..|slots| - 1], d) +
      (if slots[|slots| - 1].dest == d then |slots[|slots| - 1].s.tasks| else 0)
  }

  /** The most that were ever queued, counting each one as it was being placed. */
  ghost function Peak(tr: seq<seq<Slot>>, acts: seq<PoolAction>, d: Destination, i: nat): nat
    requires |tr| == |acts| + 1 && i < |tr|
  {
    if i == 0 then 0
    else
      var before := Peak(tr, acts, d, i - 1);
      var now := if acts[i - 1] == Request(d) then Queued(tr[i - 1], d) + 1 else 0;
      if before < now then now else before
  }

  predicate SlotOk(slot: Slot, max: nat) {
    Inv(slot.s) && |slot.s.tasks| <= max
  }

  predicate PoolInv(slots: seq<Slot>, max: nat) {
    forall i | 0 <= i < |slots| :: SlotOk(slots[i], max)
  }

  lemma TasksShrink(s: State, a: Action)
    requires Inv(s) && Enabled(s, a) && !a.Push?
    ensures |Step(s, a).tasks| <= |s.tasks|
  {
    if a.Fire? {
      FireShrinks(s, a.net);
    }
  }

  lemma FireShrinks(s: State, net: Net)
    requires Inv(s) && Enabled(s, Fire(0, net))
    ensures |Step(s, Fire(0, net)).tasks| <= |s.tasks|
  {
  }

  lemma {:induction false} OpenedUpdate(slots: seq<Slot>, d: Destination, i: nat, slot: Slot)
    requires i < |slots| && slot.dest == slots[i].dest
    ensures Opened(slots[i := slot], d) == Opened(slots, d)
  {
    var n := |slots| - 1;
    if i < n {
      OpenedUpdate(slots[..n], d, i, slot);
      assert slots[i := slot][..n] == slots[..n][i := slot];
    } else {
      assert slots[i := slot][..n] == slots[..n];
    }
  }

  lemma OpenedAppend(slots: seq<Slot>, d: Destination, slot: Slot)
    ensures Opened(slots + [slot], d) == Opened(slots, d) + (if slot.dest == d then 1 else 0)
  {
    assert (slots + [slot])[..|slots|] == slots;
  }

  /** When nothing fits, every session of the destination is full. */
  lemma {:induction false} AllFull(slots: seq<Slot>, d: Destination, max: nat)
    requires forall i | 0 <= i < |slots| :: !Fits(slots[i], d, max)
    ensures Queued(slots, d) >= Opened(slots, d) * max
  {
    if slots != [] {
      var n := |slots| - 1;
      AllFull(slots[..n], d, max);
      SameIsEqual(d, slots[n].dest);
      assert !Fits(slots[n], d, max);
    }
  }

  lemma FetchKeeps(slots: seq<Slot>, d: Destination, max: nat)
    requires PoolInv(slots, max) && 1 <= max
    ensures PoolInv(Fetch(slots, d, max), max)
  {
    var all := WithSession(slots, d, max);
    var i := FirstFit(slots, d, max);
    InvAtStart(ConfigFor(d));
    assert SlotOk(all[i], max) && |all[i].s.tasks| < max;
    PushKeeps(all[i], max);
  }

  lemma PushKeeps(slot: Slot, max: nat)
    requires SlotOk(slot, max) && |slot.s.tasks| < max
    ensures SlotOk(slot.(s := PushRequest(slot.s)), max)
  {
    StepKeeps(slot.s, Push);
  }

  lemma PoolStepKeeps(slots: seq<Slot>, a: PoolAction, max: nat)
    requires PoolInv(slots, max) && 1 <= max && PoolEnabled(slots, a)
    ensures PoolInv(PoolStep(slots, a, max), max)
  {
    match a
    case Request(d) => FetchKeeps(slots, d, max);
    case Inside(i, b) =>
      assert SlotOk(slots[i], max);
      StepKeeps(slots[i].s, b);
      TasksShrink(slots[i].s, b);
  }

  lemma StepOpens(slots: seq<Slot>, a: PoolAction, max: nat, d: Destination)
    requires PoolEnabled(slots, a)
    ensures var n := Opened(PoolStep(slots, a, max), d);
            && (n != Opened(slots, d) ==>
                  n == Opened(slots, d) + 1 && a == Request(d) && Queued(slots, d) >= Opened(slots, d) * max)
  {
    match a
    case Request(e) =>
      var all := WithSession(slots, e, max);
      var i := FirstFit(slots, e, max);
      OpenedUpdate(all, d, i, all[i].(s := PushRequest(all[i].s)));
      if i == |slots| {
        OpenedAppend(slots, d, Slot(e, Init(ConfigFor(e))));
        if e == d {
          AllFull(slots, d, max);
        }
      }
    case Inside(i, b) => OpenedUpdate(slots, d, i, slots[i].(s := Step(slots[i].s, b)));
  }

  // ---------------------------------------------------------------- the bounds

  lemma {:induction false} PoolInvAlways(max: nat, tr: seq<seq<Slot>>, acts: seq<PoolAction>, i: nat)
    requires IsPoolRun(max, tr, acts) && i < |tr| && 1 <= max
    ensures PoolInv(tr[i], max)
  {
    if i > 0 {
      PoolInvAlways(max, tr, acts, i - 1);
      PoolStepKeeps(tr[i - 1], acts[i - 1], max);
    }
  }

  /** In every run no session holds more than `max` tasks. */
  lemma SessionsAreCapped(max: nat, tr: seq<seq<Slot>>, acts: seq<PoolAction>, i: nat, k: nat)
    requires IsPoolRun(max, tr, acts) && i < |tr| && 1 <= max && k < |tr[i]|
    ensures |tr[i][k].s.tasks| <= max
  {
    PoolInvAlways(max, tr, acts, i);
    assert SlotOk(tr[i][k], max);
  }

  /** `n` sessions are no more than `peak` requests account for. */
  predicate Within(n: nat, max: nat, peak: nat) {
    n > 0 ==> (n - 1) * max < peak
  }

  lemma StepBound(slots: seq<Slot>, a: PoolAction, max: nat, d: Destination, was: nat, peak: nat)
    requires PoolEnabled(slots, a) && was <= peak && (a == Request(d) ==> Queued(slots, d) < peak)
    requires Within(Opened(slots, d), max, was)
    ensures Within(Opened(PoolStep(slots, a, max), d), max, peak)
  {
    StepOpens(slots, a, max, d);
  }

  lemma {:induction false} OpenedBound(max: nat, tr: seq<seq<Slot>>, acts: seq<PoolAction>, i: nat, d: Destination)
    requires IsPoolRun(max, tr, acts) && i < |tr| && 1 <= max
    ensures Within(Opened(tr[i], d), max, Peak(tr, acts, d, i))
  {
    if i > 0 {
      OpenedBound(max, tr, acts, i - 1, d);
      StepBound(tr[i - 1], acts[i - 1], max, d, Peak(tr, acts, d, i - 1), Peak(tr, acts, d, i));
    }
  }

  lemma CancelFactor(n: nat, m: nat, max: nat)
    requires n * max < m * max
    ensures n < m
  {
  }

  lemma CeilBound(n: nat, max: nat, peak: nat)
    requires 1 <= max && Within(n, max, peak)
    ensures n <= (peak + max - 1) / max
  {
    if n > 0 {
      var q := (peak + max - 1) / max;
      assert n * max == (n - 1) * max + max;
      assert (q + 1) * max == q * max + max;
      CancelFactor(n, q + 1, max);
    }
  }

  /** The sessions ever opened for a destination number at most the peak divided by `max`,
      rounded up. */
  lemma SessionCountIsBounded(max: nat, tr: seq<seq<Slot>>, acts: seq<PoolAction>, i: nat, d: Destination)
    requires IsPoolRun(max, tr, acts) && i < |tr| && 1 <= max
    ensures Opened(tr[i], d) <= (Peak(tr, acts, d, i) + max - 1) / max
  {
    OpenedBound(max, tr, acts, i, d);
    CeilBound(Opened(tr[i], d), max, Peak(tr, acts, d, i));
  }

  /** Every pooled session goes through a run of its own, for the transport of its destination;
      so all that holds of sessions holds of the pooled ones. */
  lemma {:induction false} PooledSessionRuns(max: nat, tr: seq<seq<Slot>>, acts: seq<PoolAction>, i: nat, k: nat)
    requires IsPoolRun(max, tr, acts) && i < |tr| && k < |tr[i]|
    ensures Reachable(ConfigFor(tr[i][k].dest), tr[i][k].s)
  {
    var a, slots := acts[i - 1], tr[i - 1];
    if k < |slots| {
      PooledSessionRuns(max, tr, acts, i - 1, k);
    }
    match a
    case Inside(j, b) =>
      if j == k {
        ReachOn(ConfigFor(slots[k].dest), slots[k].s, b);
      }
    case Request(d) =>
      if FirstFit(slots, d, max) == k {
        Reach(ConfigFor(d));
        var all := WithSession(slots, d, max);
        ReachOn(ConfigFor(all[k].dest), all[k].s, Push);
      }
  }

  // ---------------------------------------------------------------- a session that is down

  /** The push that turns its request away, and changes nothing else. */
  predicate TurnsAway(s: State, u: State) {
    u == s.(nextId := s.nextId + 1,
            completions := s.completions + [Completion(s.nextId, Aborted, false, |s.link.wire|)])
  }

  /** The session that a request for `d` would be pushed into, before the push. */
  function Selected(slots: seq<Slot>, d: Destination, max: nat): State {
    WithSession(slots, d, max)[FirstFit(slots, d, max)].s
  }

  /** The exact condition: a request is turned away if and only if a session is selected that
      is down, and then the whole pool is otherwise left alone. A session is selected whether
      it runs or not. */
  lemma TurnedAwayIff(slots: seq<Slot>, d: Destination, max: nat)
    ensures var i := FirstFit(slots, d, max);
            var next := Fetch(slots, d, max);
            && (TurnsAway(Selected(slots, d, max), next[i].s) <==> i < |slots| && !slots[i].s.running)
            && (i < |slots| ==> next == slots[i := slots[i].(s := next[i].s)])
  {
    var s := Selected(slots, d, max);
    if s.running {
      assert |PushRequest(s).accepted| == |s.accepted| + 1;
    }
  }

  /** The push that queues its request, and has the driver posted if it was idle. */
  predicate TakesIn(s: State, u: State) {
    && s.running
    && u == s.(nextId := s.nextId + 1, tasks := s.tasks + [s.nextId], accepted := s.accepted + [s.nextId],
               posted := if s.tasks == [] then s.posted + [ProcessTask] else s.posted)
  }

  /** ... and otherwise it is queued by the selected session, which is of its destination, and
      every other session is left alone. A new session runs, and speaks to the destination. */
  lemma TakenInIff(slots: seq<Slot>, d: Destination, max: nat)
    ensures var i := FirstFit(slots, d, max);
            var next := Fetch(slots, d, max);
            && (TakesIn(Selected(slots, d, max), next[i].s) <==> i == |slots| || slots[i].s.running)
            && next[i].dest == d && (forall j | 0 <= j < |slots| && j != i :: next[j] == slots[j])
            && |next| == (if i == |slots| then i + 1 else |slots|)
            && (i == |slots| ==> next[i].s.running && SpeaksTo(next[i].s.link.cfg, d) && next[i].s.tasks == [0])
  {
    var i := FirstFit(slots, d, max);
    if i < |slots| {
      SameIsEqual(d, slots[i].dest);
    }
  }

  /** No session of the destination that could be selected runs: neither the first with room,
      nor, for when they have room again, the full ones before it. */
  predicate Lost(slots: seq<Slot>, d: Destination, max: nat) {
    var i := FirstFit(slots, d, max);
    i < |slots| && forall j | 0 <= j <= i :: slots[j].dest == d ==> !slots[j].s.running
  }

  /** Slot `k` has room, and up to there every session of `d` is down. */
  predicate LostAt(slots: seq<Slot>, d: Destination, max: nat, k: nat) {
    && k < |slots| && Fits(slots[k], d, max)
    && forall j | 0 <= j <= k :: slots[j].dest == d ==> !slots[j].s.running
  }

  lemma LostSomewhere(slots: seq<Slot>, d: Destination, max: nat, k: nat)
    requires LostAt(slots, d, max, k)
    ensures Lost(slots, d, max)
  {
  }

  /** A session that is down stays down, and gains no task. */
  lemma DownStays(s: State, a: Action)
    requires Inv(s) && Enabled(s, a) && !s.running
    ensures !Step(s, a).running && |Step(s, a).tasks| <= |s.tasks|
  {
    if !a.Push? {
      TasksShrink(s, a);
    }
  }

  /** A slot of `d` that is down can only get more room; a slot of another destination does
      not matter. */
  lemma UpdateStaysLost(slots: seq<Slot>, d: Destination, max: nat, k: nat, i: nat, u: State)
    requires LostAt(slots, d, max, k) && i < |slots|
    requires i <= k && slots[i].dest == d ==> !u.running && |u.tasks| <= |slots[i].s.tasks|
    ensures LostAt(slots[i := slots[i].(s := u)], d, max, k)
    ensures Opened(slots[i := slots[i].(s := u)], d) == Opened(slots, d)
  {
    SameIsEqual(d, slots[k].dest);
    OpenedUpdate(slots, d, i, slots[i].(s := u));
  }

  lemma InsideStaysLost(slots: seq<Slot>, d: Destination, max: nat, k: nat, i: nat, a: Action)
    requires PoolInv(slots, max) && LostAt(slots, d, max, k) && i < |slots| && Enabled(slots[i].s, a)
    requires a.Push? ==> slots[i].dest != d || i <= k
    ensures LostAt(slots[i := slots[i].(s := Step(slots[i].s, a))], d, max, k)
    ensures Opened(slots[i := slots[i].(s := Step(slots[i].s, a))], d) == Opened(slots, d)
  {
    assert SlotOk(slots[i], max);
    if i <= k && slots[i].dest == d {
      DownStays(slots[i].s, a);
    }
    UpdateStaysLost(slots, d, max, k, i, Step(slots[i].s, a));
  }

  lemma RequestStaysLost(slots: seq<Slot>, e: Destination, d: Destination, max: nat, k: nat)
    requires PoolInv(slots, max) && LostAt(slots, d, max, k)
    ensures LostAt(Fetch(slots, e, max), d, max, k) && Opened(Fetch(slots, e, max), d) == Opened(slots, d)
  {
    var i := FirstFit(slots, e, max);
    if i < |slots| {
      SameIsEqual(e, slots[i].dest);
      InsideStaysLost(slots, d, max, k, i, Push);
    } else {
      var slot := Slot(e, PushRequest(Init(ConfigFor(e))));
      assert e != d;
      assert Fetch(slots, e, max) == slots + [slot];
      OpenedAppend(slots, d, slot);
    }
  }

  lemma StepStaysLost(slots: seq<Slot>, a: PoolAction, max: nat, d: Destination)
    requires PoolInv(slots, max) && PoolEnabled(slots, a) && Lost(slots, d, max)
    ensures Lost(PoolStep(slots, a, max), d, max) && Opened(PoolStep(slots, a, max), d) == Opened(slots, d)
  {
    var k := FirstFit(slots, d, max);
    match a
    case Request(e) => RequestStaysLost(slots, e, d, max, k);
    case Inside(i, b) => InsideStaysLost(slots, d, max, k, i, b);
    LostSomewhere(PoolStep(slots, a, max), d, max, k);
  }

  lemma NextStaysLost(max: nat, tr: seq<seq<Slot>>, acts: seq<PoolAction>, j: nat, d: Destination)
    requires IsPoolRun(max, tr, acts) && j < |acts| && Lost(tr[j], d, max)
    ensures Lost(tr[j + 1], d, max) && Opened(tr[j + 1], d) == Opened(tr[j], d)
  {
    PoolInvAlways(max, tr, acts, j);
    StepStaysLost(tr[j], acts[j], max, d);
  }

  predicate StillLost(slots: seq<Slot>, d: Destination, max: nat, n: nat) {
    Lost(slots, d, max) && Opened(slots, d) == n
  }

  lemma StaysLost(max: nat, tr: seq<seq<Slot>>, acts: seq<PoolAction>, i: nat, j: nat, d: Destination)
    requires IsPoolRun(max, tr, acts) && i <= j < |tr| && Lost(tr[i], d, max)
    ensures StillLost(tr[j], d, max, Opened(tr[i], d))
  {
    var n := Opened(tr[i], d);
    var P := (k: nat) => k < |tr| && StillLost(tr[k], d, max, n);
    forall k: nat | i <= k < j && P(k) ensures P(k + 1) {
      NextStaysLost(max, tr, acts, k, d);
    }
    Along(P, i, j);
  }

  /** Once a destination is lost, it is lost for ever: every later request for it is turned
      away, and no session is opened for it again. */
  lemma LostForEver(max: nat, tr: seq<seq<Slot>>, acts: seq<PoolAction>, i: nat, j: nat, d: Destination)
    requires IsPoolRun(max, tr, acts) && i <= j < |acts| && Lost(tr[i], d, max)
    ensures Lost(tr[j], d, max) && Opened(tr[j + 1], d) == Opened(tr[i], d)
    ensures acts[j] == Request(d) ==>
              var k := FirstFit(tr[j], d, max);
              && k < |tr[j + 1]| && TurnsAway(tr[j][k].s, tr[j + 1][k].s)
              && tr[j + 1] == tr[j][k := tr[j][k].(s := tr[j + 1][k].s)]
  {
    StaysLost(max, tr, acts, i, j, d);
    StaysLost(max, tr, acts, i, j + 1, d);
    SelectedIsDown(tr[j], d, max);
    TurnedAwayIff(tr[j], d, max);
  }

  lemma SelectedIsDown(slots: seq<Slot>, d: Destination, max: nat)
    requires Lost(slots, d, max)
    ensures !slots[FirstFit(slots, d, max)].s.running
  {
    SameIsEqual(d, slots[FirstFit(slots, d, max)].dest);
  }

  // ---------------------------------------------------------------- a run that loses one

  ghost predicate PoolReachable(max: nat, slots: seq<Slot>) {
    exists tr, acts :: IsPoolRun(max, tr, acts) && tr[|tr| - 1] == slots
  }

  lemma PoolRunOn(max: nat, tr: seq<seq<Slot>>, acts: seq<PoolAction>, a: PoolAction, next: seq<Slot>)
    requires IsPoolRun(max, tr, acts) && PoolEnabled(tr[|acts|], a) && next == PoolStep(tr[|acts|], a, max)
    ensures IsPoolRun(max, tr + [next], acts + [a])
  {
    var tr', acts' := tr + [next], acts + [a];
    forall i | 0 <= i < |acts'|
      ensures PoolEnabled(tr'[i], acts'[i]) && tr'[i + 1] == PoolStep(tr'[i], acts'[i], max)
    {
      if i < |acts| {
        assert tr'[i] == tr[i] && tr'[i + 1] == tr[i + 1] && acts'[i] == acts[i];
      }
    }
  }

  lemma PoolReachOn(max: nat, slots: seq<Slot>, a: PoolAction, next: seq<Slot>)
    requires PoolReachable(max, slots) && PoolEnabled(slots, a) && next == PoolStep(slots, a, max)
    ensures PoolReachable(max, next)
  {
    var tr, acts :| IsPoolRun(max, tr, acts) && tr[|tr| - 1] == slots;
    PoolRunOn(max, tr, acts, a, next);
    assert (tr + [next])[|tr + [next]| - 1] == next;
  }

  /** A session that has taken one request. */
  function Asked(d: Destination): State {
    PushRequest(Init(ConfigFor(d)))
  }

  const GO := Fire(0, Transports.Net(Ok, Ok, true, 0, 0, true))

  /** It is stopped, and its one task is completed and popped. */
  lemma Drained(d: Destination) returns (s1: State, s2: State, s3: State)
    ensures Enabled(Asked(d), Stop(true)) && s1 == Step(Asked(d), Stop(true))
    ensures Enabled(s1, GO) && s2 == Step(s1, GO) && Enabled(s2, GO) && s3 == Step(s2, GO)
    ensures !s1.running && s1.tasks == [0] && !s3.running && s3.tasks == []
  {
    s1 := Step(Asked(d), Stop(true));
    s2 := Step(s1, GO);
    s3 := Step(s2, GO);
  }

  lemma PoolOfOne(max: nat, d: Destination, s: State, a: Action, u: State)
    requires PoolReachable(max, [Slot(d, s)]) && Enabled(s, a) && !a.Push? && u == Step(s, a)
    ensures PoolReachable(max, [Slot(d, u)])
  {
    PoolReachOn(max, [Slot(d, s)], Inside(0, a), [Slot(d, u)]);
  }

  lemma FirstRequest(max: nat, d: Destination)
    ensures PoolReachable(max, [Slot(d, Asked(d))])
  {
    assert IsPoolRun(max, [[]], []);
    PoolReachOn(max, [], Request(d), [Slot(d, Asked(d))]);
  }

  lemma OneIsLost(max: nat, d: Destination, s: State)
    requires !s.running && |s.tasks| < max
    ensures Lost([Slot(d, s)], d, max)
  {
    SameIsEqual(d, d);
    LostSomewhere([Slot(d, s)], d, max, 0);
  }

  lemma ReachLost(max: nat, d: Destination) returns (early: State, late: State)
    ensures PoolReachable(max, [Slot(d, early)]) && !early.running && early.tasks == [0]
    ensures PoolReachable(max, [Slot(d, late)]) && !late.running && late.tasks == []
  {
    FirstRequest(max, d);
    var s1, s2, s3 := Drained(d);
    PoolOfOne(max, d, Asked(d), Stop(true), s1);
    PoolOfOne(max, d, s1, GO, s2);
    PoolOfOne(max, d, s2, GO, s3);
    early, late := s1, s3;
  }

  /** A destination can be lost with any maximum: by one request, and a stop of the session that
      was opened for it. With room for more, it is lost while the request is still queued. */
  lemma DestinationIsLost(max: nat, d: Destination)
    requires 1 <= max
    ensures exists s :: PoolReachable(max, [Slot(d, s)]) && Lost([Slot(d, s)], d, max)
    ensures max > 1 ==> exists s: State :: PoolReachable(max, [Slot(d, s)]) && Lost([Slot(d, s)], d, max) && s.tasks != []
  {
    var early, late := ReachLost(max, d);
    OneIsLost(max, d, late);
    if max > 1 {
      OneIsLost(max, d, early);
    }
  }

  // ---------------------------------------------------------------- the client object

  class Client {
    var max: nat
    var sessions: seq<Slot>

    constructor ()
      ensures max == 10 && sessions == []
    {
      max, sessions := 10, [];
    }

    method SetMaxPending(pending: nat)
      modifies this`max
      ensures max == pending
    {
      max := pending;
    }

    /** The first session of the destination that has room; failing that, a new one at the
        end. No other session is touched. */
    method GetSession(d: Destination) returns (i: nat)
      modifies this`sessions
      ensures sessions == WithSession(old(sessions), d, max) && i == FirstFit(old(sessions), d, max)
      ensures i < |sessions| && sessions[i].dest == d && old(sessions) <= sessions
      ensures forall j | 0 <= j < i :: !Fits(sessions[j], d, max)
      ensures i == |old(sessions)| ==> SpeaksTo(sessions[i].s.link.cfg, d) && sessions[i].s.running
    {
      i := 0;
      while i < |sessions|
        invariant i <= |sessions|
        invariant forall j | 0 <= j < i :: !Fits(sessions[j], d, max)
      {
        if SameDestination(d, sessions[i].dest) && |sessions[i].s.tasks| < max {
          SameIsEqual(d, sessions[i].dest);
          break;
        }
        i := i + 1;
      }
      if i == |sessions| {
        sessions := sessions + [Slot(d, Init(ConfigFor(d)))];
      }
    }

    method AsyncFetch(d: Destination)
      modifies this`sessions
      ensures sessions == Fetch(old(sessions), d, max)
    {
      var i := GetSession(d);
      sessions := sessions[i := sessions[i].(s := PushRequest(sessions[i].s))];
    }
  }
}
