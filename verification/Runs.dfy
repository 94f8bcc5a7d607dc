/** Whole runs of the protocol, and the two ways to prove something about all of them. */
module Runs {
  import opened Transports
  import opened Protocol
  import opened Invariants
  import opened Moves

  /** A run from the initial state: every action is enabled and leads to the next state. */
  ghost predicate IsRun(cfg: Config, tr: seq<State>, acts: seq<Action>) {
    && |tr| == |acts| + 1
    && tr[0] == Init(cfg)
    && forall i | 0 <= i < |acts| :: Enabled(tr[i], acts[i]) && tr[i + 1] == Step(tr[i], acts[i])
  }

  lemma InvAtStart(cfg: Config)
    ensures Inv(Init(cfg))
  {
  }

  lemma {:induction false} InvAlways(cfg: Config, tr: seq<State>, acts: seq<Action>, i: nat)
    requires IsRun(cfg, tr, acts) && i < |tr|
    ensures Inv(tr[i])
  {
    if i == 0 {
      InvAtStart(cfg);
    } else {
      InvAlways(cfg, tr, acts, i - 1);
      StepKeeps(tr[i - 1], acts[i - 1]);
    }
  }

  /** A property of views that holds somewhere in a run and is kept by every move stays. */
  lemma {:induction false} From(P: View -> bool, cfg: Config, tr: seq<State>, acts: seq<Action>, i: nat, j: nat)
    requires Kept(P) && IsRun(cfg, tr, acts) && i <= j < |tr| && P(ViewOf(tr[i]))
    ensures P(ViewOf(tr[j]))
    decreases j
  {
    if i < j {
      From(P, cfg, tr, acts, i, j - 1);
      InvAlways(cfg, tr, acts, j - 1);
      StepByMoves(P, tr[j - 1], acts[j - 1]);
    }
  }

  lemma Always(P: View -> bool, cfg: Config, tr: seq<State>, acts: seq<Action>, i: nat)
    requires Kept(P) && P(ViewOf(Init(cfg)))
    requires IsRun(cfg, tr, acts) && i < |tr|
    ensures P(ViewOf(tr[i]))
  {
    From(P, cfg, tr, acts, 0, i);
  }

  /** What holds at one place and goes on from each place to the next holds at every later one. */
  lemma {:induction false} Along(P: nat -> bool, i: nat, j: nat)
    requires i <= j && P(i) && forall k: nat | i <= k < j && P(k) :: P(k + 1)
    ensures P(j)
    decreases j
  {
    if i < j {
      Along(P, i, j - 1);
    }
  }

  ghost predicate Reachable(cfg: Config, s: State) {
    exists tr, acts :: IsRun(cfg, tr, acts) && tr[|tr| - 1] == s
  }

  lemma Reach(cfg: Config)
    ensures Reachable(cfg, Init(cfg))
  {
    assert IsRun(cfg, [Init(cfg)], []);
  }

  lemma ReachOn(cfg: Config, s: State, a: Action)
    requires Reachable(cfg, s) && Enabled(s, a)
    ensures Reachable(cfg, Step(s, a))
  {
    var tr, acts :| IsRun(cfg, tr, acts) && tr[|tr| - 1] == s;
    assert IsRun(cfg, tr + [Step(s, a)], acts + [a]);
  }
}
