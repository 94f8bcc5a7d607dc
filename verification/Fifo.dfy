/** A server that completes what it accepted, in order: the session as its clients see it. */
module FifoServer {
  import opened ErrorCodes

  /** A completion as the client sees it. */
  datatype Reply = Reply(id: nat, code: Code, accepted: bool)

  /** The accepted requests that are still to be completed, and everything posted so far. */
  datatype Server = Server(waiting: seq<nat>, replies: seq<Reply>)

  datatype Deed =
    | Accept(id: nat)
    | Reject(id: nat)
    | Serve(code: Code)   // complete the oldest waiting request

  predicate Possible(v: Server, d: Deed) {
    d.Serve? ==> v.waiting != []
  }

  function Do(v: Server, d: Deed): Server
    requires Possible(v, d)
  {
    match d
    case Accept(id) => v.(waiting := v.waiting + [id])
    case Reject(id) => v.(replies := v.replies + [Reply(id, Aborted, false)])
    case Serve(code) => Server(v.waiting[1..], v.replies + [Reply(v.waiting[0], code, true)])
  }

  /** `ds` leads from `v` to `u`. */
  predicate Leads(v: Server, ds: seq<Deed>, u: Server)
    decreases ds
  {
    if ds == [] then v == u
    else Possible(v, ds[0]) && Leads(Do(v, ds[0]), ds[1..], u)
  }

  lemma {:induction false} LeadsOn(v: Server, ds: seq<Deed>, u: Server, es: seq<Deed>, t: Server)
    requires Leads(v, ds, u) && Leads(u, es, t)
    ensures Leads(v, ds + es, t)
    decreases ds
  {
    if ds == [] {
      assert ds + es == es;
    } else {
      LeadsOn(Do(v, ds[0]), ds[1..], u, es, t);
      assert (ds + es)[1..] == ds[1..] + es;
    }
  }

  /** The ids of the accepted requests that have been answered, in order. */
  function Served(rs: seq<Reply>): seq<nat> {
    if rs == [] then []
    else Served(rs[..|rs| - 1]) + (if rs[|rs| - 1].accepted then [rs[|rs| - 1].id] else [])
  }

  function Accepted(ds: seq<Deed>): seq<nat> {
    if ds == [] then []
    else (if ds[0].Accept? then [ds[0].id] else []) + Accepted(ds[1..])
  }

  /** One deed moves the line between served and waiting, or appends to it. */
  lemma DoServes(v: Server, d: Deed)
    requires Possible(v, d)
    ensures var u := Do(v, d);
            Served(u.replies) + u.waiting == Served(v.replies) + v.waiting + (if d.Accept? then [d.id] else [])
  {
    var u := Do(v, d);
    if !d.Accept? {
      assert u.replies[..|u.replies| - 1] == v.replies;
    }
  }

  /** Nothing accepted is lost, doubled or overtaken, whatever the server does. */
  lemma {:induction false} ServedInOrder(v: Server, ds: seq<Deed>, u: Server)
    requires Leads(v, ds, u)
    ensures Served(u.replies) + u.waiting == Served(v.replies) + v.waiting + Accepted(ds)
    decreases ds
  {
    if ds != [] {
      ServedInOrder(Do(v, ds[0]), ds[1..], u);
      DoServes(v, ds[0]);
    }
  }
}

/** Every step of the session is some deeds of the server. */
module Refinement {
  import opened ErrorCodes
  import opened Transports
  import opened Protocol
  import opened Invariants
  import opened Runs
  import F = FifoServer

  function Replies(cs: seq<Completion>): (r: seq<F.Reply>)
    ensures |r| == |cs|
  {
    seq(|cs|, i requires 0 <= i < |cs| => F.Reply(cs[i].id, cs[i].code, cs[i].accepted))
  }

  /** A task whose completion has been posted stays in the queue until it is popped. */
  function ServerOf(s: State): F.Server {
    F.Server(if AdvanceTask in s.posted && s.tasks != [] then s.tasks[1..] else s.tasks, Replies(s.completions))
  }

  /** What the server does in a step that takes `s` to `u`. */
  function Deeds(s: State, a: Action, u: State): seq<F.Deed> {
    if a.Push? then [if s.running then F.Accept(s.nextId) else F.Reject(s.nextId)]
    else if |s.completions| <= |u.completions| then Serves(u.completions[|s.completions|..])
    else []
  }

  function Serves(cs: seq<Completion>): (ds: seq<F.Deed>)
    ensures |ds| == |cs|
  {
    seq(|cs|, i requires 0 <= i < |cs| => F.Serve(cs[i].code))
  }

  /** `cs` are completions of accepted requests, added at the end. */
  predicate Extends(s: State, u: State) {
    && s.completions <= u.completions && u.accepted == s.accepted
    && forall i | |s.completions| <= i < |u.completions| :: u.completions[i].accepted
  }

  lemma OpExtends(s: State, op: Op, p: Progress)
    ensures Extends(s, OpSettle(s, op, p)) && Extends(s, OpRun(s, op))
  {
  }

  lemma FireExtends(s: State, e: Event, net: Net)
    requires Plausible(s.link, net)
    ensures Extends(s, Resume(s, e, net))
  {
    match e
    case ProcessTask => if s.tasks != [] { OpExtends(s, Op(s.tasks[0], true, Ok), Closed(Ok)); }
    case AdvanceTask =>
      if s.tasks != [] {
        var u := s.(tasks := s.tasks[1..]);
        if u.tasks != [] {
          OpExtends(u, Op(u.tasks[0], true, Ok), Closed(Ok));
        }
      }
    case Retry(op) => OpExtends(s, op, Closed(Ok));
    case Await(w, op) =>
      var (l, p) := Deliver(s.link, w, op.task, net);
      OpExtends(s.(link := l), op, p);
  }

  function Ids(cs: seq<Completion>): (ids: seq<nat>)
    ensures |ids| == |cs|
  {
    seq(|cs|, i requires 0 <= i < |cs| => cs[i].id)
  }

  lemma {:induction false} DoneExtends(cs: seq<Completion>, ds: seq<Completion>)
    requires forall i | 0 <= i < |ds| :: ds[i].accepted
    ensures Done(cs + ds) == Done(cs) + Ids(ds)
  {
    if ds == [] {
      assert cs + ds == cs;
    } else {
      var n := |ds| - 1;
      DoneExtends(cs, ds[..n]);
      DoneAppend(cs + ds[..n], ds[n]);
      assert cs + ds == cs + ds[..n] + [ds[n]];
      assert Ids(ds) == Ids(ds[..n]) + [ds[n].id];
    }
  }

  lemma {:induction false} ServeAll(v: F.Server, cs: seq<Completion>)
    requires |cs| <= |v.waiting|
    requires forall i | 0 <= i < |cs| :: cs[i].accepted && cs[i].id == v.waiting[i]
    ensures F.Leads(v, Serves(cs), F.Server(v.waiting[|cs|..], v.replies + Replies(cs)))
    decreases cs
  {
    var u := F.Server(v.waiting[|cs|..], v.replies + Replies(cs));
    if cs == [] {
      assert u == v;
    } else {
      var t := F.Do(v, F.Serve(cs[0].code));
      ServeAll(t, cs[1..]);
      assert Serves(cs)[1..] == Serves(cs[1..]);
      assert t.replies + Replies(cs[1..]) == u.replies;
      assert t.waiting[|cs| - 1..] == u.waiting;
    }
  }

  lemma WaitingIs(s: State)
    requires Inv(s)
    ensures ServerOf(s).waiting == s.accepted[Served(s)..]
  {
  }

  /** Two prefixes of the same sequence, one extending the other. */
  lemma NextInLine(acc: seq<nat>, k: nat, n: nat, ids: seq<nat>)
    requires k <= |acc| && n <= |acc| && acc[..k] + ids == acc[..n]
    ensures n == k + |ids| && ids == acc[k..n] && acc[k..][|ids|..] == acc[n..]
  {
    assert |acc[..k] + ids| == k + |ids|;
    assert acc[..n][k..] == acc[k..n] && (acc[..k] + ids)[k..] == ids;
  }

  lemma ExtensionRefines(s: State, u: State)
    requires Inv(s) && Inv(u) && Extends(s, u)
    ensures F.Leads(ServerOf(s), Serves(u.completions[|s.completions|..]), ServerOf(u))
  {
    var cs := u.completions[|s.completions|..];
    assert u.completions == s.completions + cs;
    DoneExtends(s.completions, cs);
    WaitingIs(s);
    WaitingIs(u);
    ServesNext(ServerOf(s), ServerOf(u), s.accepted, Served(s), Served(u), cs) by {
      assert Replies(u.completions) == Replies(s.completions) + Replies(cs);
    }
  }

  lemma ServesNext(v: F.Server, u: F.Server, acc: seq<nat>, k: nat, n: nat, cs: seq<Completion>)
    requires k <= |acc| && n <= |acc| && acc[..k] + Ids(cs) == acc[..n]
    requires v.waiting == acc[k..] && u.waiting == acc[n..] && u.replies == v.replies + Replies(cs)
    requires forall i | 0 <= i < |cs| :: cs[i].accepted
    ensures F.Leads(v, Serves(cs), u)
  {
    NextInLine(acc, k, n, Ids(cs));
    forall i | 0 <= i < |cs| ensures cs[i].id == v.waiting[i] {
      assert Ids(cs)[i] == acc[k..n][i];
    }
    ServeAll(v, cs);
  }

  /** Refinement: every step of the session is matched by deeds of the server. */
  lemma StepRefines(s: State, a: Action)
    requires Inv(s) && Enabled(s, a)
    ensures F.Leads(ServerOf(s), Deeds(s, a, Step(s, a)), ServerOf(Step(s, a)))
  {
    var u := Step(s, a);
    StepKeeps(s, a);
    if a.Push? {
      PushRefines(s);
    } else {
      if a.Fire? {
        FireExtends(s.(posted := Without(s.posted, a.i)), s.posted[a.i], a.net);
      }
      assert Extends(s, u);
      ExtensionRefines(s, u);
    }
  }

  lemma PushRefines(s: State)
    requires Inv(s)
    ensures F.Leads(ServerOf(s), Deeds(s, Push, PushRequest(s)), ServerOf(PushRequest(s)))
  {
    var u := PushRequest(s);
    var d := if s.running then F.Accept(s.nextId) else F.Reject(s.nextId);
    assert F.Do(ServerOf(s), d) == ServerOf(u) by {
      if !s.running {
        assert Replies(u.completions) == Replies(s.completions) + [F.Reply(s.nextId, Aborted, false)];
      }
    }
    assert F.Leads(ServerOf(u), [], ServerOf(u));
    assert [d][1..] == [];
  }

  /** All the deeds of a run, in order. */
  ghost function History(tr: seq<State>, acts: seq<Action>, i: nat): seq<F.Deed>
    requires |tr| == |acts| + 1 && i < |tr|
  {
    if i == 0 then [] else History(tr, acts, i - 1) + Deeds(tr[i - 1], acts[i - 1], tr[i])
  }

  /** In every run the session does what the FIFO server does. */
  lemma {:induction false} RunRefines(cfg: Config, tr: seq<State>, acts: seq<Action>, i: nat)
    requires IsRun(cfg, tr, acts) && i < |tr|
    ensures F.Leads(F.Server([], []), History(tr, acts, i), ServerOf(tr[i]))
  {
    if i > 0 {
      RunRefines(cfg, tr, acts, i - 1);
      InvAlways(cfg, tr, acts, i - 1);
      StepRefines(tr[i - 1], acts[i - 1]);
      F.LeadsOn(F.Server([], []), History(tr, acts, i - 1), ServerOf(tr[i - 1]),
                Deeds(tr[i - 1], acts[i - 1], tr[i]), ServerOf(tr[i]));
    }
  }

  /** The completions of accepted requests are a prefix of the accepted requests, the rest is
      still in the queue, and every id is either accepted or turned away, once. */
  lemma ExactlyOnceInOrder(cfg: Config, tr: seq<State>, acts: seq<Action>, i: nat)
    requires IsRun(cfg, tr, acts) && i < |tr|
    ensures Done(tr[i].completions) <= tr[i].accepted
    ensures tr[i].accepted == Done(tr[i].completions) + ServerOf(tr[i]).waiting
    ensures forall j, k | 0 <= j < k < |tr[i].accepted| :: tr[i].accepted[j] != tr[i].accepted[k]
    ensures forall j, k | 0 <= j < k < |Rejected(tr[i].completions)| ::
              Rejected(tr[i].completions)[j] != Rejected(tr[i].completions)[k]
    ensures forall id: nat | id < tr[i].nextId :: id in tr[i].accepted <==> id !in Rejected(tr[i].completions)
  {
    InvAlways(cfg, tr, acts, i);
    WaitingIs(tr[i]);
  }
}
