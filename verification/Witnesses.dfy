/** Runs that show where the code stops short of what one might expect of it. */
module Witnesses {
  import opened ErrorCodes
  import opened Transports
  import opened Protocol
  import opened Runs
  import opened Streams
  import opened ProxyBytes

  const FINE := Net(Ok, Ok, true, 0, 0, true)

  /** One request accepted and taken up by the driver. */
  function Begun(cfg: Config): State {
    Init(cfg).(nextId := 1, accepted := [0], tasks := [0],
               posted := [Await(Resolve, Op(0, true, Ok))], link := ConnectBegin(NewLink(cfg)))
  }

  lemma ReachBegun(cfg: Config)
    ensures Reachable(cfg, Begun(cfg))
  {
    Reach(cfg);
    var s := Step(Init(cfg), Push);
    ReachOn(cfg, Init(cfg), Push);
    ReachOn(cfg, s, Fire(0, FINE));
    assert Step(s, Fire(0, FINE)) == Begun(cfg);
  }

  /** A connect reported as aborted while nothing was stopped: the session goes on, and the
      next request is written on a stream that was never connected. */
  lemma AbortedConnectIsWrittenOn()
    ensures exists s: State :: Reachable(Config(Tcp, ""), s) && s.running && s.link.wire ==
              [ConnectBegun(1, 0), Resolved(1), ConnectFailed(1, 0, Dialing, Aborted), Written(1, 0, 1)]
  {
    var cfg := Config(Tcp, "");
    ReachBegun(cfg);
    ReachOn(cfg, Begun(cfg), Push);
    var s := Step(Begun(cfg), Push);
    ReachOn(cfg, s, Fire(0, FINE));
    var s' := Step(s, Fire(0, FINE));
    ReachOn(cfg, s', Fire(0, FINE.(code := Aborted)));
    var s'' := Step(s', Fire(0, FINE.(code := Aborted)));
    ReachOn(cfg, s'', Fire(0, FINE));
    assert Step(s'', Fire(0, FINE)).link.wire ==
           [ConnectBegun(1, 0), Resolved(1), ConnectFailed(1, 0, Dialing, Aborted), Written(1, 0, 1)];
  }

  /** A plain connection on which the first of two requests has been written. */
  predicate Sent(s: State) {
    && s.running && s.tasks == [0, 1] && s.posted == [Await(ExWrite, Op(0, true, Ok))]
    && s.link.cfg == Config(Tcp, "") && s.link.running && s.link.open && !s.link.expired && s.link.buffer == []
    && s.link.conn == 1 && s.link.gen == 0 && s.link.wire == SENT
  }

  const SENT := [ConnectBegun(1, 0), Resolved(1), Dialed(1), Established(1), Written(1, 0, 0)]

  lemma ReachSent() returns (s: State)
    ensures Reachable(Config(Tcp, ""), s) && Sent(s)
  {
    var cfg := Config(Tcp, "");
    ReachBegun(cfg);
    ReachOn(cfg, Begun(cfg), Push);
    var s1 := Step(Begun(cfg), Push);
    ReachOn(cfg, s1, Fire(0, FINE));
    var s2 := Step(s1, Fire(0, FINE));
    ReachOn(cfg, s2, Fire(0, FINE));
    s := Step(s2, Fire(0, FINE));
  }

  /** An exchange reported as aborted while nothing was stopped: the next request is written on
      the stream on which it failed. */
  lemma AbortedExchangeIsWrittenOn()
    ensures exists s: State ::
              Reachable(Config(Tcp, ""), s) && s.running && s.link.wire == SENT + [ExchangeFailed(1, 0, 0, Aborted), Written(1, 0, 1)]
  {
    var cfg := Config(Tcp, "");
    var s0 := ReachSent();
    ReachOn(cfg, s0, Fire(0, FINE.(code := Aborted)));
    var s1 := Step(s0, Fire(0, FINE.(code := Aborted)));
    ReachOn(cfg, s1, Fire(0, FINE));
    var s2 := Step(s1, Fire(0, FINE));
    assert s2.link.wire == SENT + [ExchangeFailed(1, 0, 0, Aborted), Written(1, 0, 1)];
  }

  /** The first request has been answered, with one byte more than its response took; the second
      has not been written. */
  predicate Overfull(s: State) {
    && s.running && s.tasks == [0, 1] && s.posted == [AdvanceTask]
    && s.link.cfg == Config(Tcp, "") && s.link.running && s.link.open && !s.link.expired
    && s.link.buffer == [Byte(1, false)] && forall w | w in s.link.wire :: w.Written? ==> w.id != 1
  }

  lemma AnswersTooMuch(s: State)
    requires s.running && s.tasks == [0, 1] && s.posted == [Await(ExRead, Op(0, true, Ok))]
    requires s.link.cfg == Config(Tcp, "") && s.link.running && s.link.open && !s.link.expired && s.link.buffer == []
    requires s.link.conn == 1 && s.link.gen == 0 && s.link.wire == SENT
    ensures Overfull(Step(s, SURPLUS))
  {
    assert Answers(s, SURPLUS);
    assert Step(s, SURPLUS).link.wire == SENT + [Answered(1, 0, 0, Body(s, SURPLUS))];
  }

  lemma ReachOverfull() returns (s: State)
    ensures Reachable(Config(Tcp, ""), s) && Overfull(s)
  {
    var s0 := ReachSent();
    ReachOn(Config(Tcp, ""), s0, Fire(0, FINE));
    var s1 := Step(s0, Fire(0, FINE));
    ReachOn(Config(Tcp, ""), s1, SURPLUS);
    s := Step(s1, SURPLUS);
    AnswersTooMuch(s1);
  }

  /** Nothing is received from here on. */
  predicate Silent(acts: seq<Action>) {
    forall k | 0 <= k < |acts| :: acts[k].Fire? && acts[k].net.received == 0
  }

  /** What came in with one response and was not part of it becomes part of the next: the second
      request is answered with a byte that was there before it was written. */
  lemma LeftoverReachesNextResponse()
    ensures exists s, acts, u ::
              && Reachable(Config(Tcp, ""), s) && Overfull(s) && Silent(acts) && Leads(s, acts, u)
              && 1 in u.link.responses && u.link.responses[1] == [Byte(1, false)]
  {
    var s := ReachOverfull();
    var s1 := Step(s, Fire(0, FINE));
    var s2 := Step(s1, Fire(0, FINE));
    var b := Fire(0, FINE.(consumed := 1));
    var u := Step(s2, b);
    TwoLead(s, Fire(0, FINE), s1, Fire(0, FINE), s2);
    assert Leads(u, [], u);
    assert Leads(s2, [b], u);
    LeadsOn(s, [Fire(0, FINE), Fire(0, FINE)], s2, [b], u);
    assert Silent([Fire(0, FINE), Fire(0, FINE)] + [b]);
  }

  /** A tunnel that is refused its server name leaves the timer armed with nothing to time. */
  lemma TunnelLeavesTimerArmed(host: string)
    ensures exists s: State ::
              Reachable(Config(Tunnel, host), s) && s.link.armed && s.posted == [] && s.tasks == [] && s.stops == 0
  {
    var cfg := Config(Tunnel, host);
    ReachBegun(cfg);
    var a := Fire(0, FINE.(setup := Other(0)));
    ReachOn(cfg, Begun(cfg), a);
    var s := Step(Begun(cfg), a);
    ReachOn(cfg, s, Fire(0, FINE));
    assert Step(s, Fire(0, FINE)).link.armed;
  }

  /** A tunnel that waits for its proxy's answer, with two requests queued. */
  predicate Asking(cfg: Config, s: State) {
    && s.running && s.tasks == [0, 1] && s.posted == [Await(ProxyRead, Op(0, true, Ok))]
    && s.link.cfg == cfg && s.link.running && s.link.open && !s.link.expired && s.link.buffer == []
    && s.link.conn == 1 && s.link.gen == 0 && s.link.wire == [ConnectBegun(1, 0), Resolved(1), Dialed(1), ConnectSent(1, cfg.host)]
  }

  lemma ReachAsking(cfg: Config) returns (s: State)
    requires cfg.kind == Tunnel
    ensures Reachable(cfg, s) && Asking(cfg, s)
  {
    ReachBegun(cfg);
    ReachOn(cfg, Begun(cfg), Push);
    var s1 := Step(Begun(cfg), Push);
    ReachOn(cfg, s1, Fire(0, FINE));
    var s2 := Step(s1, Fire(0, FINE));
    ReachOn(cfg, s2, Fire(0, FINE));
    var s3 := Step(s2, Fire(0, FINE));
    ReachOn(cfg, s3, Fire(0, FINE));
    s := Step(s3, Fire(0, FINE));
  }

  /** Request `id` is being read, with one byte of the proxy's in the buffer. */
  predicate Reading(cfg: Config, s: State, id: nat) {
    && s.running && id in s.tasks && s.posted == [Await(ExRead, Op(id, true, Ok))]
    && s.link.cfg == cfg && s.link.running && !s.link.expired && s.link.buffer == [Byte(1, true)]
  }

  lemma ReadsProxyByte(cfg: Config, s: State, id: nat)
    requires Reachable(cfg, s) && Reading(cfg, s, id)
    ensures exists u: State :: Reachable(cfg, u) && id in u.link.responses &&
              u.link.responses[id] == [Byte(1, true)] && u.link.wire == s.link.wire + [Answered(s.link.conn, s.link.gen, id, [Byte(1, true)])]
  {
    var a := Fire(0, FINE.(consumed := 1));
    ReachOn(cfg, s, a);
    assert Step(s, a).link.responses[id] == [Byte(1, true)];
  }

  lemma ReachReading(cfg: Config) returns (s: State)
    requires cfg.kind == Tunnel
    ensures Reachable(cfg, s) && Reading(cfg, s, 0)
  {
    var s0 := ReachAsking(cfg);
    var a := Fire(0, FINE.(received := 2, consumed := 1));
    ReachOn(cfg, s0, a);
    var s1 := Step(s0, a);
    ReachOn(cfg, s1, Fire(0, FINE));
    var s2 := Step(s1, Fire(0, FINE));
    ReachOn(cfg, s2, Fire(0, FINE));
    s := Step(s2, Fire(0, FINE));
  }

  /** What a proxy sends after its answer stays in the buffer and becomes part of the first
      response that is read through the tunnel. */
  lemma ProxyBytesReachResponse(host: string)
    ensures exists s: State ::
              Reachable(Config(Tunnel, host), s) && 0 in s.link.responses && s.link.responses[0] == [Byte(1, true)]
  {
    var cfg := Config(Tunnel, host);
    var s := ReachReading(cfg);
    ReadsProxyByte(cfg, s, 0);
  }

  function Unaccepted(cfg: Config): seq<Wire> {
    [ConnectBegun(1, 0), Resolved(1), Dialed(1), ConnectSent(1, cfg.host), ConnectFailed(1, 0, Proxying, Aborted),
     Written(1, 0, 1)]
  }

  lemma ReachWriting(cfg: Config) returns (s: State)
    requires cfg.kind == Tunnel
    ensures Reachable(cfg, s) && s.running && s.tasks == [1] && s.posted == [Await(ExWrite, Op(1, true, Ok))]
    ensures s.link.cfg == cfg && s.link.running && !s.link.expired && s.link.buffer == [Byte(1, true)]
    ensures s.link.wire == Unaccepted(cfg)
  {
    var s0 := ReachAsking(cfg);
    var a := Fire(0, FINE.(code := Aborted, received := 1));
    ReachOn(cfg, s0, a);
    var s1 := Step(s0, a);
    ReachOn(cfg, s1, Fire(0, FINE));
    s := Step(s1, Fire(0, FINE));
  }

  lemma ReachUnaccepted(cfg: Config) returns (s: State)
    requires cfg.kind == Tunnel
    ensures Reachable(cfg, s) && Reading(cfg, s, 1) && s.link.wire == Unaccepted(cfg)
  {
    var s2 := ReachWriting(cfg);
    ReachOn(cfg, s2, Fire(0, FINE));
    s := Step(s2, Fire(0, FINE));
  }

  /** When the read of its answer is aborted, what the proxy has sent so far becomes part of a
      response too, although no tunnel was ever accepted. */
  lemma UnacceptedBytesReachResponse(host: string)
    ensures exists s: State ::
              && Reachable(Config(Tunnel, host), s) && 1 in s.link.responses
              && s.link.responses[1] == [Byte(1, true)] && forall w | w in s.link.wire :: !w.ProxyAccepted?
  {
    var cfg := Config(Tunnel, host);
    var s := ReachUnaccepted(cfg);
    ReadsProxyByte(cfg, s, 1);
  }

  /** The actions `acts`, taken one after the other, lead from `s` to `u`. */
  predicate Leads(s: State, acts: seq<Action>, u: State)
    decreases acts
  {
    if acts == [] then s == u else Enabled(s, acts[0]) && Leads(Step(s, acts[0]), acts[1..], u)
  }

  lemma TwoLead(s: State, a: Action, t: State, b: Action, u: State)
    requires Enabled(s, a) && t == Step(s, a) && Enabled(t, b) && u == Step(t, b)
    ensures Leads(s, [a, b], u)
  {
    assert Leads(u, [], u);
    assert [b][1..] == [] && Leads(t, [b], u);
    assert [a, b][1..] == [b];
  }

  lemma {:induction false} LeadsOn(s: State, p: seq<Action>, t: State, q: seq<Action>, u: State)
    requires Leads(s, p, t) && Leads(t, q, u)
    ensures Leads(s, p + q, u)
    decreases p
  {
    if p == [] {
      assert p + q == q;
    } else {
      LeadsOn(Step(s, p[0]), p[1..], t, q, u);
      assert (p + q)[1..] == p[1..] + q;
    }
  }

  const SURPLUS := Fire(0, FINE.(received := 2, consumed := 1))

  /** The first request waits for its response, with a byte of the proxy's in the buffer. */
  predicate AtFirstRead(cfg: Config, u: State) {
    && Reading(cfg, u, 0) && u.tasks == [0, 1] && u.link.open && u.link.conn == 1
    && NoAnswerFrom(u.link.wire, 0)
  }

  lemma ToFirstRead(cfg: Config, s: State) returns (u: State)
    requires cfg.kind == Tunnel && Asking(cfg, s)
    ensures Leaves(s, SURPLUS) && Leads(Step(s, SURPLUS), [Fire(0, FINE), Fire(0, FINE)], u) && AtFirstRead(cfg, u)
  {
    var s1 := Step(s, SURPLUS);
    var s2 := Step(s1, Fire(0, FINE));
    u := Step(s2, Fire(0, FINE));
    TwoLead(s1, Fire(0, FINE), s2, Fire(0, FINE), u);
  }

  /** Its read takes the byte and is aborted; the second request has been sent. */
  predicate AtSecondWrite(v: State) {
    && v.running && v.posted == [Await(ExWrite, Op(1, true, Ok))]
    && v.link.conn == 1 && v.link.running && !v.link.expired && v.link.buffer == [] && NoAnswerFrom(v.link.wire, 0)
  }

  const TAKEN := Fire(0, FINE.(code := Aborted, consumed := 1))

  lemma ToSecondWrite(cfg: Config, u: State) returns (v: State)
    requires AtFirstRead(cfg, u)
    ensures Leads(u, [TAKEN, Fire(0, FINE)], v) && AtSecondWrite(v)
  {
    var u1 := Step(u, TAKEN);
    v := Step(u1, Fire(0, FINE));
    TwoLead(u, TAKEN, u1, Fire(0, FINE), v);
  }

  lemma ToSecondRead(v: State) returns (w: State, b: Action)
    requires AtSecondWrite(v)
    ensures Leads(v, [Fire(0, FINE)], w) && Answers(w, b) && Body(w, b) == [Byte(1, false)]
    ensures w.link.conn == 1 && NoAnswerFrom(w.link.wire, 0)
  {
    w := Step(v, Fire(0, FINE));
    b := Fire(0, FINE.(received := 1, consumed := 1));
    assert Leads(w, [], w);
    assert Leads(v, [Fire(0, FINE)], w);
  }

  /** So the first response after a proxy has left bytes may have none of them, although it is
      not empty: an aborted read has taken them. */
  lemma AbortedReadTakesLeftover(host: string)
    ensures exists s, a, acts, u, b ::
              && Reachable(Config(Tunnel, host), s) && Leaves(s, a) && Leads(Step(s, a), acts, u)
              && Answers(u, b) && u.link.conn == s.link.conn && NoAnswerFrom(u.link.wire, 0)
              && Body(u, b) == [Byte(1, false)]
  {
    var cfg := Config(Tunnel, host);
    var s := ReachAsking(cfg);
    var u := ToFirstRead(cfg, s);
    var v := ToSecondWrite(cfg, u);
    var w, b := ToSecondRead(v);
    LeadsOn(u, [TAKEN, Fire(0, FINE)], v, [Fire(0, FINE)], w);
    LeadsOn(Step(s, SURPLUS), [Fire(0, FINE), Fire(0, FINE)], u, [TAKEN, Fire(0, FINE)] + [Fire(0, FINE)], w);
  }
}
