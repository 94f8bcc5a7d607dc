/** What holds of the transport and of the wire in every run of a session. */
module Theorems {
  import opened ErrorCodes
  import opened Transports
  import opened Protocol
  import opened Invariants
  import opened Moves
  import opened Runs
  import opened Ordering
  import opened Streams
  import opened Buffers
  import opened Timers
  import opened Outcomes

  // ---------------------------------------------------------------- the driver

  /** A non-empty queue has exactly one handler pending, so none is lost or doubled; a task
      whose op is in flight stays in front; and a pop always finds a task. */
  lemma OneDriver(cfg: Config, tr: seq<State>, acts: seq<Action>, i: nat)
    requires IsRun(cfg, tr, acts) && i < |tr|
    ensures |tr[i].posted| == (if tr[i].tasks == [] then 0 else 1)
    ensures forall e | e in tr[i].posted :: HasOp(e) ==> tr[i].tasks != [] && e.op.task == tr[i].tasks[0]
    ensures AdvanceTask in tr[i].posted ==> tr[i].tasks != []
  {
    InvAlways(cfg, tr, acts, i);
  }

  // ---------------------------------------------------------------- the two running flags

  predicate NoneRefused(log: seq<Wire>) {
    forall w | w in log :: !w.ExchangeRefused?
  }

  predicate Unrefused(v: View) {
    v.live ==> NoneRefused(v.l.wire)
  }

  lemma HearUnrefused(l: Link, w: Wait, id: nat, net: Net)
    requires Plausible(l, net) && (w.IsExchange() ==> l.running) && NoneRefused(l.wire)
    ensures NoneRefused(Continue(l, w, id, net).0.wire)
  {
    if w.IsConnect() {
      ConnectLogs(NoneRefused, l, w, id, net);
    }
  }

  lemma UnrefusedKept()
    ensures Kept(Unrefused)
  {
    forall v, m | Unrefused(v) && Can(v, m) ensures Unrefused(Apply(v, m)) {
      if m.Hear? && v.live {
        if v.st.w.OnStream(v.l.cfg.kind) && v.l.expired {
          HearUnrefused(v.l.(expired := false), v.st.w, v.st.op.task, m.net.(code := StreamTimeout));
        } else {
          HearUnrefused(v.l, v.st.w, v.st.op.task, m.net);
        }
      }
    }
  }

  /** While the session runs and the driver is not closing, an open socket belongs to a running
      transport; so the guard of an exchange has never refused one. */
  lemma FlagsAgree(cfg: Config, tr: seq<State>, acts: seq<Action>, i: nat)
    requires IsRun(cfg, tr, acts) && i < |tr| && tr[i].running
    ensures tr[i].link.open && !(exists e | e in tr[i].posted :: e.Await? && e.wait.IsClose()) ==> tr[i].link.running
    ensures NoneRefused(tr[i].link.wire)
  {
    InvAlways(cfg, tr, acts, i);
    UnrefusedKept();
    Always(Unrefused, cfg, tr, acts, i);
    if tr[i].posted != [] {
      assert tr[i].posted[0] in tr[i].posted;
    }
  }

  // ---------------------------------------------------------------- the order on the wire

  lemma WireInOrder(cfg: Config, tr: seq<State>, acts: seq<Action>, i: nat)
    requires IsRun(cfg, tr, acts) && i < |tr|
    ensures AllInOrder(cfg, tr[i].link.wire) && tr[i].link.cfg == cfg
  {
    OrderedKept();
    Always(Ordered, cfg, tr, acts, i);
    ConfigStays(cfg, tr, acts, i);
  }

  lemma ConfigStays(cfg: Config, tr: seq<State>, acts: seq<Action>, i: nat)
    requires IsRun(cfg, tr, acts) && i < |tr|
    ensures tr[i].link.cfg == cfg
  {
    forall v: View, m | v.l.cfg == cfg && Can(v, m) ensures Apply(v, m).l.cfg == cfg {
      if m.Hear? {
        DeliverShape(v.l, v.st.w, v.st.op.task, m.net);
      }
    }
    Always((v: View) => v.l.cfg == cfg, cfg, tr, acts, i);
  }

  lemma {:induction false} Before(cfg: Config, log: seq<Wire>, k: nat)
    requires AllInOrder(cfg, log) && k < |log|
    ensures InOrder(cfg, log[..k], log[k])
    ensures k > 0 ==> log[..k][|log[..k]| - 1] == log[k - 1]
  {
    EntryInOrder(cfg, log, k);
  }

  /** A TLS handshake only starts after the name was resolved and the peer dialled; through a
      tunnel, only after the proxy accepted a CONNECT that names the target. */
  lemma HandshakeScript(cfg: Config, tr: seq<State>, acts: seq<Action>, i: nat, k: nat)
    requires IsRun(cfg, tr, acts) && i < |tr| && k < |tr[i].link.wire| && tr[i].link.wire[k].HandshakeBegun?
    ensures var log := tr[i].link.wire;
            && cfg.kind != Tcp
            && (cfg.kind == Ssl ==>
                  k >= 3 && log[k - 3].ConnectBegun? && log[k - 3].conn == log[k].conn &&
                  log[k - 2] == Resolved(log[k].conn) && log[k - 1] == Dialed(log[k].conn))
            && (cfg.kind == Tunnel ==>
                  k >= 5 && log[k - 5].ConnectBegun? && log[k - 5].conn == log[k].conn &&
                  log[k - 4] == Resolved(log[k].conn) && log[k - 3] == Dialed(log[k].conn) &&
                  log[k - 2] == ConnectSent(log[k].conn, cfg.host) && log[k - 1] == ProxyAccepted(log[k].conn))
  {
    WireInOrder(cfg, tr, acts, i);
    HandshakeInLog(cfg, tr[i].link.wire, k);
  }

  lemma HandshakeInLog(cfg: Config, log: seq<Wire>, k: nat)
    requires AllInOrder(cfg, log) && k < |log| && log[k].HandshakeBegun?
    ensures cfg.kind != Tcp
    ensures cfg.kind == Ssl ==>
              k >= 3 && log[k - 3].ConnectBegun? && log[k - 3].conn == log[k].conn &&
              log[k - 2] == Resolved(log[k].conn) && log[k - 1] == Dialed(log[k].conn)
    ensures cfg.kind == Tunnel ==>
              k >= 5 && log[k - 5].ConnectBegun? && log[k - 5].conn == log[k].conn &&
              log[k - 4] == Resolved(log[k].conn) && log[k - 3] == Dialed(log[k].conn) &&
              log[k - 2] == ConnectSent(log[k].conn, cfg.host) && log[k - 1] == ProxyAccepted(log[k].conn)
  {
    Before(cfg, log, k);
    Before(cfg, log, k - 1);
    Before(cfg, log, k - 2);
    if cfg.kind == Tunnel {
      Before(cfg, log, k - 3);
      Before(cfg, log, k - 4);
    }
  }

  /** A connect only succeeds at the end of the whole script of its kind. */
  lemma EstablishedScript(cfg: Config, tr: seq<State>, acts: seq<Action>, i: nat, k: nat)
    requires IsRun(cfg, tr, acts) && i < |tr| && k < |tr[i].link.wire| && tr[i].link.wire[k].Established?
    ensures var log := tr[i].link.wire;
            && k >= 3 && Opening(cfg.kind, k) >= 0
            && log[Opening(cfg.kind, k)].ConnectBegun? && log[Opening(cfg.kind, k)].conn == log[k].conn
            && (if cfg.kind == Tcp then log[k - 1] == Dialed(log[k].conn) && log[k - 2] == Resolved(log[k].conn)
                else log[k - 1] == HandshakeBegun(log[k].conn))
  {
    WireInOrder(cfg, tr, acts, i);
    EstablishedInLog(cfg, tr[i].link.wire, k);
  }

  lemma EstablishedInLog(cfg: Config, log: seq<Wire>, k: nat)
    requires AllInOrder(cfg, log) && k < |log| && log[k].Established?
    ensures k >= 3
    ensures if cfg.kind == Tcp then log[k - 1] == Dialed(log[k].conn) && log[k - 2] == Resolved(log[k].conn)
            else log[k - 1] == HandshakeBegun(log[k].conn)
    ensures Opening(cfg.kind, k) >= 0
    ensures log[Opening(cfg.kind, k)].ConnectBegun? && log[Opening(cfg.kind, k)].conn == log[k].conn
  {
    Before(cfg, log, k);
    if cfg.kind == Tcp {
      Before(cfg, log, k - 1);
      Before(cfg, log, k - 2);
    } else {
      HandshakeInLog(cfg, log, k - 1);
    }
  }

  /** Where the script that ends at entry `k` began. */
  function Opening(kind: Kind, k: nat): int {
    match kind
    case Tcp => k - 3
    case Ssl => k - 4
    case Tunnel => k - 6
  }

  /** On every connection writes and their outcomes strictly alternate, and a response is only
      ever read for the request written directly before it. */
  lemma ExchangesAlternate(cfg: Config, tr: seq<State>, acts: seq<Action>, i: nat, k: nat)
    requires IsRun(cfg, tr, acts) && i < |tr| && k < |tr[i].link.wire|
    ensures var log := tr[i].link.wire;
            && (log[k].Written? && k + 1 < |log| ==>
                  && (log[k + 1].Answered? || log[k + 1].ExchangeFailed? || log[k + 1].ExchangeRefused?)
                  && log[k + 1].conn == log[k].conn && log[k + 1].id == log[k].id)
            && (log[k].Answered? ==> k > 0 && log[k - 1] == Written(log[k].conn, log[k].gen, log[k].id))
            && (log[k].ExchangeFailed? || log[k].ExchangeRefused? ==>
                  k > 0 && log[k - 1].Written? && log[k - 1].conn == log[k].conn && log[k - 1].id == log[k].id)
  {
    WireInOrder(cfg, tr, acts, i);
    var log := tr[i].link.wire;
    Before(cfg, log, k);
    if k + 1 < |log| {
      Before(cfg, log, k + 1);
    }
  }

  // ---------------------------------------------------------------- streams

  lemma WireFresh(cfg: Config, tr: seq<State>, acts: seq<Action>, i: nat)
    requires IsRun(cfg, tr, acts) && i < |tr|
    ensures AllFresh(tr[i].link.wire)
  {
    FreshKept();
    Always(Fresh, cfg, tr, acts, i);
  }

  /** A request is only written on a stream whose own connect succeeded and on which no
      exchange has failed, unless what went wrong there was reported as an abort. */
  lemma WriteIsFresh(cfg: Config, tr: seq<State>, acts: seq<Action>, i: nat, k: nat)
    requires IsRun(cfg, tr, acts) && i < |tr| && k < |tr[i].link.wire| && tr[i].link.wire[k].Written?
    ensures var log := tr[i].link.wire;
            && ConnectBegun(log[k].conn, log[k].gen) in log[..k]
            && (Established(log[k].conn) in log[..k] || AbortedConnect(log[..k], log[k].conn))
            && (forall j | 0 <= j < k :: log[j].ExchangeFailed? && log[j].gen == log[k].gen ==> log[j].code == Aborted)
  {
    WireFresh(cfg, tr, acts, i);
    var log := tr[i].link.wire;
    EntryIsFresh(log, k);
    forall j | 0 <= j < k && log[j].ExchangeFailed? && log[j].gen == log[k].gen ensures log[j].code == Aborted {
      assert log[j] == log[..k][j] && log[j] in log[..k];
    }
  }

  /** A stream is connected once, unless the attempts before were aborted. */
  lemma StreamConnectsOnce(cfg: Config, tr: seq<State>, acts: seq<Action>, i: nat, j: nat, k: nat)
    requires IsRun(cfg, tr, acts) && i < |tr| && j < k < |tr[i].link.wire|
    requires tr[i].link.wire[j].ConnectBegun? && tr[i].link.wire[k].ConnectBegun?
    ensures tr[i].link.wire[j].conn < tr[i].link.wire[k].conn
    ensures tr[i].link.wire[j].gen == tr[i].link.wire[k].gen ==>
              AbortedConnect(tr[i].link.wire[..k], tr[i].link.wire[j].conn)
  {
    WireFresh(cfg, tr, acts, i);
    var log := tr[i].link.wire;
    EntryIsFresh(log, j);
    EntryIsFresh(log, k);
    assert log[j] == log[..k][j] && log[j] in log[..k];
  }

  /** Unless that very attempt was aborted, the write follows the complete script of its own
      attempt, made on its own stream, and what failed there before was an abort. */
  lemma WriteFollowsItsConnect(cfg: Config, tr: seq<State>, acts: seq<Action>, i: nat, k: nat)
    requires IsRun(cfg, tr, acts) && i < |tr| && k < |tr[i].link.wire| && tr[i].link.wire[k].Written?
    requires !AbortedConnect(tr[i].link.wire[..k], tr[i].link.wire[k].conn)
    ensures var log := tr[i].link.wire;
            && (exists e | 0 <= e < k ::
                  log[e] == Established(log[k].conn) && Opening(cfg.kind, e) >= 0 &&
                  log[Opening(cfg.kind, e)] == ConnectBegun(log[k].conn, log[k].gen))
            && (forall j | 0 <= j < k :: log[j].ExchangeFailed? && log[j].gen == log[k].gen ==> log[j].code == Aborted)
  {
    var log := tr[i].link.wire;
    var c, g := log[k].conn, log[k].gen;
    WriteIsFresh(cfg, tr, acts, i, k);
    var e :| 0 <= e < k && log[..k][e] == Established(c);
    var b :| 0 <= b < k && log[..k][b] == ConnectBegun(c, g);
    EstablishedScript(cfg, tr, acts, i, e);
    var o := Opening(cfg.kind, e);
    if o < b {
      StreamConnectsOnce(cfg, tr, acts, i, o, b);
    } else if b < o {
      StreamConnectsOnce(cfg, tr, acts, i, b, o);
    }
  }

  // ---------------------------------------------------------------- bytes

  lemma BuffersPure(cfg: Config, tr: seq<State>, acts: seq<Action>, i: nat)
    requires IsRun(cfg, tr, acts) && i < |tr|
    ensures Pure(ViewOf(tr[i]))
  {
    PureKept();
    Always(Pure, cfg, tr, acts, i);
  }

  /** On a basic transport the buffer is empty until the first read of a stream. */
  lemma FirstReadFindsNothing(cfg: Config, tr: seq<State>, acts: seq<Action>, i: nat)
    requires IsRun(cfg, tr, acts) && i < |tr| && tr[i].running && cfg.kind != Tunnel
    requires tr[i].posted != [] && tr[i].posted[0].Await? && tr[i].posted[0].wait.IsExchange()
    ensures var l := tr[i].link;
            && l.wire != [] && l.wire[|l.wire| - 1].Written? && l.wire[|l.wire| - 1].gen == l.gen
            && (NoWrite(l.wire[..|l.wire| - 1], l.gen) ==> l.buffer == [])
  {
    BuffersPure(cfg, tr, acts, i);
    ConfigStays(cfg, tr, acts, i);
  }

  /** A response object only holds a response that was logged directly after its own request
      was written, and every byte of it came in on that connection; on a basic transport, as
      application data. Some of it may have come in before the request was written. */
  lemma ResponseIsOwn(cfg: Config, tr: seq<State>, acts: seq<Action>, i: nat, id: nat)
    requires IsRun(cfg, tr, acts) && i < |tr| && id in tr[i].link.responses
    ensures exists k | 0 < k < |tr[i].link.wire| ::
              var w := tr[i].link.wire[k];
              && IsAnswer(w, id, tr[i].link.responses[id])
              && tr[i].link.wire[k - 1] == Written(w.conn, w.gen, id)
              && AllClean(cfg.kind, w.conn, w.body)
  {
    BuffersPure(cfg, tr, acts, i);
    ConfigStays(cfg, tr, acts, i);
    var log := tr[i].link.wire;
    var w :| w in log && IsAnswer(w, id, tr[i].link.responses[id]);
    var k :| 0 <= k < |log| && log[k] == w;
    ExchangesAlternate(cfg, tr, acts, i, k);
  }

  /** Conversely every answer is stored in the response object of its request, from the step
      that logged it on. */
  lemma ResponseIsStored(cfg: Config, tr: seq<State>, acts: seq<Action>, i: nat, k: nat)
    requires IsRun(cfg, tr, acts) && i < |tr| && k < |tr[i].link.wire| && tr[i].link.wire[k].Answered?
    ensures var w := tr[i].link.wire[k];
            w.id in tr[i].link.responses && tr[i].link.responses[w.id] == w.body
  {
    FiledKept();
    Always(Filed, cfg, tr, acts, i);
  }

  // ---------------------------------------------------------------- outcomes

  /** Success is only delivered for an answered request; another code than `operation_aborted`
      only for the connect that failed with it, or for a second failed exchange. */
  lemma OutcomeIsTrue(cfg: Config, tr: seq<State>, acts: seq<Action>, i: nat, c: Completion)
    requires IsRun(cfg, tr, acts) && i < |tr| && c in tr[i].completions
    ensures Justified(tr[i].link.wire, c)
  {
    SoundKept();
    Always(Sound, cfg, tr, acts, i);
  }

  /** Conversely every answer is delivered with success, in the step that read it. */
  lemma AnswerIsDelivered(cfg: Config, tr: seq<State>, acts: seq<Action>, i: nat, k: nat)
    requires IsRun(cfg, tr, acts) && i < |tr| && k < |tr[i].link.wire| && tr[i].link.wire[k].Answered?
    ensures Completion(tr[i].link.wire[k].id, Ok, true, k + 1) in tr[i].completions
  {
    SoundKept();
    Always(Sound, cfg, tr, acts, i);
  }

  lemma WrittenAtMostTwice(cfg: Config, tr: seq<State>, acts: seq<Action>, i: nat, id: nat)
    requires IsRun(cfg, tr, acts) && i < |tr|
    ensures Writes(tr[i].link.wire, id) <= 2
  {
    CountedKept();
    Always(Counted, cfg, tr, acts, i);
  }

  // ---------------------------------------------------------------- the timer

  /** As long as no stop has begun, the stream's timer is armed exactly while an operation of
      the driver is outstanding; the one exception is a tunnel that was refused its name. */
  lemma TimerMeansBusy(cfg: Config, tr: seq<State>, acts: seq<Action>, i: nat)
    requires IsRun(cfg, tr, acts) && i < |tr| && tr[i].stops == 0
    ensures tr[i].link.armed <==>
              || (exists e | e in tr[i].posted :: e.Await?)
              || (cfg.kind == Tunnel && NameRefused(tr[i].link.wire))
  {
    BalancedKept();
    Always(Balanced, cfg, tr, acts, i);
    ConfigStays(cfg, tr, acts, i);
    InvAlways(cfg, tr, acts, i);
    if tr[i].posted != [] {
      assert tr[i].posted == [tr[i].posted[0]];
    }
  }
}
