/** What the choice of transport means for the requests of a destination. */
module PoolLaws {
  import opened ErrorCodes
  import opened Transports
  import opened Protocol
  import opened Runs
  import opened Streams
  import opened Theorems
  import opened Endpoints
  import opened Pools

  /** In every run of a pool, each session has the transport that its destination calls for. */
  lemma TransportFits(max: nat, tr: seq<seq<Slot>>, acts: seq<PoolAction>, i: nat, k: nat)
    requires IsPoolRun(max, tr, acts) && i < |tr| && k < |tr[i]|
    ensures SpeaksTo(tr[i][k].s.link.cfg, tr[i][k].dest)
  {
    PooledSessionRuns(max, tr, acts, i, k);
    var cfg := ConfigFor(tr[i][k].dest);
    var run, steps :| IsRun(cfg, run, steps) && run[|run| - 1] == tr[i][k].s;
    ConfigStays(cfg, run, steps, |run| - 1);
  }

  /** The entries `h` and `h + 1` of the log are the handshake of connection `conn` and its
      success; through a proxy, it had accepted a tunnel to the target directly before. */
  predicate Greeted(log: seq<Wire>, h: nat, conn: nat, d: Destination) {
    && h + 1 < |log| && log[h] == HandshakeBegun(conn) && log[h + 1] == Established(conn)
    && (d.Through? ==>
          && h >= 2 && log[h - 1] == ProxyAccepted(conn)
          && log[h - 2] == ConnectSent(conn, d.target.domain + ":" + Decimal(d.target.port)))
  }

  lemma GreetedInRun(cfg: Config, tr: seq<State>, acts: seq<Action>, i: nat, w: nat, d: Destination)
    requires IsRun(cfg, tr, acts) && i < |tr| && w < |tr[i].link.wire| && tr[i].link.wire[w].Written?
    requires SpeaksTo(cfg, d) && !d.Plain?
    requires !AbortedConnect(tr[i].link.wire[..w], tr[i].link.wire[w].conn)
    ensures exists h | 0 <= h < w :: Greeted(tr[i].link.wire[..w], h, tr[i].link.wire[w].conn, d)
  {
    var log := tr[i].link.wire;
    WriteFollowsItsConnect(cfg, tr, acts, i, w);
    var e :| 0 <= e < w && log[e] == Established(log[w].conn);
    EstablishedScript(cfg, tr, acts, i, e);
    HandshakeScript(cfg, tr, acts, i, e - 1);
    assert Greeted(log[..w], e - 1, log[w].conn, d);
  }

  /** So a request for a destination that is secure, or behind a proxy, is only written after a
      TLS handshake that succeeded on its own connection, unless that very attempt was aborted;
      through a proxy, a tunnel to the target had been accepted there. */
  lemma SecureRequestsAreGreeted(max: nat, tr: seq<seq<Slot>>, acts: seq<PoolAction>, i: nat, k: nat, w: nat)
    requires IsPoolRun(max, tr, acts) && i < |tr| && k < |tr[i]| && !tr[i][k].dest.Plain?
    requires w < |tr[i][k].s.link.wire| && tr[i][k].s.link.wire[w].Written?
    requires !AbortedConnect(tr[i][k].s.link.wire[..w], tr[i][k].s.link.wire[w].conn)
    ensures var log := tr[i][k].s.link.wire;
            exists h | 0 <= h < w :: Greeted(log[..w], h, log[w].conn, tr[i][k].dest)
  {
    TransportFits(max, tr, acts, i, k);
    PooledSessionRuns(max, tr, acts, i, k);
    var cfg := ConfigFor(tr[i][k].dest);
    var run, steps :| IsRun(cfg, run, steps) && run[|run| - 1] == tr[i][k].s;
    ConfigStays(cfg, run, steps, |run| - 1);
    GreetedInRun(cfg, run, steps, |run| - 1, w, tr[i][k].dest);
  }
}
