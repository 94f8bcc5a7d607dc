/** Error codes, as far as the library tells them apart. */
module ErrorCodes {

  /** `Other` stands for every code that no branch of the library compares against. */
  datatype Code =
    | Ok
    | Aborted          // net::error::operation_aborted
    | Eof              // net::error::eof
    | Truncated        // net::ssl::error::stream_truncated
    | Unspecified      // net::ssl::error::unspecified_system_error
    | StreamTimeout    // beast::error::timeout, reported by a stream whose timer ran out
    | TimedOut         // net::error::timed_out
    | Refused          // net::error::connection_refused
    | Other(id: nat)

  /** What `async_ssl_close_op` makes of the result of `async_shutdown`. */
  function ShutdownCode(c: Code): (r: Code) {
    if c == Eof then Ok
    else if c == Truncated then Ok
    else if c == Unspecified then Ok
    else if c == Aborted then Ok
    else c
  }
}

/**
  The transports underneath a session: connect, exchange and close, each cut at the points
  where it waits for the network. An operation that is waiting is a `Wait`; running it to its
  next wait, or to its completion, is one function application.
 */
module Transports {
  import opened ErrorCodes

  /** `Tcp` and `Ssl` are the two instances of `basic_async_transport`. */
  datatype Kind = Tcp | Ssl | Tunnel

  /** What the transport was built for; `host` is the target named to a proxy. */
  datatype Config = Config(kind: Kind, host: string)

  /** A byte of the read buffer, reduced to where it came from: the connection attempt that
      received it, and whether it was read in the clear while talking to the proxy. */
  datatype Byte = Byte(conn: nat, plain: bool)

  /** The points of a connect at which it can fail. */
  datatype Phase = Resolving | NamingHost | Dialing | Tuning | Proxying | Greeting

  /** The history of what the transport did on the network. */
  datatype Wire =
    | ConnectBegun(conn: nat, gen: nat)
    | Resolved(conn: nat)
    | Dialed(conn: nat)
    | ConnectSent(conn: nat, host: string)
    | ProxyAccepted(conn: nat)
    | HandshakeBegun(conn: nat)
    | Established(conn: nat)
    | ConnectFailed(conn: nat, id: nat, phase: Phase, code: Code)
    | Written(conn: nat, gen: nat, id: nat)
    | Answered(conn: nat, gen: nat, id: nat, body: seq<Byte>)
    | ExchangeFailed(conn: nat, gen: nat, id: nat, code: Code)
    | ExchangeRefused(conn: nat, gen: nat, id: nat)

  /**
    `gen` numbers the stream objects (`stream_` is replaced by `reset`), `conn` numbers the
    connection attempts. `armed` is the timer of the current stream and `expired` says that
    it ran out and closed the socket under an operation that is still outstanding.
    `responses` holds the response objects of the requests, `wire` is history.
   */
  datatype Link = Link(
    cfg: Config,
    running: bool,
    gen: nat,
    conn: nat,
    open: bool,
    armed: bool,
    expired: bool,
    buffer: seq<Byte>,
    responses: map<nat, seq<Byte>>,
    wire: seq<Wire>)

  function NewLink(cfg: Config): Link {
    Link(cfg, true, 0, 0, false, false, false, [], map[], [])
  }

  /** What an outstanding operation waits for. */
  datatype Wait =
    | Resolve      // async_resolve
    | Dial         // the TCP async_connect
    | ProxyWrite   // the CONNECT request of the tunnel
    | ProxyRead    // the proxy's answer
    | Handshake    // async_handshake
    | ExWrite      // async_write of a request
    | ExRead       // async_read of its response
    | Shutdown     // the closing of an open socket
    | ClosePosted  // the closing of a socket that was not open
  {
    predicate IsConnect() { Resolve? || Dial? || ProxyWrite? || ProxyRead? || Handshake? }

    predicate IsExchange() { ExWrite? || ExRead? }

    predicate IsClose() { Shutdown? || ClosePosted? }

    /** The waits on the stream itself, on which its timer acts. */
    predicate OnStream(kind: Kind) {
      !Resolve? && !ClosePosted? && !(Shutdown? && kind == Tcp)
    }
  }

  /** Where an operation has got to: another wait, or its completion. */
  datatype Progress =
    | Pending(wait: Wait)
    | Connected(ec: Code)
    | Exchanged(ec: Code)
    | Closed(ec: Code)

  /**
    What the network answers. `setup` is the result of the local call made on the way (SNI,
    socket option), `keepsOpen` whether a failed connect leaves the socket open, `welcome`
    whether the proxy's status is 200; a read brings in `received` bytes and its parser
    takes the first `consumed` of the buffer.
   */
  datatype Net = Net(code: Code, setup: Code, keepsOpen: bool, received: nat, consumed: nat, welcome: bool)

  predicate Plausible(l: Link, net: Net) {
    net.consumed <= |l.buffer| + net.received && (net.setup.Ok? || net.setup.Other?)
  }

  // ---------------------------------------------------------------- small pieces

  function Log(l: Link, w: Wire): Link {
    l.(wire := l.wire + [w])
  }

  function Disarmed(l: Link): Link {
    l.(armed := false)
  }

  /** `reset`: a new stream object, and an empty buffer. */
  function Renewed(l: Link): Link {
    l.(gen := l.gen + 1, open := false, armed := false, expired := false, buffer := [])
  }

  /** Everything in the buffer once `received` more bytes have come in. */
  function Filled(l: Link, plain: bool, received: nat): (b: seq<Byte>)
    ensures |b| == |l.buffer| + received
    ensures l.buffer <= b && forall i | |l.buffer| <= i < |b| :: b[i] == Byte(l.conn, plain)
  {
    l.buffer + seq(received, _ => Byte(l.conn, plain))
  }

  // ---------------------------------------------------------------- connect

  /** `async_connect` up to its first wait, the resolution. */
  function ConnectBegin(l: Link): Link {
    var u := if l.cfg.kind != Tunnel && !l.running then Renewed(l) else l;
    Log(u.(running := true, armed := true, conn := u.conn + 1), ConnectBegun(u.conn + 1, u.gen))
  }

  function ConnectFail(l: Link, id: nat, phase: Phase, code: Code): (Link, Progress) {
    (Log(l, ConnectFailed(l.conn, id, phase, code)), Connected(code))
  }

  function ConnectDone(l: Link): (Link, Progress) {
    (Log(Disarmed(l), Established(l.conn)), Connected(Ok))
  }

  function HandshakeBegin(l: Link): (Link, Progress) {
    (Log(l, HandshakeBegun(l.conn)), Pending(Handshake))
  }

  /** The tunnel returns from a refused server name without touching its timer. */
  function OnResolve(l: Link, id: nat, net: Net): (Link, Progress) {
    if net.code != Ok then ConnectFail(Disarmed(l), id, Resolving, net.code)
    else
      var u := Log(l, Resolved(l.conn));
      if l.cfg.kind == Tcp || net.setup == Ok then (u.(open := true), Pending(Dial))
      else if l.cfg.kind == Ssl then ConnectFail(Disarmed(u), id, NamingHost, net.setup)
      else ConnectFail(u, id, NamingHost, net.setup)
  }

  function OnDial(l: Link, id: nat, net: Net): (Link, Progress) {
    if net.code != Ok then
      ConnectFail(Disarmed(l.(open := l.open && net.keepsOpen)), id, Dialing, net.code)
    else
      var u := Log(l, Dialed(l.conn));
      match l.cfg.kind
      case Tcp => ConnectDone(u)
      case Ssl =>
        if net.setup != Ok then ConnectFail(Disarmed(u), id, Tuning, net.setup) else HandshakeBegin(u)
      case Tunnel => (Log(u, ConnectSent(l.conn, l.cfg.host)), Pending(ProxyWrite))
  }

  function OnProxyWrite(l: Link, id: nat, net: Net): (Link, Progress) {
    if net.code != Ok then ConnectFail(Disarmed(l), id, Proxying, net.code)
    else (l, Pending(ProxyRead))
  }

  function OnProxyRead(l: Link, id: nat, net: Net): (Link, Progress)
    requires Plausible(l, net)
  {
    var u := l.(buffer := Filled(l, true, net.received)[net.consumed..]);
    if net.code != Ok then ConnectFail(Disarmed(u), id, Proxying, net.code)
    else if !net.welcome then ConnectFail(Disarmed(u), id, Proxying, Refused)
    else HandshakeBegin(Log(u, ProxyAccepted(l.conn)))
  }

  function OnHandshake(l: Link, id: nat, net: Net): (Link, Progress) {
    if net.code != Ok then ConnectFail(Disarmed(l), id, Greeting, net.code)
    else ConnectDone(l)
  }

  // ---------------------------------------------------------------- exchange

  /** `transport_op` entered for the first time; nothing is written when its guard fails. */
  function ExchangeBegin(l: Link, id: nat): (Link, Progress) {
    if !l.running then ExchangeRefuse(l, id)
    else (Log(l.(armed := true), Written(l.conn, l.gen, id)), Pending(ExWrite))
  }

  function ExchangeRefuse(l: Link, id: nat): (Link, Progress) {
    (Log(Disarmed(l), ExchangeRefused(l.conn, l.gen, id)), Exchanged(Aborted))
  }

  function ExchangeFail(l: Link, id: nat, code: Code): (Link, Progress) {
    (Log(Disarmed(l), ExchangeFailed(l.conn, l.gen, id, code)), Exchanged(code))
  }

  function OnExWrite(l: Link, id: nat, net: Net): (Link, Progress) {
    if net.code != Ok then ExchangeFail(l, id, net.code)
    else if !l.running then ExchangeRefuse(l, id)
    else (l, Pending(ExRead))
  }

  function OnExRead(l: Link, id: nat, net: Net): (Link, Progress)
    requires Plausible(l, net)
  {
    var all := Filled(l, false, net.received);
    var u := l.(buffer := all[net.consumed..]);
    if net.code != Ok then ExchangeFail(u, id, net.code)
    else if !l.running then ExchangeRefuse(u, id)
    else
      var body := all[..net.consumed];
      (Log(Disarmed(u.(responses := u.responses[id := body])), Answered(l.conn, l.gen, id, body)),
       Exchanged(Ok))
  }

  // ---------------------------------------------------------------- close

  /** `async_close` up to its first wait; closing an open socket without grace has none. */
  function CloseBegin(l: Link, graceful: bool): (Link, Progress) {
    var u := l.(running := false, armed := true);
    if !l.open then (u, Pending(ClosePosted))
    else if graceful then (u, Pending(Shutdown))
    else CloseDone(u, Ok)
  }

  /** Only the tunnel replaces its stream here. */
  function CloseDone(l: Link, code: Code): (Link, Progress) {
    var u := Disarmed(l);
    (if l.cfg.kind == Tunnel then Renewed(u) else u, Closed(code))
  }

  /** The socket is closed whatever the shutdown returned. */
  function OnShutdown(l: Link, net: Net): (Link, Progress) {
    CloseDone(l.(open := false), if l.cfg.kind == Tcp then Ok else ShutdownCode(net.code))
  }

  // ---------------------------------------------------------------- resumption

  function Continue(l: Link, w: Wait, id: nat, net: Net): (Link, Progress)
    requires Plausible(l, net)
  {
    match w
    case Resolve => OnResolve(l, id, net)
    case Dial => OnDial(l, id, net)
    case ProxyWrite => OnProxyWrite(l, id, net)
    case ProxyRead => OnProxyRead(l, id, net)
    case Handshake => OnHandshake(l, id, net)
    case ExWrite => OnExWrite(l, id, net)
    case ExRead => OnExRead(l, id, net)
    case Shutdown => OnShutdown(l, net)
    case ClosePosted => CloseDone(l, Ok)
  }

  /** An operation on a stream whose timer ran out reports the timeout instead. */
  function Deliver(l: Link, w: Wait, id: nat, net: Net): (Link, Progress)
    requires Plausible(l, net)
  {
    if w.OnStream(l.cfg.kind) && l.expired then
      Continue(l.(expired := false), w, id, net.(code := StreamTimeout))
    else Continue(l, w, id, net)
  }
}
