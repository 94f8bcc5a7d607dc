/** Endpoints, how they are compared, and the host they print. */
module Endpoints {

  type Port = n: nat | n < 0x1_0000

  datatype Endpoint = Endpoint(domain: string, port: Port)

  /** What a session is opened for; the constructor stands for the session's type. */
  datatype Destination =
    | Plain(at: Endpoint)
    | Secure(at: Endpoint)
    | Through(proxy: Endpoint, target: Endpoint)

  /** The comparison of two basic endpoints of the same type. */
  predicate SameEndpoint(a: Endpoint, b: Endpoint) {
    a.port == b.port && a.domain == b.domain
  }

  /** A session is only ever compared with an endpoint of its own type. */
  predicate SameDestination(a: Destination, b: Destination) {
    match (a, b)
    case (Plain(x), Plain(y)) => SameEndpoint(x, y)
    case (Secure(x), Secure(y)) => SameEndpoint(x, y)
    case (Through(p, t), Through(q, u)) => SameEndpoint(p, q) && SameEndpoint(t, u)
    case _ => false
  }

  function Digit(d: nat): char
    requires d < 10
  {
    '0' + d as char
  }

  /** `std::to_string` of an unsigned number. */
  function Decimal(n: nat): (s: string)
    ensures s != []
  {
    if n < 10 then [Digit(n)] else Decimal(n / 10) + [Digit(n % 10)]
  }

  function Host(e: Endpoint): string {
    e.domain + ":" + Decimal(e.port)
  }

  /** The number that a string of digits stands for. */
  function Value(s: string): nat
    requires forall i | 0 <= i < |s| :: '0' <= s[i] <= '9'
  {
    if s == [] then 0 else 10 * Value(s[..|s| - 1]) + (s[|s| - 1] - '0') as nat
  }

  /** Reading the digits back gives the number, and there is nothing but digits. */
  lemma {:induction false} DecimalValue(n: nat)
    ensures forall i | 0 <= i < |Decimal(n)| :: '0' <= Decimal(n)[i] <= '9'
    ensures Value(Decimal(n)) == n
  {
    if n < 10 {
      assert Decimal(n)[..0] == [];
    } else {
      DecimalValue(n / 10);
      var s := Decimal(n);
      assert s[..|s| - 1] == Decimal(n / 10);
    }
  }

  /** The last colon of a string determines what stands before and after it. */
  lemma ColonAt(a: string, x: string, b: string, y: string)
    requires |a| + |x| == |b| + |y| && |x| < |y| && ':' !in y
    ensures a + ":" + x != b + ":" + y
  {
    assert (a + ":" + x)[|a|] == ':';
    assert (b + ":" + y)[|a|] == y[|a| - |b| - 1];
  }

  lemma SplitAtLastColon(a: string, x: string, b: string, y: string)
    requires a + ":" + x == b + ":" + y
    requires ':' !in x && ':' !in y
    ensures a == b && x == y
  {
    var s, t := a + ":" + x, b + ":" + y;
    assert |s| == |t|;
    assert |x| == |y| by {
      if |x| < |y| {
        ColonAt(a, x, b, y);
      }
      if |y| < |x| {
        ColonAt(b, y, a, x);
      }
    }
    assert s[..|a|] == a && t[..|b|] == b;
    assert s[|a| + 1..] == x && t[|b| + 1..] == y;
  }

  /** What is printed: the domain, the last colon, and the digits of the port. */
  lemma HostReads(e: Endpoint)
    ensures var n := |e.domain|;
            && n < |Host(e)| && Host(e)[..n] == e.domain && Host(e)[n] == ':' && ':' !in Host(e)[n + 1..]
            && (forall k | n < k < |Host(e)| :: '0' <= Host(e)[k] <= '9')
            && Value(Host(e)[n + 1..]) == e.port
  {
    DecimalValue(e.port);
    assert Host(e)[|e.domain| + 1..] == Decimal(e.port);
  }

  /** Two endpoints print the same host exactly when they compare equal, whatever colons the
      domains contain. */
  lemma HostIsInjective(a: Endpoint, b: Endpoint)
    ensures Host(a) == Host(b) <==> SameEndpoint(a, b)
  {
    if Host(a) == Host(b) {
      DecimalValue(a.port);
      DecimalValue(b.port);
      SplitAtLastColon(a.domain, Decimal(a.port), b.domain, Decimal(b.port));
    }
  }

  /** So the comparisons of the library are equality of destinations. */
  lemma SameIsEqual(a: Destination, b: Destination)
    ensures SameDestination(a, b) <==> a == b
  {
  }
}
