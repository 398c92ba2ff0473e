/** The fixed texts of the client's error messages, the decimal rendering of
    a status code that Java's string concatenation performs, and a parser
    that recovers the status code and the body from an endpoint error. */
module Messages {
  import opened Results

  const SSL_INIT_PREFIX: string := "Failed to init SSL context. "
  const SEND_PREFIX: string := "Failed to send the request to the endpoint. "
  const ENDPOINT_PREFIX: string := "Failed to get a success response " + "from the endpoint. Response Code: '"
  const ENDPOINT_INFIX: string := "'. Response Body: '"
  const ENDPOINT_SUFFIX: string := "'"
  const PUBLIC_KEY_PREFIX: string := "Failed to get the public key from Crypto API. "
  const PRIVATE_KEY_PREFIX: string := "Failed to get the private key from Crypto API. "

  predicate IsDigit(c: char) {
    '0' <= c <= '9'
  }

  predicate AllDigits(s: string) {
    forall i :: 0 <= i < |s| ==> IsDigit(s[i])
  }

  function DigitChar(d: nat): (c: char)
    requires d < 10
    ensures IsDigit(c) && c as int - '0' as int == d
  {
    ('0' as int + d) as char
  }

  function DigitValue(c: char): nat
    requires IsDigit(c)
  {
    c as int - '0' as int
  }

  /** Decimal text of a non-negative integer, as `"" + n` gives it in Java. */
  function Decimal(n: nat): (s: string)
    ensures |s| >= 1 && AllDigits(s)
  {
    if n < 10 then [DigitChar(n)] else Decimal(n / 10) + [DigitChar(n % 10)]
  }

  /** The number a run of decimal digits denotes (zero for the empty run). */
  function ParseDigits(s: string): nat
    requires AllDigits(s)
  {
    if s == [] then 0 else ParseDigits(s[..|s| - 1]) * 10 + DigitValue(s[|s| - 1])
  }

  lemma {:induction false} ParseDecimal(n: nat)
    ensures ParseDigits(Decimal(n)) == n
  {
    if n >= 10 {
      var s := Decimal(n);
      assert s[..|s| - 1] == Decimal(n / 10);
      ParseDecimal(n / 10);
    }
  }

  /** Number of leading decimal digits of `s`. */
  function DigitRun(s: string): (k: nat)
    ensures k <= |s| && AllDigits(s[..k])
    ensures k < |s| ==> !IsDigit(s[k])
  {
    if s == [] || !IsDigit(s[0]) then 0
    else
      var k := 1 + DigitRun(s[1..]);
      assert s[..k] == [s[0]] + s[1..][..k - 1];
      k
  }

  lemma {:induction false} DigitRunOfDigitsThenOther(d: string, x: string)
    requires AllDigits(d)
    requires x != [] && !IsDigit(x[0])
    ensures DigitRun(d + x) == |d|
  {
    if d != [] {
      assert (d + x)[1..] == d[1..] + x;
      DigitRunOfDigitsThenOther(d[1..], x);
    }
  }

  /** The error for a response whose status is not 200. */
  function EndpointError(status: nat, body: string): string {
    ENDPOINT_PREFIX + Decimal(status) + ENDPOINT_INFIX + body + ENDPOINT_SUFFIX
  }

  /** Reads the status code and the body back out of an endpoint error. */
  function ParseEndpointError(msg: string): Option<(nat, string)> {
    if !StartsWith(msg, ENDPOINT_PREFIX) then None
    else
      var rest := msg[|ENDPOINT_PREFIX|..];
      var k := DigitRun(rest);
      var tail := rest[k..];
      if k == 0 || !StartsWith(tail, ENDPOINT_INFIX) || |tail| <= |ENDPOINT_INFIX|
         || tail[|tail| - 1] != '\'' then None
      else Some((ParseDigits(rest[..k]), tail[|ENDPOINT_INFIX|..|tail| - 1]))
  }

  /** The endpoint error keeps the status code and the body verbatim:
      both can be read back from the message. */
  lemma EndpointErrorRoundTrip(status: nat, body: string)
    ensures ParseEndpointError(EndpointError(status, body)) == Some((status, body))
  {
    var d := Decimal(status);
    var msg := EndpointError(status, body);
    var x := ENDPOINT_INFIX + body + ENDPOINT_SUFFIX;
    assert msg == ENDPOINT_PREFIX + (d + x);
    assert StartsWith(msg, ENDPOINT_PREFIX);
    var rest := msg[|ENDPOINT_PREFIX|..];
    assert rest == d + x;
    DigitRunOfDigitsThenOther(d, x);
    assert rest[..|d|] == d;
    assert rest[|d|..] == x;
    assert x[..|ENDPOINT_INFIX|] == ENDPOINT_INFIX;
    assert x[|ENDPOINT_INFIX|..|x| - 1] == body;
    ParseDecimal(status);
  }

  /** The phase of the request a message reports, read from its prefix. */
  datatype Phase = SslInit | Transport | Endpoint | Unknown

  function PhaseOf(msg: string): Phase {
    if StartsWith(msg, SSL_INIT_PREFIX) then SslInit
    else if StartsWith(msg, SEND_PREFIX) then Transport
    else if StartsWith(msg, ENDPOINT_PREFIX) then Endpoint
    else Unknown
  }

  /** An endpoint error reports the endpoint phase. */
  lemma EndpointErrorPhase(status: nat, body: string)
    ensures PhaseOf(EndpointError(status, body)) == Endpoint
  {
    var rest := Decimal(status) + ENDPOINT_INFIX + body + ENDPOINT_SUFFIX;
    assert EndpointError(status, body) == ENDPOINT_PREFIX + rest;
    PhasesDistinct(rest);
  }

  /** The three prefixes the client puts on its errors are told apart. */
  lemma PhasesDistinct(m: string)
    ensures PhaseOf(SSL_INIT_PREFIX + m) == SslInit
    ensures PhaseOf(SEND_PREFIX + m) == Transport
    ensures PhaseOf(ENDPOINT_PREFIX + m) == Endpoint
  {
    assert (SSL_INIT_PREFIX + m)[..|SSL_INIT_PREFIX|] == SSL_INIT_PREFIX;
    assert (SEND_PREFIX + m)[..|SEND_PREFIX|] == SEND_PREFIX;
    assert (SEND_PREFIX + m)[10] != SSL_INIT_PREFIX[10];
    assert (ENDPOINT_PREFIX + m)[..|ENDPOINT_PREFIX|] == ENDPOINT_PREFIX;
    assert (ENDPOINT_PREFIX + m)[10] == 'g';
  }
}
