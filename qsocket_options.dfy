/**
 * Client configuration: where to connect, the heartbeat timeouts, the proxy
 * and the authorization token. Setters validate, assign and return the same
 * object for chaining; `BuildUrl` and `GetUrlHeader` derive the transport's
 * URL and handshake header from the fields.
 */
module Options {
  import opened Protocol

  const WS_SCHEME := "ws"
  const WSS_SCHEME := "wss"
  const WS_PORT: int32 := 4444
  const WSS_PORT: int32 := 4444
  const QSOCKET_DOMAIN := "qsocket.com"
  const DEFAULT_HOST := "10.3.1.181"
  const DEFAULT_ACTIVITY_TIMEOUT: int64 := 120000
  const DEFAULT_PONG_TIMEOUT: int64 := 30000
  const DEFAULT_AUTHORIZATION_TOKEN := "1234567890"

  /** The messages of the exceptions the setters throw. */
  const ACTIVITY_TIMEOUT_MESSAGE := "Activity timeout must be at least 1,000ms (and is recommended to be much higher)"
  const PONG_TIMEOUT_MESSAGE := "Pong timeout must be at least 1,000ms (and is recommended to be much higher)"
  const NULL_PROXY_MESSAGE := "proxy must not be null (instead use Proxy.NO_PROXY)"
  const NULL_AUTHORIZATION_TOKEN_MESSAGE := "authorizationToken must not be null"

  const AUTHORIZATION := "Authorization"
  const MIN_TIMEOUT: int64 := 1000

  /** A `java.net.Proxy` value; the model only needs to tell them apart. */
  datatype Proxy = NoProxy | ProxyTo(id: nat)

  /** The text Java's string concatenation and `%s` formatting produce for a possibly-null string. */
  function JavaText(s: Option<string>): string
  {
    match s
    case Some(t) => t
    case None => "null"
  }

  /* ---------- decimal integers, as `String.format("%s", int)` prints them ---------- */

  predicate IsDigit(c: char)
  {
    '0' <= c <= '9'
  }

  predicate AllDigits(s: string)
  {
    forall i :: 0 <= i < |s| ==> IsDigit(s[i])
  }

  function DigitChar(d: nat): (c: char)
    requires d < 10
    ensures IsDigit(c)
  {
    "0123456789"[d]
  }

  function NatToString(n: nat): (s: string)
    ensures s != [] && AllDigits(s)
  {
    if n < 10 then [DigitChar(n)] else NatToString(n / 10) + [DigitChar(n % 10)]
  }

  function IntToString(n: int): string
  {
    if n < 0 then "-" + NatToString(-n) else NatToString(n)
  }

  /** The value of a non-empty string of decimal digits. */
  function DigitsValue(s: string): nat
    requires s != [] && AllDigits(s)
  {
    var last := s[|s| - 1] as nat - '0' as nat;
    if |s| == 1 then last else DigitsValue(s[..|s| - 1]) * 10 + last
  }

  /** Reads an optionally negative decimal integer that fills the whole string. */
  function ParseInt(s: string): Option<int>
  {
    if s != [] && s[0] == '-' then
      if s[1..] != [] && AllDigits(s[1..]) then Some(0 - DigitsValue(s[1..])) else None
    else if s != [] && AllDigits(s) then Some(DigitsValue(s))
    else None
  }

  lemma {:induction false} DigitsValueOfNatToString(n: nat)
    ensures DigitsValue(NatToString(n)) == n
  {
    if n >= 10 {
      var s := NatToString(n);
      assert s[..|s| - 1] == NatToString(n / 10);
      DigitsValueOfNatToString(n / 10);
    }
  }

  lemma ParseIntOfNegative(digits: string)
    requires digits != [] && AllDigits(digits)
    ensures ParseInt("-" + digits) == Some(0 - DigitsValue(digits))
  {
    var s := "-" + digits;
    assert s[1..] == digits;
  }

  lemma ParseIntOfDigits(digits: string)
    requires digits != [] && AllDigits(digits)
    ensures ParseInt(digits) == Some(DigitsValue(digits))
  {
    assert IsDigit(digits[0]);
  }

  /** Printing an integer and reading it back gives the same integer. */
  lemma ParseIntOfIntToString(n: int)
    ensures ParseInt(IntToString(n)) == Some(n)
  {
    var digits := NatToString(if n < 0 then -n else n);
    DigitsValueOfNatToString(if n < 0 then -n else n);
    if n < 0 {
      assert IntToString(n) == "-" + digits;
      ParseIntOfNegative(digits);
    } else {
      assert IntToString(n) == digits;
      ParseIntOfDigits(digits);
    }
  }

  lemma IntToStringHasNoColon(n: int)
    ensures ':' !in IntToString(n)
  {
  }

  /* ---------- reading a URL back into its parts ---------- */

  function IndexOf(s: string, c: char): (r: Option<nat>)
    ensures r.Some? ==> r.value < |s| && s[r.value] == c
  {
    if s == [] then None
    else if s[0] == c then Some(0)
    else match IndexOf(s[1..], c)
      case Some(i) => Some(i + 1)
      case None => None
  }

  function LastIndexOf(s: string, c: char): (r: Option<nat>)
    ensures r.Some? ==> r.value < |s| && s[r.value] == c
  {
    if s == [] then None
    else if s[|s| - 1] == c then Some(|s| - 1)
    else LastIndexOf(s[..|s| - 1], c)
  }

  lemma {:induction false} IndexOfAfterFree(a: string, c: char, b: string)
    requires c !in a
    ensures IndexOf(a + [c] + b, c) == Some(|a|)
  {
    if a != [] {
      assert (a + [c] + b)[1..] == a[1..] + [c] + b;
      IndexOfAfterFree(a[1..], c, b);
    }
  }

  lemma {:induction false} LastIndexOfBeforeFree(a: string, c: char, b: string)
    requires c !in b
    ensures LastIndexOf(a + [c] + b, c) == Some(|a|)
  {
    if b != [] {
      assert (a + [c] + b)[..|a + [c] + b| - 1] == a + [c] + b[..|b| - 1];
      LastIndexOfBeforeFree(a, c, b[..|b| - 1]);
    }
  }

  /**
   * Splits `scheme://host:port` at the first colon (the scheme has none)
   * and at the last colon (the port has none), so hosts may contain colons.
   */
  function ParseUrl(u: string): Option<(string, string, int)>
  {
    var i :- IndexOf(u, ':');
    if u[i..] != [] && StartsWith(u[i..], "://") then
      var rest := u[i + 3..];
      var j :- LastIndexOf(rest, ':');
      var port :- ParseInt(rest[j + 1..]);
      Some((u[..i], rest[..j], port))
    else None
  }

  /** The URL format `scheme://host:port`. */
  function Url(scheme: string, host: string, port: int32): string
  {
    scheme + "://" + host + ":" + IntToString(port as int)
  }

  lemma UrlSplit(scheme: string, host: string, port: int32)
    ensures Url(scheme, host, port) == scheme + [':'] + ("//" + host + ":" + IntToString(port as int))
    ensures Url(scheme, host, port)[|scheme|..][..3] == "://"
    ensures Url(scheme, host, port)[|scheme| + 3..] == host + [':'] + IntToString(port as int)
  {
  }

  lemma ParseUrlOfUrl(scheme: string, host: string, port: int32)
    requires ':' !in scheme
    ensures ParseUrl(Url(scheme, host, port)) == Some((scheme, host, port as int))
  {
    var p := IntToString(port as int);
    var u := Url(scheme, host, port);
    UrlSplit(scheme, host, port);
    IndexOfAfterFree(scheme, ':', "//" + host + ":" + p);
    var rest := u[|scheme| + 3..];
    IntToStringHasNoColon(port as int);
    LastIndexOfBeforeFree(host, ':', p);
    assert rest[|host| + 1..] == p;
    assert rest[..|host|] == host;
    assert u[..|scheme|] == scheme;
    ParseIntOfIntToString(port as int);
  }

  class QSocketOptions {
    var host: string
    var wsPort: int32
    var wssPort: int32
    var encrypted: bool
    var activityTimeout: int64
    var pongTimeout: int64
    var proxy: Proxy
    var authorizationToken: string

    constructor ()
      ensures host == DEFAULT_HOST && wsPort == WS_PORT && wssPort == WSS_PORT && !encrypted
      ensures activityTimeout == DEFAULT_ACTIVITY_TIMEOUT && pongTimeout == DEFAULT_PONG_TIMEOUT
      ensures proxy == NoProxy && authorizationToken == DEFAULT_AUTHORIZATION_TOKEN
    {
      host := DEFAULT_HOST;
      wsPort := WS_PORT;
      wssPort := WSS_PORT;
      encrypted := false;
      activityTimeout := DEFAULT_ACTIVITY_TIMEOUT;
      pongTimeout := DEFAULT_PONG_TIMEOUT;
      proxy := NoProxy;
      authorizationToken := DEFAULT_AUTHORIZATION_TOKEN;
    }

    method SetEncrypted(encrypted: bool) returns (r: QSocketOptions)
      modifies this`encrypted
      ensures r == this && this.encrypted == encrypted
    {
      this.encrypted := encrypted;
      r := this;
    }

    /** A null host is stored as the text it formats to, the only way the field is ever read. */
    method SetHost(host: Option<string>) returns (r: QSocketOptions)
      modifies this`host
      ensures r == this && this.host == JavaText(host)
    {
      this.host := JavaText(host);
      r := this;
    }

    method SetWsPort(wsPort: int32) returns (r: QSocketOptions)
      modifies this`wsPort
      ensures r == this && this.wsPort == wsPort
    {
      this.wsPort := wsPort;
      r := this;
    }

    method SetWssPort(wssPort: int32) returns (r: QSocketOptions)
      modifies this`wssPort
      ensures r == this && this.wssPort == wssPort
    {
      this.wssPort := wssPort;
      r := this;
    }

    /** Points the options at a named cluster: its host name, with both ports back at their defaults. */
    method SetCluster(cluster: Option<string>) returns (r: QSocketOptions)
      modifies this`host, this`wsPort, this`wssPort
      ensures r == this
      ensures host == "ws-" + JavaText(cluster) + "." + QSOCKET_DOMAIN
      ensures wsPort == WS_PORT && wssPort == WSS_PORT
    {
      host := "ws-" + JavaText(cluster) + "." + QSOCKET_DOMAIN;
      wsPort := WS_PORT;
      wssPort := WSS_PORT;
      r := this;
    }

    method SetActivityTimeout(activityTimeout: int64) returns (r: Result<QSocketOptions>)
      modifies this`activityTimeout
      ensures r.Ok? <==> activityTimeout >= MIN_TIMEOUT
      ensures r.Ok? ==> r.value == this && this.activityTimeout == activityTimeout
      ensures r.Err? ==> r.failure == IllegalArgument(ACTIVITY_TIMEOUT_MESSAGE) && this.activityTimeout == old(this.activityTimeout)
    {
      if activityTimeout < MIN_TIMEOUT {
        return Err(IllegalArgument(ACTIVITY_TIMEOUT_MESSAGE));
      }
      this.activityTimeout := activityTimeout;
      r := Ok(this);
    }

    method SetPongTimeout(pongTimeout: int64) returns (r: Result<QSocketOptions>)
      modifies this`pongTimeout
      ensures r.Ok? <==> pongTimeout >= MIN_TIMEOUT
      ensures r.Ok? ==> r.value == this && this.pongTimeout == pongTimeout
      ensures r.Err? ==> r.failure == IllegalArgument(PONG_TIMEOUT_MESSAGE) && this.pongTimeout == old(this.pongTimeout)
    {
      if pongTimeout < MIN_TIMEOUT {
        return Err(IllegalArgument(PONG_TIMEOUT_MESSAGE));
      }
      this.pongTimeout := pongTimeout;
      r := Ok(this);
    }

    method SetProxy(proxy: Option<Proxy>) returns (r: Result<QSocketOptions>)
      modifies this`proxy
      ensures r.Ok? <==> proxy.Some?
      ensures r.Ok? ==> r.value == this && this.proxy == proxy.value
      ensures r.Err? ==> r.failure == IllegalArgument(NULL_PROXY_MESSAGE) && this.proxy == old(this.proxy)
    {
      if proxy.None? {
        return Err(IllegalArgument(NULL_PROXY_MESSAGE));
      }
      this.proxy := proxy.value;
      r := Ok(this);
    }

    method SetAuthorizationToken(authorizationToken: Option<string>) returns (r: Result<QSocketOptions>)
      modifies this`authorizationToken
      ensures r.Ok? <==> authorizationToken.Some?
      ensures r.Ok? ==> r.value == this && this.authorizationToken == authorizationToken.value
      ensures r.Err? ==> r.failure == IllegalArgument(NULL_AUTHORIZATION_TOKEN_MESSAGE) && this.authorizationToken == old(this.authorizationToken)
    {
      if authorizationToken.None? {
        return Err(IllegalArgument(NULL_AUTHORIZATION_TOKEN_MESSAGE));
      }
      this.authorizationToken := authorizationToken.value;
      r := Ok(this);
    }

    /** The scheme and port the encryption flag selects. */
    function Scheme(): string
      reads this
    {
      if encrypted then WSS_SCHEME else WS_SCHEME
    }

    function Port(): int32
      reads this
    {
      if encrypted then wssPort else wsPort
    }

    /**
     * `scheme://host:port`, read back unambiguously: the scheme is `wss`
     * exactly when encrypted, the port is the one for that scheme, and the
     * host comes back whole.
     */
    function BuildUrl(): (r: string)
      reads this
      ensures ParseUrl(r) == Some((if encrypted then "wss" else "ws", host,
                                   (if encrypted then wssPort else wsPort) as int))
    {
      ParseUrlOfUrl(Scheme(), host, Port());
      Url(Scheme(), host, Port())
    }

    /** A new map holding the authorization header and nothing else. */
    function GetUrlHeader(): (r: map<string, string>)
      reads this
      ensures r.Keys == {AUTHORIZATION} && r[AUTHORIZATION] == authorizationToken
    {
      map[AUTHORIZATION := authorizationToken]
    }
  }
}
