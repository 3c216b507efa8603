/**
 * Opening the streaming connection: the handshake request carries the token as
 * a bearer credential, and a failed dial is classified by the HTTP response
 * that came with it, if any. Also the filter the ping handler applies to the
 * error of its pong write.
 */
module Handshake {
  import opened Types

  /** The HTTP response to the websocket upgrade request: code and status line. */
  datatype Response = Response(statusCode: int, status: string)

  /** The request header: each name maps to its list of values. */
  type Header = map<string, seq<string>>

  /** What dialing returned: an error or none, and the handshake response if one arrived. */
  datatype DialResult = DialResult(err: Option<Error>, resp: Option<Response>)

  const StatusUnauthorized := 401
  const StatusForbidden := 403

  const AuthorizationKey := "Authorization"
  const BearerPrefix := "Bearer "
  const ConnectContext := "can't connect to "

  /** The header handed to the dialer: the token as a bearer credential, and nothing else. */
  function AuthHeader(token: string): (h: Header)
    ensures h.Keys == {AuthorizationKey}
    ensures |h[AuthorizationKey]| == 1
  {
    map[AuthorizationKey := [BearerPrefix + token]]
  }

  /** What a server reads out of the header: the token of a single bearer credential. */
  function BearerToken(h: Header): (r: Option<string>)
    ensures r.Some? ==> AuthorizationKey in h && h[AuthorizationKey] == [BearerPrefix + r.value]
  {
    if AuthorizationKey in h && |h[AuthorizationKey]| == 1 && BearerPrefix <= h[AuthorizationKey][0] then
      var credential := h[AuthorizationKey][0];
      assert credential == BearerPrefix + credential[|BearerPrefix|..];
      Some(credential[|BearerPrefix|..])
    else None
  }

  /** The server sees exactly the token the client holds. */
  lemma BearerTokenOfAuthHeader(token: string)
    ensures BearerToken(AuthHeader(token)) == Some(token)
  {
    var v := BearerPrefix + token;
    assert BearerPrefix <= v;
    assert v[|BearerPrefix|..] == token;
  }

  /**
   * The error of `connect` for a dial result. No error means the connection is
   * open. With a response, 403 and 401 become the two token errors; any other
   * status, or no response at all, keeps the dial error as the cause under a
   * context naming the URL (and the status line, when there is one).
   */
  function ConnectError(apiURL: string, d: DialResult): (r: Option<Error>)
    ensures r.None? <==> d.err.None?
    ensures r == Some(ErrForbidden) <==>
              d.err.Some? && d.resp.Some? && d.resp.value.statusCode == StatusForbidden
    ensures r == Some(ErrUnauthorized) <==>
              d.err.Some? && d.resp.Some? && d.resp.value.statusCode == StatusUnauthorized
    ensures r.Some? && r.value.Wrapped? ==>
              d.err.Some? && r.value.cause == d.err.value && ConnectContext + apiURL <= r.value.context
    ensures r.Some? && r.value.Wrapped? && d.resp.None? ==> r.value.context == ConnectContext + apiURL
    ensures r.Some? && r.value.Wrapped? && d.resp.Some? ==>
              r.value.context[|ConnectContext + apiURL|..] == " " + d.resp.value.status
    ensures r.Some? ==> r == Some(ErrForbidden) || r == Some(ErrUnauthorized) || r.value.Wrapped?
  {
    match d.err
    case None => None
    case Some(e) =>
      match d.resp
      case Some(resp) =>
        if resp.statusCode == StatusForbidden then Some(ErrForbidden)
        else if resp.statusCode == StatusUnauthorized then Some(ErrUnauthorized)
        else Some(Wrapped(ConnectContext + apiURL + " " + resp.status, e))
      case None => Some(Wrapped(ConnectContext + apiURL, e))
  }

  /**
   * `connect`: dial with the bearer header and classify the result. It fails
   * exactly when the dial does, and every failure other than the two token
   * errors keeps the dial's own error as its cause.
   */
  function Connect(apiURL: string, token: string, dial: Header -> DialResult): (r: Option<Error>)
    ensures r.None? <==> dial(AuthHeader(token)).err.None?
    ensures r.Some? && r.value.Wrapped? ==> Some(r.value.cause) == dial(AuthHeader(token)).err
    ensures r.Some? ==> r == Some(ErrForbidden) || r == Some(ErrUnauthorized) || r.value.Wrapped?
  {
    ConnectError(apiURL, dial(AuthHeader(token)))
  }

  /**
   * A server that accepts exactly one token and turns every other request away
   * with 403 Forbidden.
   */
  function TokenServer(valid: string): Header -> DialResult {
    h => if BearerToken(h) == Some(valid) then DialResult(None, Some(Response(101, "101 Switching Protocols")))
         else DialResult(Some(Opaque("websocket: bad handshake")), Some(Response(StatusForbidden, "403 Forbidden")))
  }

  /**
   * Against such a server the client connects exactly when it holds the right
   * token, and otherwise reports the invalid-token error.
   */
  lemma ConnectPresentsToken(apiURL: string, token: string, valid: string)
    ensures Connect(apiURL, token, TokenServer(valid)) == None <==> token == valid
    ensures token != valid ==> Connect(apiURL, token, TokenServer(valid)) == Some(ErrForbidden)
  {
    BearerTokenOfAuthHeader(token);
  }

  /**
   * Two failed dials to the same URL without a 401 or 403 give the same error
   * only when their causes and their responses' status lines agree.
   */
  lemma ConnectErrorDistinguishes(apiURL: string, d1: DialResult, d2: DialResult)
    requires d1.err.Some? && d2.err.Some?
    requires d1.resp.Some? ==> d1.resp.value.statusCode !in {StatusForbidden, StatusUnauthorized}
    requires d2.resp.Some? ==> d2.resp.value.statusCode !in {StatusForbidden, StatusUnauthorized}
    requires ConnectError(apiURL, d1) == ConnectError(apiURL, d2)
    ensures d1.err == d2.err
    ensures d1.resp.Some? <==> d2.resp.Some?
    ensures d1.resp.Some? && d2.resp.Some? ==> d1.resp.value.status == d2.resp.value.status
  {
    var c1, c2 := ConnectError(apiURL, d1).value.context, ConnectError(apiURL, d2).value.context;
    assert |c1| == |c2|;
    if d1.resp.Some? && d2.resp.Some? {
      assert c1[|ConnectContext + apiURL|..] == c2[|ConnectContext + apiURL|..];
      assert (" " + d1.resp.value.status)[1..] == d1.resp.value.status;
      assert (" " + d2.resp.value.status)[1..] == d2.resp.value.status;
    }
  }

  /**
   * The ping handler's answer to the error of its pong write: a write after
   * the close frame, or a temporary network error, is not reported; every
   * other error is returned unchanged.
   */
  function PongWriteError(err: Option<Error>): (r: Option<Error>)
    ensures r.None? || r == err
    ensures r.None? <==>
              err.None? || err == Some(ErrCloseSent) || (err.Some? && err.value.NetError? && err.value.temporary)
  {
    match err
    case None => None
    case Some(e) =>
      if e == ErrCloseSent then None
      else if e.NetError? && e.temporary then None
      else err
  }
}
