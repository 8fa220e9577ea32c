/** `apiRequest`: the request it sends (headers merged over a JSON content type)
    and how its promise settles once the response has arrived. The network
    call itself is not modelled: the exchange's outcome is an input. */
module Api {
  import opened Wrappers
  import opened Js

  const ContentType := "Content-Type"
  const Json := "application/json"
  const Authorization := "Authorization"
  /** The error body substituted when an error response is not JSON. */
  const RequestFailed := "Request failed"

  type Headers = map<string, string>

  /** What `fetch` is called with; the base URL in front of `endpoint` is left out. */
  datatype Request = Request(endpoint: string, verb: string, headers: Headers, body: Option<JsonValue>)

  /** The body of a response as `response.json()` sees it. */
  datatype Body = Parsed(value: JsonValue) | Unparsable(syntaxError: string)

  datatype Response = Response(ok: bool, status: nat, body: Body)

  /** How the network call ended: a response, or a rejected `fetch`. */
  datatype Exchange = Received(response: Response) | TransportFailed(reason: string)

  /** `{"Content-Type": "application/json", ...options.headers}`: the caller's
      headers win, the JSON content type fills in when the caller has none. */
  function MergeHeaders(caller: Headers): (h: Headers)
    ensures h.Keys == caller.Keys + {ContentType}
    ensures forall k :: k in caller ==> h[k] == caller[k]
    ensures ContentType !in caller ==> h[ContentType] == Json
  {
    map[ContentType := Json] + caller
  }

  /** The request `apiRequest(endpoint, {method: verb, headers, body})` sends. */
  function Send(endpoint: string, verb: string, caller: Headers, body: Option<JsonValue>): (r: Request)
    ensures r.endpoint == endpoint && r.verb == verb && r.body == body
    ensures r.headers == MergeHeaders(caller)
  {
    Request(endpoint, verb, MergeHeaders(caller), body)
  }

  /** The value of the Authorization header, `Bearer ${token}`. */
  function Bearer(token: string): string {
    "Bearer " + token
  }

  /** The text a template literal makes of `string | null`. */
  function TokenText(token: Option<string>): string {
    if token.Some? then token.value else "null"
  }

  /** A character of b64token in section 2.1 of RFC 6750. */
  predicate IsB64Char(c: char) {
    'a' <= c <= 'z' || 'A' <= c <= 'Z' || '0' <= c <= '9'
    || c == '-' || c == '.' || c == '_' || c == '~' || c == '+' || c == '/'
  }

  /** b64token = 1*( ALPHA / DIGIT / "-" / "." / "_" / "~" / "+" / "/" ) *"=" */
  predicate IsB64Token(t: string) {
    exists k :: 0 < k <= |t| && B64Body(t, k)
  }

  predicate B64Body(t: string, k: int)
    requires 0 < k <= |t|
  {
    (forall i :: 0 <= i < k ==> IsB64Char(t[i])) && (forall i :: k <= i < |t| ==> t[i] == '=')
  }

  /** Drops the run of spaces after the scheme (the `1*SP` of section 2.1 of RFC 6750). */
  function SkipSpaces(s: string): (r: string)
    ensures |r| <= |s| && r == s[|s| - |r|..]
    ensures r == [] || r[0] != ' '
  {
    if s != [] && s[0] == ' ' then SkipSpaces(s[1..]) else s
  }

  /** How a resource server reads `credentials = "Bearer" 1*SP b64token`. */
  function ParseBearer(h: string): (r: Option<string>)
    ensures r.Some? ==> IsB64Token(r.value)
  {
    if |h| > 6 && h[..6] == "Bearer" && h[6] == ' ' then
      var t := SkipSpaces(h[6..]);
      if IsB64Token(t) then Some(t) else None
    else None
  }

  /** A b64token sent by the client is recovered exactly by the server. */
  lemma {:induction false} BearerRoundTrip(token: string)
    requires IsB64Token(token)
    ensures ParseBearer(Bearer(token)) == Some(token)
  {
    var k :| 0 < k <= |token| && B64Body(token, k);
    assert token[0] != ' ' by { assert IsB64Char(token[0]); }
    var h := Bearer(token);
    assert h[..6] == "Bearer" && h[6] == ' ';
    var rest := h[6..];
    assert rest[1..] == token;
    assert SkipSpaces(token) == token;
    assert SkipSpaces(rest) == token;
  }

  /** A header `Bearer null`, sent when there is no token, names no bearer token
      the client holds: the server reads it as the literal token "null". */
  lemma NullTokenHeader()
    ensures ParseBearer(Bearer(TokenText(None))) == Some("null")
  {
    assert B64Body("null", 4);
    BearerRoundTrip("null");
  }

  /** The error object `apiRequest` reads `msg` from on a failed response. */
  function ErrorBody(b: Body): JsonValue {
    match b
    case Parsed(v) => v
    case Unparsable(_) => JObj(map["msg" := JStr(RequestFailed)])
  }

  /** The message the thrown `Error` carries on a failed response:
      `error.msg || "HTTP " + status`, or the TypeError of reading `msg` of null. */
  function FailureMessage(r: Response): (m: string)
    requires !r.ok
    ensures |m| > 0
    ensures r.body.Unparsable? ==> m == RequestFailed
  {
    match Get(ErrorBody(r.body), "msg")
    case Err(e) => e.message
    case Ok(msg) =>
      if msg.Some? && Truthy(msg.value) then ToJsString(msg.value)
      else "HTTP " + NatToDecimal(r.status)
  }

  /** How the promise of `apiRequest` settles for a given exchange. */
  function Settle(x: Exchange): (r: Result<JsonValue, Thrown>)
    ensures r.Ok? <==> x.Received? && x.response.ok && x.response.body.Parsed?
    ensures r.Ok? ==> r.value == x.response.body.value
    ensures r.Err? ==> r.error.Error?
    ensures x.TransportFailed? ==> r == Err(Error(x.reason))
    ensures x.Received? && x.response.ok && x.response.body.Unparsable?
      ==> r == Err(Error(x.response.body.syntaxError))
    ensures x.Received? && !x.response.ok ==> r == Err(Error(FailureMessage(x.response)))
  {
    match x
    case TransportFailed(reason) => Err(Error(reason))
    case Received(resp) =>
      if resp.ok then
        match resp.body
        case Parsed(v) => Ok(v)
        case Unparsable(m) => Err(Error(m))
      else Err(Error(FailureMessage(resp)))
  }

  /** A parsed error body, not `null`, that carries no truthy `msg`. */
  predicate NoServerMessage(b: Body) {
    b.Parsed? && b.value != JNull
    && !(b.value.JObj? && "msg" in b.value.fields && Truthy(b.value.fields["msg"]))
  }

  /** The four ways a failed response is explained: an unparsable body gives
      "Request failed"; a body with a truthy `msg` gives that `msg`; a `null`
      body gives the TypeError; any other body gives "HTTP " and the status. */
  lemma FailureMessageCases(r: Response)
    requires !r.ok
    ensures r.body.Unparsable? ==> FailureMessage(r) == RequestFailed
    ensures r.body.Parsed? && r.body.value.JObj? && "msg" in r.body.value.fields
              && Truthy(r.body.value.fields["msg"])
      ==> FailureMessage(r) == ToJsString(r.body.value.fields["msg"])
    ensures r.body == Parsed(JNull) ==> FailureMessage(r) == NullReadMessage("msg")
    ensures NoServerMessage(r.body) ==> FailureMessage(r) == "HTTP " + NatToDecimal(r.status)
  {
    if r.body.Unparsable? {
      assert ErrorBody(r.body).fields["msg"] == JStr(RequestFailed);
    }
  }

  /** A failed response never settles silently: its message is never empty, so
      the client always has something to show. */
  lemma FailureMessageNonEmpty(r: Response)
    requires !r.ok
    ensures |FailureMessage(r)| > 0
  {
  }

  /** When a parsed error body gives no message, the status can be read back
      from the text: two statuses never produce the same fallback message.
      (An unparsable body gives "Request failed" whatever the status.) */
  lemma StatusFallbackInjective(a: Response, b: Response)
    requires !a.ok && !b.ok
    requires NoServerMessage(a.body) && NoServerMessage(b.body)
    requires FailureMessage(a) == FailureMessage(b)
    ensures a.status == b.status
  {
    FailureMessageCases(a);
    FailureMessageCases(b);
    var pa, pb := NatToDecimal(a.status), NatToDecimal(b.status);
    assert FailureMessage(a) == "HTTP " + pa;
    assert FailureMessage(b) == "HTTP " + pb;
    assert pa == ("HTTP " + pa)[5..];
    assert pb == ("HTTP " + pb)[5..];
    DecimalInjective(a.status, b.status);
  }
}
