/** The JSON client of `pkg/http/http_client.go`. A request goes to `ServerUrl` joined
    with the endpoint, carries the account's token when there is an account, and its
    reply is read twice: first as the `{error, message}` envelope that decides between
    failure and success, then, on success, into the caller's response object. The
    server is a `Network` object that answers each request and records what was sent. */
module HttpClient {
  import opened Wrappers
  import opened JsonText
  import opened GoJson
  import opened Types
  import opened Errors

  const ServerUrl := "http://167.172.159.245:4005/api"
  const TokenHeader := "X-Auth-Token"
  const StatusOK := 200

  /** One part of a `multipart/form-data` body. */
  datatype Part =
    | FormField(name: string, value: string)
    | FormFile(field: string, fileName: string, content: string)

  datatype Body =
    | Bytes(text: string)
    | Form(boundary: string, parts: seq<Part>)

  datatype Request = Request(verb: string, url: string, headers: map<string, string>, body: Body)

  /** What becomes of a request: it is refused before it is sent, no response comes,
      the response's body cannot be read, or a status comes with the whole body. */
  datatype Outcome =
    | NotSent(error: Error)
    | NoResponse(reason: string)
    | Unreadable(reason: string)
    | Response(status: int, body: string)

  /** What a server can answer: only a request that was sent has an answer. */
  type Answer = o: Outcome | !o.NotSent? witness NoResponse("")

  /** The server: it answers every request by `respond`, and `sent` lists the requests
      it has received, in order. */
  class Network {
    const respond: Request -> Answer
    var sent: seq<Request>

    constructor (respond: Request -> Answer)
      ensures this.respond == respond && sent == []
    {
      this.respond := respond;
      sent := [];
    }

    method Send(r: Request) returns (o: Answer)
      modifies this
      ensures sent == old(sent) + [r]
      ensures o == respond(r)
    {
      sent := sent + [r];
      o := respond(r);
    }
  }

  /** The `payload interface{}` of `Do`: nil, or a Go value of a static type. */
  datatype Payload = NilPayload | JsonPayload(v: Value, shape: Shape)

  predicate Typed(p: Payload) {
    p.JsonPayload? ==> Conforms(p.v, p.shape)
  }

  /** `json.Marshal(payload)`. */
  function PayloadText(p: Payload): string
    requires Typed(p)
  {
    if p.NilPayload? then Serialize(Null) else Encode(p.v, p.shape)
  }

  /** A nil payload is sent as `null`; a typed one is read back as the same value. */
  lemma PayloadTextDecodes(p: Payload, cur: Value)
    requires Typed(p) && (p.JsonPayload? ==> WellFormed(p.shape) && Conforms(cur, p.shape))
    ensures p.NilPayload? ==> PayloadText(p) == "null"
    ensures p.JsonPayload? ==> Decode(p.shape, PayloadText(p), cur) == Success(p.v)
  {
    if p.JsonPayload? {
      DecodeEncode(p.v, p.shape, cur);
    }
  }

  /** The headers of a request made on behalf of `account`. */
  function AuthHeaders(account: Option<Account>): (h: map<string, string>)
    ensures TokenHeader in h <==> account.Some?
    ensures account.Some? ==> h[TokenHeader] == account.value.token
    ensures h.Keys <= {TokenHeader}
  {
    if account.Some? then map[TokenHeader := account.value.token] else map[]
  }

  /** The request `Do(endpoint, verb, payload, _)` sends. */
  function RequestFor(account: Option<Account>, endpoint: string, verb: string, payload: Payload): (r: Request)
    requires Typed(payload)
    ensures r.url == ServerUrl + endpoint && r.verb == verb
    ensures TokenHeader in r.headers <==> account.Some?
    ensures account.Some? ==> r.headers[TokenHeader] == account.value.token
    ensures r.body == Bytes(PayloadText(payload))
  {
    Request(verb, ServerUrl + endpoint, AuthHeaders(account), Bytes(PayloadText(payload)))
  }

  // What `url.Parse` refuses, as `http.NewRequest` calls it on `ServerUrl` joined
  // with an endpoint. The scheme and host come from `ServerUrl`; only these checks
  // can fail on what an endpoint adds.

  /** The bytes `net/url` refuses anywhere before the fragment. */
  predicate IsCtl(c: char) { c < ' ' || c == '\U{007F}' }

  /** The first `%` of `s` that is not followed by two hex digits, with at most the
      two characters after it: the escape `url.unescape` reports. Well-formed escapes
      are skipped whole. */
  function BadEscape(s: string): (r: Option<string>)
    ensures r.Some? ==> 1 <= |r.value| <= 3 && r.value[0] == '%'
    decreases |s|
  {
    if s == [] then None
    else if s[0] == '%' then
      if |s| < 3 || HexValue(s[1]).None? || HexValue(s[2]).None? then Some(if |s| < 3 then s else s[..3])
      else BadEscape(s[3..])
    else BadEscape(s[1..])
  }

  /** What precedes the first `c` in `s`, and what follows it, if `c` occurs. */
  function Cut(s: string, c: char): (r: (string, Option<string>))
    ensures r.1.None? ==> r.0 == s && c !in s
    ensures r.1.Some? ==> s == r.0 + [c] + r.1.value && c !in r.0
    decreases |s|
  {
    if s == [] then ("", None)
    else if s[0] == c then ("", Some(s[1..]))
    else
      var (a, b) := Cut(s[1..], c);
      assert s == [s[0]] + s[1..];
      ([s[0]] + a, b)
  }

  const CtlProblem := "net/url: invalid control character in URL"

  function EscapeProblem(e: string): string { "invalid URL escape " + GoQuote(e) }

  /** `s` holds no control character and no `%`. */
  predicate Plain(s: string) {
    forall i :: 0 <= i < |s| ==> !IsCtl(s[i]) && s[i] != '%'
  }

  predicate HasCtl(s: string) {
    exists i :: 0 <= i < |s| && IsCtl(s[i])
  }

  /** The error `http.NewRequest` returns for `url`, if any: the text before `#` may
      hold no control character and its path (before `?`) no bad escape; the text
      after `#`, the fragment, no bad escape either. The query is not checked. */
  function UrlError(url: string): Option<Error> {
    var cut := Cut(url, '#');
    var u := cut.0;
    var path := Cut(u, '?').0;
    if HasCtl(u) then Some(BadUrl(u, CtlProblem))
    else if BadEscape(path).Some? then Some(BadUrl(u, EscapeProblem(BadEscape(path).value)))
    else if cut.1.Some? && BadEscape(cut.1.value).Some? then Some(BadUrl(url, EscapeProblem(BadEscape(cut.1.value).value)))
    else None
  }

  /** `http.NewRequest` accepts the request's URL, so the request is sent. */
  predicate Accepted(r: Request) { UrlError(r.url).None? }

  /** What becomes of `r` when it is given to a server answering by `respond`. */
  function Attempt(r: Request, respond: Request -> Answer): Outcome {
    if Accepted(r) then respond(r) else NotSent(UrlError(r.url).value)
  }

  /** The requests the server receives when `r` is attempted. */
  function SentFor(r: Request): seq<Request> {
    if Accepted(r) then [r] else []
  }

  /** Text without a `%` has no bad escape. */
  lemma {:induction false} NoPercentNoBadEscape(s: string)
    requires forall i :: 0 <= i < |s| ==> s[i] != '%'
    ensures BadEscape(s).None?
    decreases |s|
  {
    if s != [] {
      NoPercentNoBadEscape(s[1..]);
    }
  }

  /** Well-formed escapes pass: after a `%` and two hex digits the check goes on with
      the rest. */
  lemma GoodEscapeSkipped(h1: char, h2: char, rest: string)
    requires HexValue(h1).Some? && HexValue(h2).Some?
    ensures BadEscape(['%', h1, h2] + rest) == BadEscape(rest)
  {
    assert (['%', h1, h2] + rest)[3..] == rest;
  }

  /** `Cut` splits a text made of a part without `c`, `c`, and the rest. */
  lemma {:induction false} CutAt(a: string, c: char, b: string)
    requires c !in a
    ensures Cut(a + [c] + b, c) == (a, Some(b))
    decreases |a|
  {
    if a == [] {
      assert a + [c] + b == [c] + b;
    } else {
      assert (a + [c] + b)[1..] == a[1..] + [c] + b;
      CutAt(a[1..], c, b);
      assert [a[0]] + a[1..] == a;
    }
  }

  /** The parts `Cut` gives of a plain text are plain. */
  lemma {:induction false} PlainCut(s: string, c: char)
    requires Plain(s)
    ensures Plain(Cut(s, c).0)
    ensures Cut(s, c).1.Some? ==> Plain(Cut(s, c).1.value)
  {
    var r := Cut(s, c);
    assert forall i :: 0 <= i < |r.0| ==> r.0[i] == s[i];
    if r.1.Some? {
      assert forall i :: 0 <= i < |r.1.value| ==> r.1.value[i] == s[|r.0| + 1 + i];
    }
  }

  /** A URL with no control character and no `%` is accepted. */
  lemma PlainUrlAccepted(url: string)
    requires Plain(url)
    ensures UrlError(url).None?
  {
    var cut := Cut(url, '#');
    PlainCut(url, '#');
    PlainCut(cut.0, '?');
    NoPercentNoBadEscape(Cut(cut.0, '?').0);
    if cut.1.Some? {
      NoPercentNoBadEscape(cut.1.value);
    }
  }

  lemma ServerUrlPlain()
    ensures Plain(ServerUrl)
  {
  }

  /** `ServerUrl` joined with an endpoint that holds no control character and no `%`
      is accepted; every constant endpoint of the client is such an endpoint. */
  lemma PlainEndpointAccepted(endpoint: string)
    requires Plain(endpoint)
    ensures UrlError(ServerUrl + endpoint).None?
  {
    ServerUrlPlain();
    var url := ServerUrl + endpoint;
    assert Plain(url) by {
      forall i | 0 <= i < |url|
        ensures !IsCtl(url[i]) && url[i] != '%'
      {
        if i >= |ServerUrl| {
          assert url[i] == endpoint[i - |ServerUrl|];
        }
      }
    }
    PlainUrlAccepted(url);
  }

  /** A control character before any `#` is refused, whatever else the URL holds,
      and the error names the URL up to the `#`. */
  lemma CtlRefused(a: string, c: char, b: string)
    requires IsCtl(c) && '#' !in a && c != '#'
    ensures var url := a + [c] + b;
      UrlError(url) == Some(BadUrl(Cut(url, '#').0, CtlProblem))
  {
    var url := a + [c] + b;
    var u := Cut(url, '#').0;
    assert HasCtl(u) by {
      CutKeepsPrefix(a + [c], b, '#');
      assert u[|a|] == c;
    }
  }

  /** Text without `c` stays whole at the front of what `Cut` keeps. */
  lemma {:induction false} CutKeepsPrefix(a: string, b: string, c: char)
    requires c !in a
    ensures |a| <= |Cut(a + b, c).0| && Cut(a + b, c).0[..|a|] == a
    decreases |a|
  {
    if a != [] {
      assert (a + b)[1..] == a[1..] + b;
      CutKeepsPrefix(a[1..], b, c);
    }
  }

  /** The envelope every reply is first read as. */
  const EnvelopeFields := [Field("error", BoolShape), Field("message", StringShape)]
  const EnvelopeShape := StructShape(EnvelopeFields)

  /** The error `Do` returned with the response object after the call. */
  datatype Reply = Reply(err: Option<Error>, value: Value)

  /** What `Do` makes of the transport's outcome, given the response object's type
      and its value before the call. */
  function Interpret(o: Outcome, shape: Shape, cur: Value): (r: Reply)
    requires Conforms(cur, shape)
    ensures Conforms(r.value, shape)
    ensures r.err.Some? ==> r.value == cur
  {
    match o
    case NotSent(e) => Reply(Some(e), cur)
    case NoResponse(reason) => Reply(Some(Transport(reason)), cur)
    case Unreadable(reason) => Reply(Some(Transport(reason)), cur)
    case Response(status, body) =>
      match Decode(EnvelopeShape, body, Zero(EnvelopeShape))
      case Failure(e) => Reply(Some(Malformed(e)), cur)
      case Success(envelope) =>
        if status != StatusOK || envelope.fields[0].b then Reply(Some(Server(envelope.fields[1].s)), cur)
        else
          match Decode(shape, body, cur)
          case Failure(e) => Reply(Some(Malformed(e)), cur)
          case Success(v) => Reply(None, v)
  }

  // How replies are interpreted.

  /** A refused URL or a transport failure is reported before anything is parsed,
      and the response object is left as it was. */
  lemma TransportFirst(o: Outcome, shape: Shape, cur: Value)
    requires Conforms(cur, shape)
    ensures o.NotSent? ==> Interpret(o, shape, cur) == Reply(Some(o.error), cur)
    ensures o.NoResponse? || o.Unreadable? ==> Interpret(o, shape, cur) == Reply(Some(Transport(o.reason)), cur)
  {
  }

  /** A body that is not an envelope is an error whatever the status, even 200. */
  lemma MalformedEnvelope(status: int, body: string, shape: Shape, cur: Value)
    requires Conforms(cur, shape)
    requires Decode(EnvelopeShape, body, Zero(EnvelopeShape)).Failure?
    ensures Interpret(Response(status, body), shape, cur) ==
      Reply(Some(Malformed(Decode(EnvelopeShape, body, Zero(EnvelopeShape)).error)), cur)
  {
  }

  /** A status other than 200, or the `error` flag set, is an error whose text is the
      envelope's message; either suffices on its own. */
  lemma RejectedReply(status: int, failed: bool, message: string, body: string, shape: Shape, cur: Value)
    requires Conforms(cur, shape)
    requires Decode(EnvelopeShape, body, Zero(EnvelopeShape)) == Success(StructVal([BoolVal(failed), StringVal(message)]))
    requires status != StatusOK || failed
    ensures Interpret(Response(status, body), shape, cur) == Reply(Some(Server(message)), cur)
    ensures Interpret(Response(status, body), shape, cur).err.value.Text() == message
  {
  }

  /** The call succeeds exactly when the status is 200, the envelope's flag is clear
      and the body reads into the response object; only then is the object filled,
      from the same body. */
  lemma AcceptedReply(o: Outcome, shape: Shape, cur: Value)
    requires Conforms(cur, shape)
    ensures Interpret(o, shape, cur).err.None? <==>
      && o.Response? && o.status == StatusOK
      && Decode(EnvelopeShape, o.body, Zero(EnvelopeShape)).Success?
      && !Decode(EnvelopeShape, o.body, Zero(EnvelopeShape)).value.fields[0].b
      && Decode(shape, o.body, cur).Success?
    ensures Interpret(o, shape, cur).err.None? ==>
      Interpret(o, shape, cur).value == Decode(shape, o.body, cur).value
  {
  }

  /** A server that answers with a struct whose first fields are the envelope: the
      reply is the envelope's verdict, and on success the caller's object holds the
      server's fields it knows about. */
  lemma ServerReply(status: int, vals: seq<Value>, sfs: seq<Field>, cfs: seq<Field>, cur: Value)
    requires Reads(sfs, EnvelopeFields) && Reads(sfs, cfs) && FieldsWellFormed(sfs)
    requires FieldsConform(vals, sfs) && Conforms(cur, StructShape(cfs))
    ensures Interpret(Response(status, Encode(StructVal(vals), StructShape(sfs))), StructShape(cfs), cur) ==
      if status == StatusOK && !vals[0].b then Reply(None, StructVal(vals[..|cfs|]))
      else Reply(Some(Server(vals[1].s)), cur)
  {
    var body := Encode(StructVal(vals), StructShape(sfs));
    DecodeReads(vals, sfs, EnvelopeFields, Zero(EnvelopeShape));
    DecodeReads(vals, sfs, cfs, cur);
    assert vals[..|EnvelopeFields|] == [vals[0], vals[1]];
  }

  /** `ServerReply` for a caller whose object has as many fields as the server sends,
      starting from the zero value. */
  lemma ServerReplyWhole(status: int, failed: bool, message: string, vals: seq<Value>, sfs: seq<Field>, cfs: seq<Field>)
    requires Reads(sfs, EnvelopeFields) && Reads(sfs, cfs) && FieldsWellFormed(sfs)
    requires FieldsConform(vals, sfs) && |cfs| == |vals| >= 2 && vals[0] == BoolVal(failed) && vals[1] == StringVal(message)
    ensures Interpret(Response(status, Encode(StructVal(vals), StructShape(sfs))), StructShape(cfs), Zero(StructShape(cfs))) ==
      if status == StatusOK && !failed then Reply(None, StructVal(vals))
      else Reply(Some(Server(message)), Zero(StructShape(cfs)))
  {
    ServerReply(status, vals, sfs, cfs, Zero(StructShape(cfs)));
    assert vals[..|cfs|] == vals;
  }

  /** What `DoRaw` makes of the outcome: the body itself on status 200. */
  function InterpretRaw(o: Outcome): (r: Result<string, Error>)
    ensures r.Success? <==> o.Response? && o.status == StatusOK
    ensures r.Success? ==> r.value == o.body
    ensures o.Response? && o.status != StatusOK ==> r == Failure(RawStatus(o.status))
  {
    match o
    case NotSent(e) => Failure(e)
    case NoResponse(reason) => Failure(Transport(reason))
    case Unreadable(reason) => Failure(Transport(reason))
    case Response(status, body) => if status == StatusOK then Success(body) else Failure(RawStatus(status))
  }

  /** A response object the caller owns and `Do` fills in place. */
  class Target {
    const shape: Shape
    var value: Value

    predicate Valid()
      reads this
    {
      Conforms(value, shape)
    }

    /** `&T{}`. */
    constructor (shape: Shape)
      ensures this.shape == shape && value == Zero(shape) && Valid()
    {
      this.shape := shape;
      value := Zero(shape);
    }
  }

  /** `NewHttpClient(account)`. */
  class Client {
    const account: Option<Account>
    const net: Network

    constructor (account: Option<Account>, net: Network)
      ensures this.account == account && this.net == net
    {
      this.account := account;
      this.net := net;
    }

    method Do(endpoint: string, verb: string, payload: Payload, response: Target) returns (err: Option<Error>)
      requires Typed(payload) && response.Valid()
      modifies net, response
      ensures net.sent == old(net.sent) + SentFor(RequestFor(account, endpoint, verb, payload))
      ensures Reply(err, response.value) ==
        Interpret(Attempt(RequestFor(account, endpoint, verb, payload), net.respond), response.shape, old(response.value))
      ensures response.Valid()
    {
      var url := ServerUrl + endpoint;
      var refused := UrlError(url);
      if refused.Some? {
        return refused;
      }
      var data := PayloadText(payload);
      var headers := map[];
      if account.Some? {
        headers := headers[TokenHeader := account.value.token];
      }
      var resp := net.Send(Request(verb, url, headers, Bytes(data)));
      if !resp.Response? {
        return Some(Transport(resp.reason));
      }
      var envelope := Decode(EnvelopeShape, resp.body, Zero(EnvelopeShape));
      if envelope.Failure? {
        return Some(Malformed(envelope.error));
      }
      if resp.status != StatusOK || envelope.value.fields[0].b {
        return Some(Server(envelope.value.fields[1].s));
      }
      var filled := Decode(response.shape, resp.body, response.value);
      if filled.Failure? {
        return Some(Malformed(filled.error));
      }
      response.value := filled.value;
      err := None;
    }

    method DoRaw(endpoint: string, verb: string) returns (r: Result<string, Error>)
      modifies net
      ensures net.sent == old(net.sent) + SentFor(RequestFor(account, endpoint, verb, NilPayload))
      ensures r == InterpretRaw(Attempt(RequestFor(account, endpoint, verb, NilPayload), net.respond))
    {
      var refused := UrlError(ServerUrl + endpoint);
      if refused.Some? {
        return Failure(refused.value);
      }
      var resp := net.Send(RequestFor(account, endpoint, verb, NilPayload));
      if !resp.Response? {
        return Failure(Transport(resp.reason));
      }
      if resp.status != StatusOK {
        return Failure(RawStatus(resp.status));
      }
      r := Success(resp.body);
    }
  }
}
