/**
 * The request handler of the local chat-completion proxy:
 * `POST /provider/{provider}/chat/completions`.
 *
 * The handler looks the provider up, assembles the outgoing headers
 * (content type, and a bearer credential when the provider's token source
 * yields a non-empty token), overwrites the `model` member of a JSON
 * object body with the provider's configured model, forwards the request
 * once and relays the upstream answer. A transport failure becomes the
 * fixed 502 answer of the registered `httpx.RequestError` handler.
 *
 * The collaborators the handler calls into are inputs here: the token the
 * provider's token source returns (or its failure), what the JSON decoder
 * makes of the body, and what the upstream call returns (or how it fails).
 */
module ProxyApp {
  import opened PyDict

  newtype byte = x: int | 0 <= x < 256

  /**
   * A JSON value as the decoder returns it. A number is the decoder's int or
   * float value, not its literal text: `json.dumps` renders it afresh. Nested
   * objects are dicts too, but nothing here depends on their keys being
   * distinct, so only the top-level object carries that invariant.
   */
  datatype Json =
    | Null
    | Bool(b: bool)
    | Number(value: real)
    | Str(s: string)
    | Array(items: seq<Json>)
    | Object(members: Entries<Json>)

  /** A decoded JSON object: a dict, so its keys are distinct. */
  type JsonObject = d: Entries<Json> | DistinctKeys(d) witness []

  /** A configured provider; `endpoint` is the URL already rendered as a string. */
  datatype ProviderCfg = ProviderCfg(endpoint: string, model: string)

  /** What `cfg.token_provider.get_token()` does: return a token or None, or raise. */
  datatype TokenResult = Issued(token: Option<string>) | CredentialFailed

  /** What `json.loads(body_bytes.decode("utf-8"))` does with a non-empty body. */
  datatype ParseResult =
    | ParsedObject(obj: JsonObject)  // a JSON object: a dict
    | ParsedNonObject                // valid JSON that is an array, string, number, boolean or null
    | NotJson                        // raises json.JSONDecodeError
    | BadUtf8                        // raises UnicodeDecodeError
    | DecoderRaised                  // raises anything else, e.g. ValueError for an over-long
                                     // integer literal, RecursionError for deep nesting

  /** The bytes handed to the forwarder: the inbound bytes, or `json.dumps(obj).encode("utf-8")`. */
  datatype Payload = Raw(bytes: seq<byte>) | Dumped(obj: JsonObject)

  /** One call of `Forwarder.forward(endpoint, body, headers)`. */
  datatype ForwardCall = ForwardCall(endpoint: string, body: Payload, headers: Entries<string>)

  /** `dict(upstream.headers)`: header names in lower case, each once. */
  type HeaderDict = d: Entries<string> | DistinctKeys(d) witness []

  /** An upstream HTTP answer. */
  datatype Upstream = Upstream(status: int, headers: HeaderDict, content: seq<byte>)

  /** What the forward call does: return the upstream answer, or raise `httpx.RequestError`. */
  datatype ForwardOutcome = Received(answer: Upstream) | TransportError(detail: string)

  /** The exceptions that can leave the handler. */
  datatype Failure =
    | RequestError(detail: string)  // httpx.RequestError from the forward call
    | CredentialError               // whatever get_token() raises
    | UnicodeDecodeError            // a non-UTF-8 body
    | TypeError                     // `body_json["model"] = ...` on a non-object
    | DecoderError                  // any other exception of the JSON decoder

  datatype Result<T> = Ok(value: T) | Err(failure: Failure)

  /** A response object: status, explicit headers, media type and content bytes. */
  datatype Response = Response(status: int, headers: Entries<string>, mediaType: Option<string>, content: seq<byte>)

  /** How the handler ends: with a response, or by raising. */
  datatype HandlerResult = Returned(response: Response) | Raised(failure: Failure)

  /** What the application sends once its exception handlers have run. */
  datatype Served = Sent(response: Response) | Unhandled(failure: Failure)

  /** A run of the handler: how it ended, whether it asked for a token, what it forwarded. */
  datatype Run = Run(result: HandlerResult, tokenRequested: bool, forwarded: seq<ForwardCall>)

  const JsonMediaType := "application/json"
  const ContentTypeHeader := "Content-Type"
  const AuthorizationHeader := "Authorization"
  const BearerPrefix := "Bearer "
  const ModelKey := "model"
  const UnknownProviderBody := "{\"error\": \"Unknown provider\"}"
  const UpstreamFailureBody := "{\"error\": \"Upstream failure\"}"

  /** The UTF-8 encoding of an ASCII string: one byte per character. */
  function Ascii(s: string): (b: seq<byte>)
    requires forall i :: 0 <= i < |s| ==> s[i] as int < 128
    ensures |b| == |s|
    ensures forall i :: 0 <= i < |s| ==> b[i] as int == s[i] as int
  {
    seq(|s|, i requires 0 <= i < |s| => s[i] as int as byte)
  }

  /** The content bytes of the two fixed error answers. */
  const UnknownProviderContent: seq<byte> := Ascii(UnknownProviderBody)
  const UpstreamFailureContent: seq<byte> := Ascii(UpstreamFailureBody)

  /** Python truthiness of an optional string: present and non-empty. */
  predicate Truthy(token: Option<string>) {
    token.Some? && token.value != ""
  }

  /** The 404 answer for a provider name that is not configured. */
  function UnknownProvider(): Response {
    Response(404, [], Some(JsonMediaType), UnknownProviderContent)
  }

  /** `_httpx_error`: the answer to any `httpx.RequestError`, whatever it carries. */
  function HttpxError(exc: Failure): Response
    requires exc.RequestError?
  {
    Response(502, [], Some(JsonMediaType), UpstreamFailureContent)
  }

  /**
   * `out_headers` as the handler leaves it: `Content-Type` set first, then
   * `Authorization` only for a truthy token.
   */
  function OutgoingHeaders(token: Option<string>): (h: Entries<string>)
    ensures DistinctKeys(h)
    ensures Get(h, ContentTypeHeader) == Some(JsonMediaType)
    ensures forall k :: k in KeysOf(h) ==> k == ContentTypeHeader || k == AuthorizationHeader
    ensures Get(h, AuthorizationHeader).Some? <==> Truthy(token)
    ensures Truthy(token) ==> Get(h, AuthorizationHeader) == Some(BearerPrefix + token.value)
    ensures Get(h, AuthorizationHeader) != Some(BearerPrefix)
  {
    var h := Assign([], ContentTypeHeader, JsonMediaType);
    if Truthy(token) then Assign(h, AuthorizationHeader, BearerPrefix + token.value) else h
  }

  /**
   * The body the handler forwards, or the exception the rewrite raises.
   * Only a JSON object is rewritten; an empty body and a body that is not
   * JSON go out as they came in.
   */
  function RewriteBody(bodyBytes: seq<byte>, parsed: ParseResult, model: string): (r: Result<Payload>)
    ensures bodyBytes == [] ==> r == Ok(Raw(bodyBytes))
    ensures bodyBytes != [] && parsed.NotJson? ==> r == Ok(Raw(bodyBytes))
    ensures bodyBytes != [] && parsed.BadUtf8? ==> r == Err(UnicodeDecodeError)
    ensures bodyBytes != [] && parsed.ParsedNonObject? ==> r == Err(TypeError)
    ensures bodyBytes != [] && parsed.DecoderRaised? ==> r == Err(DecoderError)
    ensures bodyBytes != [] && parsed.ParsedObject? ==>
      && r.Ok? && r.value.Dumped?
      && Get(r.value.obj, ModelKey) == Some(Str(model))
      && KeysOf(parsed.obj) <= KeysOf(r.value.obj)
  {
    if bodyBytes == [] then Ok(Raw(bodyBytes))
    else match parsed
      case ParsedObject(obj) =>
        AssignKeepsDistinct(obj, ModelKey, Str(model));
        Ok(Dumped(Assign(obj, ModelKey, Str(model))))
      case ParsedNonObject => Err(TypeError)
      case NotJson => Ok(Raw(bodyBytes))
      case BadUtf8 => Err(UnicodeDecodeError)
      case DecoderRaised => Err(DecoderError)
  }

  /** The handler's answer to what the forward call did. */
  function Relay(outcome: ForwardOutcome): HandlerResult {
    match outcome
    case Received(u) => Returned(Response(u.status, u.headers, Get(u.headers, "content-type"), u.content))
    case TransportError(detail) => Raised(RequestError(detail))
  }

  /** `chat_proxy`, as a function of its inputs and of what its collaborators return. */
  function Handle(providers: map<string, ProviderCfg>, name: string, token: TokenResult,
                  bodyBytes: seq<byte>, parsed: ParseResult, outcome: ForwardOutcome): Run
  {
    if name !in providers then Run(Returned(UnknownProvider()), false, [])
    else
      var cfg := providers[name];
      match token
      case CredentialFailed => Run(Raised(CredentialError), true, [])
      case Issued(t) =>
        match RewriteBody(bodyBytes, parsed, cfg.model)
        case Err(f) => Run(Raised(f), true, [])
        case Ok(body) => Run(Relay(outcome), true, [ForwardCall(cfg.endpoint, body, OutgoingHeaders(t))])
  }

  /** The application's exception handling: `httpx.RequestError` goes to `_httpx_error`. */
  function Dispatch(r: HandlerResult): Served {
    match r
    case Returned(resp) => Sent(resp)
    case Raised(f) => if f.RequestError? then Sent(HttpxError(f)) else Unhandled(f)
  }

  /**
   * The body step of `chat_proxy`: decode, assign `model` in place and
   * re-encode a JSON object; keep the inbound bytes when the body is empty
   * or not JSON; let every other exception escape.
   */
  method RewriteRequestBody(bodyBytes: seq<byte>, parsed: ParseResult, model: string)
    returns (r: Result<Payload>)
    ensures r == RewriteBody(bodyBytes, parsed, model)
  {
    if bodyBytes == [] {
      return Ok(Raw(bodyBytes));
    }
    match parsed
    case ParsedObject(obj) =>
      var bodyJson: JsonObject := obj;
      AssignKeepsDistinct(bodyJson, ModelKey, Str(model));
      bodyJson := Assign(bodyJson, ModelKey, Str(model));
      r := Ok(Dumped(bodyJson));
    case ParsedNonObject =>
      r := Err(TypeError);
    case NotJson =>
      r := Ok(Raw(bodyBytes));
    case BadUtf8 =>
      r := Err(UnicodeDecodeError);
    case DecoderRaised =>
      r := Err(DecoderError);
  }

  /**
   * The application state set up at startup: the provider map, and the
   * ghost record of what the handler asked of its collaborators.
   */
  class App {
    const providers: map<string, ProviderCfg>
    ghost var tokenRequests: seq<string>
    ghost var forwards: seq<ForwardCall>

    /** `_startup`, with the loaded configuration passed in. */
    constructor Startup(loaded: map<string, ProviderCfg>)
      ensures providers == loaded
      ensures tokenRequests == [] && forwards == []
    {
      providers := loaded;
      tokenRequests := [];
      forwards := [];
    }

    /** `chat_proxy`. */
    method ChatProxy(provider: string, token: TokenResult, bodyBytes: seq<byte>,
                     parsed: ParseResult, outcome: ForwardOutcome) returns (r: HandlerResult)
      modifies this
      ensures var run := Handle(providers, provider, token, bodyBytes, parsed, outcome);
        && r == run.result
        && tokenRequests == old(tokenRequests) + (if run.tokenRequested then [provider] else [])
        && forwards == old(forwards) + run.forwarded
    {
      if provider !in providers {
        return Returned(UnknownProvider());
      }
      var cfg := providers[provider];
      var endpoint := cfg.endpoint;

      var outHeaders: Entries<string> := [];
      outHeaders := Assign(outHeaders, ContentTypeHeader, JsonMediaType);

      tokenRequests := tokenRequests + [provider];
      if token.CredentialFailed? {
        return Raised(CredentialError);
      }
      if Truthy(token.token) {
        outHeaders := Assign(outHeaders, AuthorizationHeader, BearerPrefix + token.token.value);
      }
      assert outHeaders == OutgoingHeaders(token.token);
      var rewritten := RewriteRequestBody(bodyBytes, parsed, cfg.model);
      if rewritten.Err? {
        return Raised(rewritten.failure);
      }
      var body := rewritten.value;

      forwards := forwards + [ForwardCall(endpoint, body, outHeaders)];
      match outcome
      case TransportError(detail) =>
        r := Raised(RequestError(detail));
      case Received(upstream) =>
        r := Returned(Response(upstream.status, upstream.headers,
                               Get(upstream.headers, "content-type"), upstream.content));
    }
  }

  // ---------------------------------------------------------------------
  // Properties of the handler
  // ---------------------------------------------------------------------

  /** An unknown provider gets the fixed 404; no token is requested, nothing is forwarded. */
  lemma UnknownProviderIs404(providers: map<string, ProviderCfg>, name: string, token: TokenResult,
                             bodyBytes: seq<byte>, parsed: ParseResult, outcome: ForwardOutcome)
    requires name !in providers
    ensures var run := Handle(providers, name, token, bodyBytes, parsed, outcome);
      && Dispatch(run.result) == Sent(Response(404, [], Some("application/json"),
                                                UnknownProviderContent))
      && !run.tokenRequested
      && run.forwarded == []
  {
  }

  /** The handler forwards at most once, and only for a configured provider. */
  lemma AtMostOneForward(providers: map<string, ProviderCfg>, name: string, token: TokenResult,
                         bodyBytes: seq<byte>, parsed: ParseResult, outcome: ForwardOutcome)
    ensures var run := Handle(providers, name, token, bodyBytes, parsed, outcome);
      && |run.forwarded| <= 1
      && (run.forwarded != [] ==> name in providers && run.forwarded[0].endpoint == providers[name].endpoint)
  {
  }

  /**
   * A configured provider whose token source answers and whose body
   * rewrite does not raise gets exactly one forward call, to its endpoint,
   * with the assembled headers and the rewritten body.
   */
  lemma KnownProviderForwardsOnce(providers: map<string, ProviderCfg>, name: string, t: Option<string>,
                                  bodyBytes: seq<byte>, parsed: ParseResult, outcome: ForwardOutcome)
    requires name in providers
    requires RewriteBody(bodyBytes, parsed, providers[name].model).Ok?
    ensures var run := Handle(providers, name, Issued(t), bodyBytes, parsed, outcome);
      && run.tokenRequested
      && run.forwarded == [ForwardCall(providers[name].endpoint,
                                       RewriteBody(bodyBytes, parsed, providers[name].model).value,
                                       OutgoingHeaders(t))]
  {
  }

  /**
   * Every forwarded request carries `Content-Type: application/json`, and
   * `Authorization: Bearer <token>` exactly when the token is non-empty;
   * no other header.
   */
  lemma ForwardedHeaders(providers: map<string, ProviderCfg>, name: string, token: TokenResult,
                         bodyBytes: seq<byte>, parsed: ParseResult, outcome: ForwardOutcome, c: ForwardCall)
    requires c in Handle(providers, name, token, bodyBytes, parsed, outcome).forwarded
    ensures token.Issued?
    ensures Get(c.headers, "Content-Type") == Some("application/json")
    ensures forall k :: k in KeysOf(c.headers) ==> k == "Content-Type" || k == "Authorization"
    ensures Get(c.headers, "Authorization").Some? <==> (token.token.Some? && token.token.value != "")
    ensures token.token.Some? && token.token.value != "" ==>
      Get(c.headers, "Authorization") == Some("Bearer " + token.token.value)
  {
  }

  /**
   * A non-empty body that decodes to a JSON object goes out with `model`
   * set to the provider's model whatever it was before; every other member
   * keeps its value and its place, and an absent `model` is appended last.
   */
  lemma {:induction false} ModelOverridden(providers: map<string, ProviderCfg>, name: string, t: Option<string>,
                                           bodyBytes: seq<byte>, obj: JsonObject, outcome: ForwardOutcome)
    requires name in providers && bodyBytes != []
    ensures var run := Handle(providers, name, Issued(t), bodyBytes, ParsedObject(obj), outcome);
      && |run.forwarded| == 1
      && run.forwarded[0].body.Dumped?
      && var sent := run.forwarded[0].body.obj;
      && Get(sent, "model") == Some(Str(providers[name].model))
      && (forall k :: k != "model" ==> Get(sent, k) == Get(obj, k))
      && ("model" in KeysOf(obj) ==>
            |sent| == |obj| &&
            forall i :: 0 <= i < |obj| ==>
              sent[i] == (if obj[i].0 == "model" then ("model", Str(providers[name].model)) else obj[i]))
      && ("model" !in KeysOf(obj) ==> sent == obj + [("model", Str(providers[name].model))])
  {
    var m := Str(providers[name].model);
    AssignEntries(obj, ModelKey, m);
    forall k | k != ModelKey ensures Get(Assign(obj, ModelKey, m), k) == Get(obj, k) {
      AssignKeepsOthers(obj, ModelKey, m, k);
    }
  }

  /** An empty body, and a body that is not JSON, are forwarded as the inbound bytes. */
  lemma RawBodyForwarded(providers: map<string, ProviderCfg>, name: string, t: Option<string>,
                         bodyBytes: seq<byte>, parsed: ParseResult, outcome: ForwardOutcome)
    requires name in providers
    requires bodyBytes == [] || parsed.NotJson?
    ensures Handle(providers, name, Issued(t), bodyBytes, parsed, outcome).forwarded ==
      [ForwardCall(providers[name].endpoint, Raw(bodyBytes), OutgoingHeaders(t))]
  {
  }

  /**
   * Failures the handler does not catch: a token source that raises, a
   * non-UTF-8 body, valid JSON that is not an object, and any decoder
   * exception other than `json.JSONDecodeError`. None of them
   * reaches the upstream, and none becomes the 502 answer.
   */
  lemma UncaughtFailures(providers: map<string, ProviderCfg>, name: string, token: TokenResult,
                         bodyBytes: seq<byte>, parsed: ParseResult, outcome: ForwardOutcome)
    requires name in providers
    requires token.CredentialFailed? || (bodyBytes != [] && (parsed.BadUtf8? || parsed.ParsedNonObject? || parsed.DecoderRaised?))
    ensures var run := Handle(providers, name, token, bodyBytes, parsed, outcome);
      && run.forwarded == []
      && Dispatch(run.result) == Unhandled(
           if token.CredentialFailed? then CredentialError
           else if parsed.BadUtf8? then UnicodeDecodeError
           else if parsed.ParsedNonObject? then TypeError
           else DecoderError)
  {
  }

  /**
   * After a forward that got an answer, the caller receives the upstream
   * status, headers and content unchanged, with the media type taken from
   * the upstream `content-type`; an error status is relayed, not replaced.
   */
  lemma UpstreamRelayed(providers: map<string, ProviderCfg>, name: string, token: TokenResult,
                        bodyBytes: seq<byte>, parsed: ParseResult, u: Upstream)
    requires Handle(providers, name, token, bodyBytes, parsed, Received(u)).forwarded != []
    ensures Dispatch(Handle(providers, name, token, bodyBytes, parsed, Received(u)).result) ==
      Sent(Response(u.status, u.headers, Get(u.headers, "content-type"), u.content))
  {
  }

  /** A transport failure of the forward call is answered with the fixed 502, whatever the failure. */
  lemma TransportFailureIs502(providers: map<string, ProviderCfg>, name: string, token: TokenResult,
                              bodyBytes: seq<byte>, parsed: ParseResult, detail: string)
    requires Handle(providers, name, token, bodyBytes, parsed, TransportError(detail)).forwarded != []
    ensures Dispatch(Handle(providers, name, token, bodyBytes, parsed, TransportError(detail)).result) ==
      Sent(Response(502, [], Some("application/json"), UpstreamFailureContent))
  {
  }
}
