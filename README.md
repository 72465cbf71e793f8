# local-llm-proxy: the chat-completion forwarding handler

A model of the request handler of `local_llm_proxy`, a local reverse proxy
that sits between a client and remote chat-completion providers. For
`POST /provider/{provider}/chat/completions` the handler:

1. looks the provider up by name. An unknown name gets a fixed 404
   (`{"error": "Unknown provider"}`, `application/json`) without asking for
   a token or calling the upstream.
2. builds the outgoing header dict. `Content-Type: application/json` is
   always set. `Authorization: Bearer <token>` (the form of section 2.1 of
   RFC 6750) is added only when the provider's token source returns a
   non-empty token.
3. rewrites a non-empty JSON object body by assigning the provider's
   configured model to its `model` member. An empty body, or one that is not
   JSON, is forwarded as the inbound bytes.
4. forwards the request exactly once to the provider's endpoint.
5. relays the upstream status, headers and content unchanged, with the media
   type taken from the upstream `content-type`.

A transport failure of the forward (`httpx.RequestError`) is re-raised and
answered by the application's exception handler with a fixed 502
(`{"error": "Upstream failure"}`).

Files:

- `dict.dfy`, module `PyDict`: Python's insertion-ordered dict as a sequence
  of (key, value) entries with distinct keys. `Assign` is `d[k] = v`: an
  existing key keeps its position, a new key is appended. `Get` is `d.get(k)`.
- `proxy_app.dfy`, module `ProxyApp`, holds:
  - the data model;
  - the handler as specification functions (`OutgoingHeaders`,
    `RewriteBody`, `Relay`, `Handle`, `Dispatch`);
  - class `App`, the state set up at startup. Its method `ChatProxy` builds
    the headers step by step and calls `RewriteRequestBody` for the body, as
    the source's `try` block does; it is proved equal to `Handle`. Two ghost
    logs record the token requests and the forward calls, which is how "no upstream call" and "exactly one call"
    are stated;
  - lemmas stating the handler's properties.
- `scenarios.dfy`, module `ProxyScenarios`: the handler on the concrete
  requests of the repository's API tests.

The collaborators are inputs of the model:

- the token source's answer: `Issued(Option<string>)`, or `CredentialFailed`
  when it raises;
- what `json.loads(body.decode("utf-8"))` makes of a non-empty body:
  `ParsedObject`, `ParsedNonObject`, `NotJson`, `BadUtf8`, or
  `DecoderRaised` for any other decoder exception (a `ValueError` for an
  over-long integer literal, a `RecursionError` for deep nesting);
- the forward's outcome: `Received(status, headers, content)`, or
  `TransportError(detail)`.

Only `json.JSONDecodeError` is caught around the rewrite (line 85). A
non-UTF-8 body raises `UnicodeDecodeError` (line 82), and valid JSON that is
not an object raises `TypeError` at the assignment (line 83). Any other
decoder exception is not caught either. All of them leave the handler
uncaught. The model gives them an `Unhandled` outcome, not the raw-bytes
fallback.

A token source that raises is not answered with the 502: the call to
`get_token()` (line 74) is outside any `try`, and only `httpx.RequestError`
has a handler. So a raising token source ends as `Unhandled(CredentialError)`.

## Model

| member | source | states |
|---|---|---|
| `PyDict.Get` | src/local_llm_proxy/proxy_app.py:113 | `d.get(k)` returns a value exactly when `k` is a key of `d`, and then the value is one stored under `k` |
| `PyDict.Assign` | src/local_llm_proxy/proxy_app.py:83 | after `d[k] = v`, `k` maps to `v`. An existing key keeps the key order; a new key is appended at the end |
| `PyDict.AssignKeepsOthers` | src/local_llm_proxy/proxy_app.py:83 | `d[k] = v` leaves the value of every other key unchanged |
| `PyDict.AssignEntries` | src/local_llm_proxy/proxy_app.py:83 | entry by entry: an existing key is replaced in place and every other entry is unchanged; an absent key gives `d + [(k, v)]` |
| `PyDict.AssignAppends` | src/local_llm_proxy/proxy_app.py:83 | assigning a key that is absent gives `d + [(k, v)]` |
| `PyDict.AssignReplaces` | src/local_llm_proxy/proxy_app.py:83 | assigning a key that is present keeps the length; that entry gets the new value where it stands, and every other entry is unchanged |
| `PyDict.AssignKeepsDistinct` | src/local_llm_proxy/proxy_app.py:83 | assignment keeps the keys of a dict distinct |
| `ProxyApp.OutgoingHeaders` | src/local_llm_proxy/proxy_app.py:71-76 | the headers always hold `Content-Type: application/json`, and their only other possible key is `Authorization`. `Authorization` is present iff the token is non-None and non-empty, and then it is `"Bearer " + token`. An empty credential `"Bearer "` is never sent |
| `ProxyApp.RewriteBody` | src/local_llm_proxy/proxy_app.py:78-88 | an empty body, and a non-JSON body, are forwarded as the inbound bytes. A non-UTF-8 body raises `UnicodeDecodeError`, non-object JSON raises `TypeError`, and any other decoder exception escapes. A JSON object is forwarded with `model` equal to the configured model, and its inbound keys are a prefix, in order, of the forwarded keys |
| `ProxyApp.RewriteRequestBody` | src/local_llm_proxy/proxy_app.py:78-88 | the body step, done as the source does it (the decoded dict gets `model` assigned in place), gives exactly `RewriteBody`'s result, so it has all of `RewriteBody`'s properties |
| `ProxyApp.App.Startup` | src/local_llm_proxy/proxy_app.py:41-46 | the application starts with the loaded provider map, no token requested and nothing forwarded |
| `ProxyApp.App.ChatProxy` | src/local_llm_proxy/proxy_app.py:59-114 | the handler's result equals `Handle`. The token log grows by the provider name exactly when `Handle` asks for a token, and the forward log grows by exactly `Handle`'s forward calls |
| `ProxyApp.UnknownProviderIs404` | src/local_llm_proxy/proxy_app.py:61-66 | an unknown provider gets status 404, media type `application/json` and body exactly `{"error": "Unknown provider"}`. No token is requested and nothing is forwarded |
| `ProxyApp.AtMostOneForward` | src/local_llm_proxy/proxy_app.py:93-98 | any run forwards at most once (no retry), and only to the endpoint of a configured provider |
| `ProxyApp.KnownProviderForwardsOnce` | src/local_llm_proxy/proxy_app.py:68-95 | a known provider with an answering token source and a rewrite that does not raise gets exactly one forward call. The call goes to `cfg.endpoint` with the assembled headers and the rewritten body |
| `ProxyApp.ForwardedHeaders` | src/local_llm_proxy/proxy_app.py:71-76 | every forwarded request carries `Content-Type: application/json` and `Authorization` iff the token is truthy, as `Bearer <token>`; it carries no other header |
| `ProxyApp.ModelOverridden` | src/local_llm_proxy/proxy_app.py:79-84 | a non-empty JSON object body goes out with `model` equal to the configured model, whatever the inbound `model` was. Every other member keeps its value and position; an absent `model` is appended |
| `ProxyApp.RawBodyForwarded` | src/local_llm_proxy/proxy_app.py:79-88 | an empty body, or a body that fails JSON decoding, is forwarded as the original bytes |
| `ProxyApp.UncaughtFailures` | src/local_llm_proxy/proxy_app.py:74-86 | a raising token source, a non-UTF-8 body, non-object JSON and any other decoder exception all escape the handler: nothing is forwarded and no 502 is produced |
| `ProxyApp.UpstreamRelayed` | src/local_llm_proxy/proxy_app.py:109-114 | after a forward that got an answer, the response has the upstream status, headers and content, and the media type of the upstream `content-type`. Non-2xx statuses are relayed as they are |
| `ProxyApp.TransportFailureIs502` | src/local_llm_proxy/proxy_app.py:117-125 | a transport failure of the forward becomes status 502, media type `application/json` and body exactly `{"error": "Upstream failure"}`, whatever the underlying error was |
| `ProxyScenarios.IssuedTokenScenario` | tests/test_api.py:88-111 | with the test configuration, an issued token is sent as `Bearer <token>` to the configured endpoint. `model` is appended as `remote-model`, and the upstream's 200 `{"ok": true}` is relayed |
| `ProxyScenarios.SecretTokenScenario` | tests/test_api.py:49-66 | the API-key token `secret-token` is sent as `Authorization: Bearer secret-token` on the single forward |
| `ProxyScenarios.ConnectErrorScenario` | tests/test_api.py:69-85 | a connection failure with any message is answered with 502 and `{"error": "Upstream failure"}` |

## Left out

- Logging: the handler setup (lines 15-22), `_pretty` (lines 25-31), and the log calls and `usage` extraction (lines 90-91, 97, 100-107, 120). Apart from the case in the next line, they only change log output: `_pretty`'s decode and the `usage` extraction are inside `try` blocks that catch every exception.
- An exception from `_pretty`'s logging is not modelled. Its `json.dumps(obj, indent=2, ...)` at line 31 is outside the `try`. With `indent` set, CPython encodes in pure Python with recursion, so deeply nested JSON can raise `RecursionError` there even after lines 82-84 decoded and re-encoded it. `_pretty` runs eagerly as a log argument at line 91, before the forward, and at line 100, before the relay. Such a body would forward nothing, and such an upstream answer would not be relayed; both would end in the server's 500. The model has no input for this, so `ModelOverridden`, `KnownProviderForwardsOnce` and `UpstreamRelayed` do not hold for such JSON.
- The web framework: the FastAPI app, routing, `Request`/`Response` objects and async/await. The handler is a method whose inputs are the path segment, the body bytes and the collaborators' answers. `Response` records the constructor's arguments. The headers the framework derives from them (`content-type` from the media type, `content-length`) are not modelled. Nor is the 500 the server sends for an `Unhandled` outcome.
- Reading the request body (`await request.body()`, line 78): the bytes are an input, and a failure to read them is not modelled.
- Startup I/O: the configuration path under the home directory, and `load_config` with its YAML parsing (config.py is not part of this model). The loaded provider map is the `Startup` argument. `assert _forwarder is not None` (line 93) always holds after `Startup`, so it is not modelled.
- Shutdown and `Forwarder.aclose`: they release pooled connections, which have no observable effect on the handler.
- `Forwarder.forward` internals, connection pooling and concurrency (forwarder.py is not part of this model). A forward is one entry in the ghost log, and its outcome is an input.
- Token sources: the environment-variable key and the Azure CLI credential (auth_providers is not part of this model). `get_token()`'s answer is an input.
- The JSON library: `json.loads` is an input parse result. `json.dumps` is represented by the object it serializes (`Dumped`), not by bytes. Numbers are abstract values, so float rounding, `NaN` and `Infinity` are not represented.
- `str(cfg.endpoint)`: the URL is held as the string it renders to; the URL type's normalisation is not modelled.
- httpx header handling: upstream headers are taken as `dict(upstream.headers)`, names already lower-cased and repeated headers already merged. The case-insensitive `content-type` lookup is `Get` on those lower-case names.
- `ProxyApp.HttpxError` carries no contract of its own. What it answers is stated by `TransportFailureIs502` and `ConnectErrorScenario`.
- `ProxyApp.Relay` (lines 96-98, 109-114) carries no contract of its own. What it returns is stated by `UpstreamRelayed` and `TransportFailureIs502`.
- `ProxyApp.Handle` (lines 59-114) carries no contract of its own. It is the specification `App.ChatProxy` is proved equal to. What it returns is stated by `UnknownProviderIs404`, `AtMostOneForward`, `KnownProviderForwardsOnce`, `ForwardedHeaders`, `ModelOverridden`, `RawBodyForwarded`, `UncaughtFailures`, `UpstreamRelayed` and `TransportFailureIs502`.
- `ProxyApp.Dispatch` (line 117, the routing of `httpx.RequestError` to its handler) carries no contract of its own. What it returns is stated by `TransportFailureIs502`, `UpstreamRelayed`, `UnknownProviderIs404` and `UncaughtFailures`.
