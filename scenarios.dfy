/**
 * The handler on the concrete requests of the repository's API tests: one
 * provider `test-model` targeting `remote-model`, a chat request body, and
 * an upstream that answers `{"ok": true}` or fails to connect.
 */
module ProxyScenarios {
  import opened PyDict
  import opened ProxyApp

  function TestProviders(): map<string, ProviderCfg> {
    map["test-model" := ProviderCfg("https://mock.upstream/chat/completions", "remote-model")]
  }

  /** `{"messages": [{"role": "user", "content": "hi"}]}` as decoded. */
  function ChatRequest(): JsonObject {
    [("messages", Array([Object([("role", Str("user")), ("content", Str("hi"))])]))]
  }

  /** An answer like the test's mock upstream: status 200, body `{"ok": true}`. */
  const OkContent: seq<byte> := Ascii("{\"ok\": true}")

  function OkAnswer(): Upstream {
    Upstream(200, [("content-type", "application/json")], OkContent)
  }

  /**
   * An issued token reaches the upstream as `Bearer <token>`, the request
   * goes to the configured endpoint with `model` set to `remote-model`, and
   * the upstream's 200 and body come back unchanged.
   */
  lemma IssuedTokenScenario(t: string, bodyBytes: seq<byte>)
    requires t != "" && bodyBytes != []
    ensures var run := Handle(TestProviders(), "test-model", Issued(Some(t)), bodyBytes,
                              ParsedObject(ChatRequest()), Received(OkAnswer()));
      && Dispatch(run.result) == Sent(Response(200, [("content-type", "application/json")],
                                               Some("application/json"), OkContent))
      && |run.forwarded| == 1
      && run.forwarded[0].endpoint == "https://mock.upstream/chat/completions"
      && Get(run.forwarded[0].headers, "Authorization") == Some("Bearer " + t)
      && run.forwarded[0].body == Dumped(ChatRequest() + [("model", Str("remote-model"))])
  {
    AssignEntries(ChatRequest(), "model", Str("remote-model"));
  }

  /** The API-key test: the variable holds `secret-token`. */
  lemma SecretTokenScenario(bodyBytes: seq<byte>)
    requires bodyBytes != []
    ensures var run := Handle(TestProviders(), "test-model", Issued(Some("secret-token")), bodyBytes,
                              ParsedObject(ChatRequest()), Received(OkAnswer()));
      && |run.forwarded| == 1
      && Get(run.forwarded[0].headers, "Authorization") == Some("Bearer secret-token")
  {
    assert "Bearer " + "secret-token" == "Bearer secret-token";
    IssuedTokenScenario("secret-token", bodyBytes);
  }

  /** A connection failure, whatever its message, is answered with the fixed 502. */
  lemma ConnectErrorScenario(detail: string, bodyBytes: seq<byte>)
    ensures var run := Handle(TestProviders(), "test-model", Issued(Some("token")), bodyBytes,
                              ParsedObject(ChatRequest()), TransportError(detail));
      && Dispatch(run.result) == Sent(Response(502, [], Some("application/json"),
                                               UpstreamFailureContent))
  {
    var providers, parsed := TestProviders(), ParsedObject(ChatRequest());
    assert RewriteBody(bodyBytes, parsed, providers["test-model"].model).Ok?;
    KnownProviderForwardsOnce(providers, "test-model", Some("token"), bodyBytes, parsed, TransportError(detail));
    TransportFailureIs502(providers, "test-model", Issued(Some("token")), bodyBytes, parsed, detail);
  }
}
