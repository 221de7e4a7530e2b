/**
 * The outbound half of the protocol (src/index.js:143-205): building the
 * request that asks the hub to start or stop a subscription, and turning the
 * hub's answer into an outcome and a registry update.
 */
module HubClient {
  import opened Wrappers
  import opened Errors
  import opened Config
  import opened Foreign

  const Subscribe := "subscribe"
  const Unsubscribe := "unsubscribe"
  /** The only status the hub answers an accepted request with. */
  const Accepted := 202

  /** The `hub.*` query parameters of an outbound request. */
  datatype HubParams = HubParams(
    callback: string,          // hub.callback
    mode: string,              // hub.mode
    topic: string,             // hub.topic
    leaseSeconds: int,         // hub.lease_seconds
    secret: Option<string>)    // hub.secret

  /** A POST to `url` with a `Client-ID` header and the `hub.*` parameters. */
  datatype HubRequest = HubRequest(url: string, clientId: string, params: HubParams)

  /** What the HTTP client reports: a transport failure, or the hub's status. */
  datatype Transport = TransportError(message: string) | HttpResponse(status: int)

  /**
   * The canonical topic URL: a relative topic is resolved against the API URL,
   * and a non-empty options object is appended as a query string.
   */
  function Endpoint(apiUrl: string, lib: Libraries, topic: string, options: map<string, string>): (r: string)
    ensures var base := if lib.isAbsoluteUrl(topic) then topic else apiUrl + topic;
      base <= r &&
      (options == map[] ==> r == base) &&
      (options != map[] ==> r == base + "?" + lib.stringify(options))
  {
    var base := if lib.isAbsoluteUrl(topic) then topic else apiUrl + topic;
    if options != map[] then base + "?" + lib.stringify(options) else base
  }

  /**
   * The request `_request(mode, topic, options)` sends. It carries a secret
   * exactly when signing is on, and that secret is the HMAC of the canonical
   * topic URL under the configured secret: the key the registry will hold.
   */
  function BuildRequest(cfg: Settings, lib: Libraries, mode: string, topic: string, options: map<string, string>): (q: HubRequest)
    ensures q.url == cfg.hubUrl && q.clientId == cfg.clientId
    ensures q.params.callback == cfg.callback && q.params.mode == mode
    ensures q.params.leaseSeconds == cfg.leaseSeconds
    ensures q.params.topic == Endpoint(cfg.apiUrl, lib, topic, options)
    ensures q.params.secret.Some? <==> Signing(cfg)
    ensures q.params.secret.Some? ==> q.params.secret.value == lib.hmac(cfg.secret.value, q.params.topic)
  {
    var endpoint := Endpoint(cfg.apiUrl, lib, topic, options);
    var secret := if Signing(cfg) then Some(lib.hmac(cfg.secret.value, endpoint)) else None;
    HubRequest(cfg.hubUrl, cfg.clientId, HubParams(cfg.callback, mode, endpoint, cfg.leaseSeconds, secret))
  }

  /**
   * How the promise returned by `_request` settles: only a 202 succeeds; any
   * other status is `RequestDenied`, a transport failure a `FatalError`.
   */
  function Interpret(reply: Transport): (r: Outcome<Error>)
    ensures r.Pass? <==> reply == HttpResponse(Accepted)
    ensures r.Fail? ==> IsFatal(r.error)
    ensures reply.TransportError? ==> r == Fail(FatalError(reply.message))
    ensures reply.HttpResponse? && reply.status != Accepted ==> r == Fail(RequestDenied(reply.status))
  {
    match reply
    case TransportError(message) => Fail(FatalError(message))
    case HttpResponse(status) => if status == Accepted then Pass else Fail(RequestDenied(status))
  }

  /**
   * The registry after the hub answered `q`: when the request succeeded and
   * signing is on, the request's secret is stored under its topic URL, and
   * nothing else ever changes.
   */
  function RegistryAfter(secrets: map<string, string>, cfg: Settings, q: HubRequest, reply: Transport): (m: map<string, string>)
    requires Signing(cfg) ==> q.params.secret.Some?
    ensures forall k :: k != q.params.topic ==> (k in m <==> k in secrets)
    ensures forall k :: k in m && k != q.params.topic ==> m[k] == secrets[k]
    ensures m != secrets ==> Interpret(reply).Pass? && Signing(cfg)
    ensures Interpret(reply).Pass? && Signing(cfg) ==>
      q.params.topic in m && m[q.params.topic] == q.params.secret.value
  {
    if Interpret(reply).Pass? && Signing(cfg) then secrets[q.params.topic := q.params.secret.value]
    else secrets
  }

  /** `subscribe` and `unsubscribe` send the same request apart from `hub.mode`. */
  lemma ModesDifferOnlyInMode(cfg: Settings, lib: Libraries, topic: string, options: map<string, string>)
    ensures var s := BuildRequest(cfg, lib, Subscribe, topic, options);
      var u := BuildRequest(cfg, lib, Unsubscribe, topic, options);
      s.params.mode == Subscribe && u.params.mode == Unsubscribe &&
      s.(params := s.params.(mode := Unsubscribe)) == u
  {
  }

  /**
   * `unsubscribe('*')` has no fan-out: `'*'` is one more relative topic, so a
   * single request goes out for the URL `apiUrl + '*'`.
   */
  lemma WildcardIsPlainTopic(cfg: Settings, lib: Libraries)
    requires !lib.isAbsoluteUrl("*")
    ensures BuildRequest(cfg, lib, Unsubscribe, "*", map[]).params.topic == cfg.apiUrl + "*"
  {
  }

  /**
   * Subscribing to `streams` with `user_id=12826` against the default API URL
   * asks for the topic `https://api.twitch.tv/helix/streams?user_id=12826`.
   */
  lemma StreamsTopicExample(opts: Options, lib: Libraries)
    requires Configure(opts).Success? && opts.baseApiUrl.None?
    requires !lib.isAbsoluteUrl("streams")
    requires lib.stringify(map["user_id" := "12826"]) == "user_id=12826"
    ensures BuildRequest(Configure(opts).value, lib, Subscribe, "streams", map["user_id" := "12826"]).params.topic
      == "https://api.twitch.tv/helix/streams?user_id=12826"
  {
    var cfg := Configure(opts).value;
    var options := map["user_id" := "12826"];
    assert "user_id" in options;
    var topic := BuildRequest(cfg, lib, Subscribe, "streams", options).params.topic;
    assert topic == DefaultApiUrl + "streams" + "?" + "user_id=12826";
  }
}
