/**
 * The `TwitchWebhook` class of src/index.js: its configuration, the registry
 * of per-topic secrets (`_secrets`) that its handlers read and update, and
 * the handlers themselves, each run as one sequential step.
 */
module Webhook {
  import opened Wrappers
  import opened Errors
  import opened Text
  import opened Config
  import opened Foreign
  import opened HubClient
  import opened CallbackServer
  import opened Protocol

  /**
   * The body reader of `_processUpdates` (src/index.js:287-298): each chunk is
   * appended, and a body that grows past the cap is dropped, answered with 413
   * and its connection destroyed, after which no more chunks arrive. The body
   * it keeps is never over the cap, and it overflows exactly when the chunks
   * together are longer than the cap.
   */
  method ReadBody(chunks: seq<string>) returns (body: string, tooLarge: bool)
    ensures tooLarge <==> |Concat(chunks)| > BodyCap
    ensures body == if tooLarge then "" else Concat(chunks)
    ensures |body| <= BodyCap
  {
    body, tooLarge := "", false;
    var i := 0;
    while i < |chunks| && !tooLarge
      invariant 0 <= i <= |chunks|
      invariant |body| <= BodyCap
      invariant !tooLarge ==> body == Concat(chunks[..i])
      invariant tooLarge ==> body == "" && |Concat(chunks[..i])| > BodyCap
    {
      ConcatSnoc(chunks, i);
      body := body + chunks[i];
      if |body| > BodyCap {
        body := "";
        tooLarge := true;
      }
      i := i + 1;
    }
    if tooLarge {
      ConcatPrefixShorter(chunks, i);
    } else {
      assert chunks[..i] == chunks;
    }
  }

  class TwitchWebhook {
    /** The library functions the instance calls. */
    const lib: Libraries
    /** `_options`, `_apiUrl` and `_hubUrl` once the constructor has filled them in. */
    const config: Settings
    /** `_secrets`: the signing secret stored for each topic URL. */
    var secrets: map<string, string>

    /** Every stored secret is the HMAC of its topic URL under the configured secret. */
    ghost predicate Valid()
      reads this
    {
      Derived(config, lib, secrets)
    }

    /**
     * The constructor past its two checks (src/index.js:44-60): the defaults
     * are filled in one option at a time and the registry starts empty.
     */
    constructor (opts: Options, lib: Libraries)
      requires opts.clientId.Some? && opts.callback.Some?
      ensures Configure(opts) == Success(config)
      ensures this.lib == lib && secrets == map[] && Valid()
    {
      var lease := DefaultLeaseSeconds;
      if opts.leaseSeconds.Some? {
        lease := opts.leaseSeconds.value;
      }
      var listen := ListenOptions(None, None);
      if opts.listen.Some? {
        listen := opts.listen.value;
      }
      var host := DefaultHost;
      if listen.host.Some? && listen.host.value != "" {
        host := listen.host.value;
      }
      var port := DefaultPort;
      if listen.port.Some? && listen.port.value != 0 {
        port := listen.port.value;
      }
      var apiUrl := DefaultApiUrl;
      if opts.baseApiUrl.Some? && opts.baseApiUrl.value != "" {
        apiUrl := opts.baseApiUrl.value;
      }
      this.lib := lib;
      config := Settings(opts.clientId.value, opts.callback.value, opts.secret, lease, host, port, apiUrl, apiUrl + HubPath);
      secrets := map[];
    }

    /**
     * `_request` (src/index.js:143-186): build the request, send it (the hub's
     * answer is `reply`), and on a 202 with signing on store the request's
     * secret under its topic URL.
     */
    method Request(mode: string, topic: string, options: map<string, string>, reply: Transport)
      returns (sent: HubRequest, r: Outcome<Error>)
      requires Valid()
      modifies this
      ensures Valid()
      ensures sent == BuildRequest(config, lib, mode, topic, options)
      ensures r == Interpret(reply)
      ensures secrets == RegistryAfter(old(secrets), config, sent, reply)
    {
      var endpoint := topic;
      if !lib.isAbsoluteUrl(endpoint) {
        endpoint := config.apiUrl + endpoint;
      }
      if options != map[] {
        endpoint := endpoint + "?" + lib.stringify(options);
      }
      var secret := None;
      if Signing(config) {
        secret := Some(lib.hmac(config.secret.value, endpoint));
      }
      sent := HubRequest(config.hubUrl, config.clientId,
        HubParams(config.callback, mode, endpoint, config.leaseSeconds, secret));
      match reply {
        case TransportError(message) =>
          r := Fail(FatalError(message));
        case HttpResponse(status) =>
          if status != Accepted {
            r := Fail(RequestDenied(status));
          } else {
            if Signing(config) {
              secrets := secrets[endpoint := secret.value];
            }
            r := Pass;
          }
      }
      RequestKeepsDerived(config, lib, old(secrets), mode, topic, options, reply);
    }

    /** `subscribe(topic, options)` (src/index.js:194-196). */
    method Subscribe(topic: string, reply: Transport, options: map<string, string> := map[])
      returns (sent: HubRequest, r: Outcome<Error>)
      requires Valid()
      modifies this
      ensures Valid()
      ensures sent == BuildRequest(config, lib, HubClient.Subscribe, topic, options)
      ensures r == Interpret(reply)
      ensures secrets == RegistryAfter(old(secrets), config, sent, reply)
    {
      sent, r := Request(HubClient.Subscribe, topic, options, reply);
    }

    /** `unsubscribe(topic, options)` (src/index.js:203-205); `'*'` is an ordinary topic. */
    method Unsubscribe(topic: string, reply: Transport, options: map<string, string> := map[])
      returns (sent: HubRequest, r: Outcome<Error>)
      requires Valid()
      modifies this
      ensures Valid()
      ensures sent == BuildRequest(config, lib, HubClient.Unsubscribe, topic, options)
      ensures r == Interpret(reply)
      ensures secrets == RegistryAfter(old(secrets), config, sent, reply)
    {
      sent, r := Request(HubClient.Unsubscribe, topic, options, reply);
    }

    /** `_processConnection` (src/index.js:221-243): the GET handshake. */
    method ProcessConnection(req: HttpRequest) returns (reply: Reply)
      requires Valid()
      modifies this
      ensures Valid()
      ensures Step(reply, secrets) == Handshake(lib.query(req.url), old(secrets))
    {
      var query := lib.query(req.url);
      var mode := Mode(query);
      if mode == Some("denied") {
        reply := Reply(Ok, "", [Event("denied", QueryMap(query))], false);
      } else if mode == Some("unsubscribe") || mode == Some("subscribe") {
        if mode == Some("unsubscribe") {
          secrets := secrets - {DeletedKey(query)};
        }
        reply := Reply(Ok, Challenge(query), [Event(mode.value, QueryMap(query))], false);
      } else {
        reply := Answer(BadRequest);
      }
    }

    /** `_processUpdates` (src/index.js:273-342): the POST pipeline; it only reads the registry. */
    method ProcessUpdates(req: HttpRequest) returns (reply: Reply)
      ensures reply == Notify(config, lib, secrets, req.headers, req.chunks)
    {
      var signature := "";
      if Signing(config) {
        var sig := SignatureOf(req.headers);
        if sig.None? || sig.value == "" {
          return Answer(Unauthorized);
        }
        signature := sig.value;
      }
      var body, tooLarge := ReadBody(req.chunks);
      if tooLarge {
        return Reply(PayloadTooLarge, "", [], true);
      }
      reply := Deliver(config, lib, secrets, signature, body);
    }

    /** `_requestListener` (src/index.js:351-363): dispatch on the HTTP method. */
    method RequestListener(req: HttpRequest) returns (reply: Reply)
      requires Valid()
      modifies this
      ensures Valid()
      ensures Step(reply, secrets) == Dispatch(config, lib, old(secrets), req)
    {
      if req.verb == "GET" {
        reply := ProcessConnection(req);
      } else if req.verb == "POST" {
        reply := ProcessUpdates(req);
      } else {
        reply := Answer(MethodNotAllowed);
      }
    }
  }

  /**
   * `new TwitchWebhook(options)` (src/index.js:35-60): a missing client ID is
   * reported before a missing callback, and a constructed instance starts with
   * an empty registry.
   */
  method Create(opts: Options, lib: Libraries) returns (r: Result<TwitchWebhook, Error>)
    ensures r.Success? <==> Configure(opts).Success?
    ensures r.Failure? ==> Configure(opts) == Failure(r.error)
    ensures r.Success? ==>
      fresh(r.value) && Configure(opts) == Success(r.value.config) &&
      r.value.lib == lib && r.value.secrets == map[] && r.value.Valid()
  {
    if opts.clientId.None? {
      return Failure(FatalError(MissingClientId));
    }
    if opts.callback.None? {
      return Failure(FatalError(MissingCallback));
    }
    var webhook := new TwitchWebhook(opts, lib);
    return Success(webhook);
  }
}
