/**
 * The inbound half of the protocol as functions of the request and the
 * registry: the GET verification handshake (src/index.js:221-243), the POST
 * notification pipeline (src/index.js:273-342), the date fix-up
 * (src/index.js:253-264) and the dispatch on the HTTP method
 * (src/index.js:351-363). The class in module Webhook runs these steps
 * against its own registry.
 */
module CallbackServer {
  import opened Wrappers
  import opened Json
  import opened Text
  import opened Config
  import opened Foreign

  /** The largest body, in characters, the server accumulates. */
  const BodyCap := 1000000
  const SignatureHeader := "x-hub-signature"
  const HelixPrefix := "/helix/"
  const Wildcard := "*"

  const Ok := 200
  const NoContent := 204
  const BadRequest := 400
  const Unauthorized := 401
  const MethodNotAllowed := 405
  const PayloadTooLarge := 413

  /** An inbound request: its method (`verb`), URL, headers (lower-case names) and body chunks. */
  datatype HttpRequest = HttpRequest(verb: string, url: string, headers: map<string, string>, chunks: seq<string>)

  /** What an event carries: the handshake's query map, or a notification. */
  datatype Payload =
    | QueryMap(query: map<string, string>)
    | Notification(topic: string, event: Value)

  /** One `emit(channel, payload)`, in the order the handler makes them. */
  datatype Event = Event(channel: string, payload: Payload)

  /** The exceptions that escape a request handler uncaught. */
  datatype Fault =
    | TopicNotString   // `url.parse` of a topic that is not a string throws
    | NoPathname       // `url.parse(topic).pathname` is null, so `.replace` throws
    | SecretMissing    // `createHmac` with the undefined key of an unknown topic throws

  /** How a request handler ends. */
  datatype Reply =
    | Reply(status: int, body: string, events: seq<Event>, destroyed: bool)
    | Uncaught(fault: Fault)

  /** A handler's reply together with the registry it leaves behind. */
  datatype Step = Step(reply: Reply, registry: map<string, string>)

  /** A reply with no body and no events. */
  function Answer(status: int): Reply {
    Reply(status, "", [], false)
  }

  // ----- GET: the verification handshake -----

  /** `queries['hub.mode']`. */
  function Mode(query: map<string, string>): (r: Option<string>)
    ensures r.Some? <==> "hub.mode" in query
    ensures r.Some? ==> r.value == query["hub.mode"]
  {
    if "hub.mode" in query then Some(query["hub.mode"]) else None
  }

  /** `response.end(queries['hub.challenge'])`: a missing challenge writes nothing. */
  function Challenge(query: map<string, string>): (r: string)
    ensures "hub.challenge" in query ==> r == query["hub.challenge"]
    ensures "hub.challenge" !in query ==> r == ""
  {
    if "hub.challenge" in query then query["hub.challenge"] else ""
  }

  /**
   * The registry key `delete this._secrets[queries['hub.topic']]` removes: a
   * missing `hub.topic` is the property name "undefined".
   */
  function DeletedKey(query: map<string, string>): (r: string)
    ensures "hub.topic" in query ==> r == query["hub.topic"]
    ensures "hub.topic" !in query ==> r == "undefined"
  {
    if "hub.topic" in query then query["hub.topic"] else "undefined"
  }

  /** The modes the handshake answers with 200. */
  predicate KnownMode(query: map<string, string>) {
    Mode(query) == Some("denied") || Mode(query) == Some("subscribe") || Mode(query) == Some("unsubscribe")
  }

  /**
   * The handshake, keyed on `hub.mode`. `unsubscribe` deletes the topic's
   * secret and then falls through to the `subscribe` case, which echoes the
   * challenge; `denied` answers with no body; every other mode is refused.
   * The handshake never adds or alters a secret, and only `unsubscribe`
   * removes one.
   */
  function Handshake(query: map<string, string>, secrets: map<string, string>): (s: Step)
    ensures s.reply.Reply? && !s.reply.destroyed
    ensures s.registry.Keys <= secrets.Keys
    ensures forall k :: k in s.registry ==> s.registry[k] == secrets[k]
    ensures s.registry != secrets ==> Mode(query) == Some("unsubscribe")
    ensures s.reply.status == Ok <==> KnownMode(query)
    ensures !KnownMode(query) ==> s == Step(Answer(BadRequest), secrets)
    ensures KnownMode(query) ==> s.reply.events == [Event(query["hub.mode"], QueryMap(query))]
    ensures Mode(query) == Some("denied") ==> s.reply.body == "" && s.registry == secrets
    ensures Mode(query) == Some("subscribe") || Mode(query) == Some("unsubscribe") ==>
      s.reply.body == Challenge(query)
  {
    var mode := Mode(query);
    if mode == Some("denied") then
      Step(Reply(Ok, "", [Event("denied", QueryMap(query))], false), secrets)
    else if mode == Some("unsubscribe") || mode == Some("subscribe") then
      var registry := if mode == Some("unsubscribe") then secrets - {DeletedKey(query)} else secrets;
      Step(Reply(Ok, Challenge(query), [Event(mode.value, QueryMap(query))], false), registry)
    else
      Step(Answer(BadRequest), secrets)
  }

  /** A confirmed unsubscribe removes exactly the key named by `hub.topic`, present or not. */
  lemma UnsubscribeRemovesTopic(query: map<string, string>, secrets: map<string, string>)
    requires Mode(query) == Some("unsubscribe")
    ensures var s := Handshake(query, secrets);
      DeletedKey(query) !in s.registry &&
      forall k :: k != DeletedKey(query) ==> (k in s.registry <==> k in secrets)
  {
  }

  /**
   * A subscribe handshake with challenge `ABC` is answered 200 with body `ABC`
   * and one `subscribe` event carrying the whole query map.
   */
  lemma SubscribeHandshakeExample(secrets: map<string, string>)
    ensures var query := map["hub.mode" := "subscribe", "hub.challenge" := "ABC"];
      Handshake(query, secrets) == Step(Reply(Ok, "ABC", [Event("subscribe", QueryMap(query))], false), secrets)
  {
  }

  // ----- POST: the notification pipeline -----

  /**
   * `headers['x-hub-signature'] && headers['x-hub-signature'].split('=')[1]`:
   * the text between the first and the second `=`. The `sha256` in front is
   * never looked at.
   */
  function SignatureOf(headers: map<string, string>): (sig: Option<string>)
    ensures sig.None? <==> SignatureHeader !in headers || '=' !in headers[SignatureHeader]
    ensures sig.Some? ==>
      var h := headers[SignatureHeader];
      var scheme := Split(h, '=')[0];
      '=' !in scheme && '=' !in sig.value &&
      (h == scheme + "=" + sig.value || exists rest :: h == scheme + "=" + sig.value + "=" + rest)
  {
    if SignatureHeader !in headers || headers[SignatureHeader] == "" then None
    else
      var h := headers[SignatureHeader];
      var pieces := Split(h, '=');
      SplitCount(h, '=');
      if |pieces| < 2 then None
      else
        SecondPiece(h, '=');
        Some(pieces[1])
  }

  /**
   * The converse of `SignatureOf`'s contract: a header made of a scheme without
   * `=`, an `=`, a signature without `=`, and optionally `=` and anything else,
   * carries exactly that signature. So `sha256=abc` and `sha256=abc=def` both
   * carry `abc`, and `sha256=` carries the empty, missing, signature.
   */
  lemma SignatureOfShape(scheme: string, sig: string, rest: Option<string>)
    requires '=' !in scheme && '=' !in sig
    ensures var h := scheme + "=" + sig + (if rest.Some? then "=" + rest.value else "");
      SignatureOf(map[SignatureHeader := h]) == Some(sig)
  {
    var tail := sig + (if rest.Some? then "=" + rest.value else "");
    var h := scheme + "=" + tail;
    assert h == scheme + "=" + sig + (if rest.Some? then "=" + rest.value else "");
    SplitAtFirst(scheme, '=', tail);
    if rest.Some? {
      assert tail == sig + "=" + rest.value;
      SplitAtFirst(sig, '=', rest.value);
    } else {
      assert tail == sig;
      SplitNoSeparator(sig, '=');
    }
    assert Split(h, '=')[1] == sig;
  }

  /** The signature is missing when there is no non-empty text after the first `=`. */
  predicate SignatureMissing(headers: map<string, string>)
    ensures SignatureMissing(headers) <==> !(SignatureOf(headers).Some? && Truthy(Str(SignatureOf(headers).value)))
  {
    SignatureOf(headers).None? || SignatureOf(headers).value == ""
  }

  /** The topic's short name: its URL path with the first `/helix/` taken out. */
  function TopicName(path: string): (r: string)
    ensures (forall j: nat :: !OccursAt(path, HelixPrefix, j)) ==> r == path
    ensures forall i: nat :: FirstAt(path, HelixPrefix, i) ==>
      r == path[..i] + path[i + |HelixPrefix|..]
  {
    ReplaceFirst(path, HelixPrefix, "")
  }

  /** The short name of a path that starts with `/helix/` is the rest of the path. */
  lemma TopicNameStripsPrefix(rest: string)
    ensures TopicName(HelixPrefix + rest) == rest
  {
  }

  /** The one top-level field the date fix-up converts for a topic, if any. */
  function DateField(topic: string): Option<string> {
    if topic == "users/follows" then Some("timestamp")
    else if topic == "streams" then Some("started_at")
    else None
  }

  /**
   * `_fixDateInResponse`: for `users/follows` the top-level `timestamp`, for
   * `streams` the top-level `started_at`, becomes a `Date` (set even when the
   * field was absent); every other field, and every other topic's data, is
   * left as it was.
   */
  function FixDate(topic: string, fields: map<string, Value>, toDate: Option<Value> -> DateTime): (r: map<string, Value>)
    ensures DateField(topic).None? ==> r == fields
    ensures DateField(topic).Some? ==>
      var f := DateField(topic).value;
      r.Keys == fields.Keys + {f} &&
      r[f] == DateVal(toDate(if f in fields then Some(fields[f]) else None)) &&
      forall k :: k in fields && k != f ==> r[k] == fields[k]
  {
    match DateField(topic)
    case None => fields
    case Some(f) => fields[f := DateVal(toDate(if f in fields then Some(fields[f]) else None))]
  }

  /**
   * `data && data.topic`. When `data` is falsy the expression is `data`
   * itself, which is falsy too; `None` stands for every falsy outcome of that kind.
   */
  function TopicValue(data: Value): (r: Option<Value>)
    ensures r.Some? <==> data.Obj? && "topic" in data.fields
    ensures r.Some? ==> r.value == data.fields["topic"]
  {
    if Truthy(data) then Property(data, "topic") else None
  }

  /** The topic URL a body names, when it names one as a non-empty string. */
  function BodyTopic(lib: Libraries, body: string): (t: Option<string>)
    ensures t.Some? ==> t.value != ""
    ensures t.Some? <==>
      lib.parseJson(body).Some? && lib.parseJson(body).value.Obj? &&
      "topic" in lib.parseJson(body).value.fields &&
      lib.parseJson(body).value.fields["topic"].Str? &&
      lib.parseJson(body).value.fields["topic"].s != ""
    ensures t.Some? ==> t.value == lib.parseJson(body).value.fields["topic"].s
  {
    match lib.parseJson(body)
    case None => None
    case Some(data) =>
      var topic := TopicValue(data);
      if topic.Some? && topic.value.Str? && topic.value.s != "" then Some(topic.value.s) else None
  }

  /**
   * The pipeline once the whole body has arrived: parse it, find its topic,
   * check the signature against the secret stored for that topic, and only
   * then answer 204 and emit the payload on the topic's channel and then on
   * `*`. `signature` is only looked at when signing is on.
   */
  function Deliver(cfg: Settings, lib: Libraries, secrets: map<string, string>, signature: string, body: string): (r: Reply)
    ensures r.Reply? ==> !r.destroyed && r.body == ""
    ensures r.Reply? ==> r.status == NoContent || r.status == BadRequest || r.status == Unauthorized
    ensures r.Reply? && r.status != NoContent ==> r.events == []
    ensures r.Reply? && r.status == NoContent ==>
      |r.events| == 2 && r.events[1].channel == Wildcard &&
      r.events[0].payload == r.events[1].payload &&
      r.events[0].payload.Notification? &&
      r.events[0].channel == r.events[0].payload.topic != ""
    ensures r.Reply? && r.status == NoContent ==> BodyTopic(lib, body).Some?
    ensures Signing(cfg) && r.Reply? && r.status == NoContent ==>
      var t := BodyTopic(lib, body).value;
      t in secrets && lib.hmac(secrets[t], body) == signature
    ensures r == Uncaught(SecretMissing) ==>
      Signing(cfg) && BodyTopic(lib, body).Some? && BodyTopic(lib, body).value !in secrets
    ensures lib.parseJson(body).None? ==> r == Answer(BadRequest)
    ensures lib.parseJson(body).Some? ==>
      var data := lib.parseJson(body).value;
      var topic := TopicValue(data);
      (topic.None? || !Truthy(topic.value) ==> r == Answer(BadRequest)) &&
      (topic.Some? && Truthy(topic.value) && !topic.value.Str? ==> r == Uncaught(TopicNotString)) &&
      (topic.Some? && topic.value.Str? && topic.value.s != "" ==>
        var u := topic.value.s;
        (lib.pathname(u).None? ==> r == Uncaught(NoPathname)) &&
        (lib.pathname(u).Some? ==>
          var n := TopicName(lib.pathname(u).value);
          (n == "" ==> r == Answer(BadRequest)) &&
          (n != "" && Signing(cfg) && u !in secrets ==> r == Uncaught(SecretMissing)) &&
          (n != "" && Signing(cfg) && u in secrets && lib.hmac(secrets[u], body) != signature ==>
            r == Answer(Unauthorized)) &&
          (n != "" && (!Signing(cfg) || (u in secrets && lib.hmac(secrets[u], body) == signature)) ==>
            var p := Notification(n, Obj(FixDate(n, data.fields, lib.toDate)));
            r == Reply(NoContent, "", [Event(n, p), Event(Wildcard, p)], false))))
  {
    match lib.parseJson(body)
    case None => Answer(BadRequest)
    case Some(data) =>
      var topic := TopicValue(data);
      if topic.None? || !Truthy(topic.value) then Answer(BadRequest)
      else if !topic.value.Str? then Uncaught(TopicNotString)
      else
        match lib.pathname(topic.value.s)
        case None => Uncaught(NoPathname)
        case Some(path) =>
          var name := TopicName(path);
          var url := topic.value.s;
          if name == "" then Answer(BadRequest)
          else if Signing(cfg) && url !in secrets then Uncaught(SecretMissing)
          else if Signing(cfg) && lib.hmac(secrets[url], body) != signature then Answer(Unauthorized)
          else
            var payload := Notification(name, Obj(FixDate(name, data.fields, lib.toDate)));
            Reply(NoContent, "", [Event(name, payload), Event(Wildcard, payload)], false)
  }

  /**
   * `_processUpdates`: with signing on, a missing signature is refused before
   * the body is read; a body that grows past the cap is refused and its
   * connection destroyed; everything else is up to `Deliver`.
   */
  function Notify(cfg: Settings, lib: Libraries, secrets: map<string, string>, headers: map<string, string>, chunks: seq<string>): (r: Reply)
    ensures Signing(cfg) && SignatureMissing(headers) ==> r == Answer(Unauthorized)
    ensures r.Reply? && r.destroyed <==> r.Reply? && r.status == PayloadTooLarge
    ensures !(Signing(cfg) && SignatureMissing(headers)) && |Concat(chunks)| > BodyCap ==>
      r == Reply(PayloadTooLarge, "", [], true)
    ensures r.Reply? && r.status == PayloadTooLarge <==>
      !(Signing(cfg) && SignatureMissing(headers)) && |Concat(chunks)| > BodyCap
    ensures r.Reply? && r.status != NoContent ==> r.events == []
    ensures r.Reply? && r.status == NoContent ==>
      |Concat(chunks)| <= BodyCap && BodyTopic(lib, Concat(chunks)).Some?
    ensures Signing(cfg) && r.Reply? && r.status == NoContent ==>
      var t := BodyTopic(lib, Concat(chunks)).value;
      t in secrets && Some(lib.hmac(secrets[t], Concat(chunks))) == SignatureOf(headers)
    ensures !(Signing(cfg) && SignatureMissing(headers)) && |Concat(chunks)| <= BodyCap ==>
      r == Deliver(cfg, lib, secrets, if Signing(cfg) then SignatureOf(headers).value else "", Concat(chunks))
  {
    if Signing(cfg) && SignatureMissing(headers) then Answer(Unauthorized)
    else
      var body := Concat(chunks);
      if |body| > BodyCap then Reply(PayloadTooLarge, "", [], true)
      else Deliver(cfg, lib, secrets, if Signing(cfg) then SignatureOf(headers).value else "", body)
  }

  /**
   * `_requestListener`: GET is the handshake, POST the notification pipeline
   * (which never changes the registry), anything else is answered 405.
   */
  function Dispatch(cfg: Settings, lib: Libraries, secrets: map<string, string>, req: HttpRequest): (s: Step)
    ensures req.verb == "GET" ==> s == Handshake(lib.query(req.url), secrets)
    ensures req.verb == "POST" ==> s == Step(Notify(cfg, lib, secrets, req.headers, req.chunks), secrets)
    ensures req.verb != "GET" ==> s.registry == secrets
    ensures req.verb != "GET" && req.verb != "POST" ==> s == Step(Answer(MethodNotAllowed), secrets)
  {
    if req.verb == "GET" then Handshake(lib.query(req.url), secrets)
    else if req.verb == "POST" then Step(Notify(cfg, lib, secrets, req.headers, req.chunks), secrets)
    else Step(Answer(MethodNotAllowed), secrets)
  }
}
