/**
 * Properties that span several handlers: how the secrets the hub client
 * stores are the keys the notification pipeline verifies with, and how the
 * handshake's deletion affects later notifications.
 */
module Protocol {
  import opened Wrappers
  import opened Text
  import opened Config
  import opened Foreign
  import opened HubClient
  import opened CallbackServer

  /**
   * The registry invariant: secrets are only stored when signing is on, and
   * the secret stored for a topic URL is the HMAC of that URL under the
   * configured secret.
   */
  predicate Derived(cfg: Settings, lib: Libraries, secrets: map<string, string>) {
    forall k :: k in secrets ==> Signing(cfg) && secrets[k] == lib.hmac(cfg.secret.value, k)
  }

  /** An outbound request, accepted or not, keeps the invariant. */
  lemma RequestKeepsDerived(cfg: Settings, lib: Libraries, secrets: map<string, string>,
                            mode: string, topic: string, options: map<string, string>, reply: Transport)
    requires Derived(cfg, lib, secrets)
    ensures Derived(cfg, lib, RegistryAfter(secrets, cfg, BuildRequest(cfg, lib, mode, topic, options), reply))
  {
  }

  /** Every inbound request keeps the invariant. */
  lemma DispatchKeepsDerived(cfg: Settings, lib: Libraries, secrets: map<string, string>, req: HttpRequest)
    requires Derived(cfg, lib, secrets)
    ensures Derived(cfg, lib, Dispatch(cfg, lib, secrets, req).registry)
  {
  }

  /**
   * A request the hub accepted, in either mode, stores the key later
   * notifications for its topic are checked with: a notification naming that
   * topic, within the cap, whose short name is not empty and whose signature
   * is the HMAC of its body under that key, is delivered.
   */
  lemma AcceptedTopicVerifies(cfg: Settings, lib: Libraries, secrets: map<string, string>,
                              mode: string, topic: string, options: map<string, string>,
                              headers: map<string, string>, chunks: seq<string>, path: string)
    requires Signing(cfg)
    requires var endpoint := BuildRequest(cfg, lib, mode, topic, options).params.topic;
      BodyTopic(lib, Concat(chunks)) == Some(endpoint) &&
      lib.pathname(endpoint) == Some(path) && TopicName(path) != "" &&
      SignatureOf(headers) == Some(lib.hmac(lib.hmac(cfg.secret.value, endpoint), Concat(chunks))) &&
      SignatureOf(headers).value != ""
    requires |Concat(chunks)| <= BodyCap
    ensures var q := BuildRequest(cfg, lib, mode, topic, options);
      var registry := RegistryAfter(secrets, cfg, q, HttpResponse(Accepted));
      Notify(cfg, lib, registry, headers, chunks).Reply? &&
      Notify(cfg, lib, registry, headers, chunks).status == NoContent
  {
  }

  /**
   * A confirmed unsubscribe handshake for a topic URL removes its key, so a
   * later signed notification for that topic makes `createHmac` throw: the
   * pipeline has no status for it.
   */
  lemma UnsubscribedTopicThrows(cfg: Settings, lib: Libraries, secrets: map<string, string>,
                                query: map<string, string>, headers: map<string, string>,
                                chunks: seq<string>, path: string)
    requires Signing(cfg) && !SignatureMissing(headers)
    requires Mode(query) == Some("unsubscribe") && "hub.topic" in query
    requires BodyTopic(lib, Concat(chunks)) == Some(query["hub.topic"])
    requires lib.pathname(query["hub.topic"]) == Some(path) && TopicName(path) != ""
    requires |Concat(chunks)| <= BodyCap
    ensures var registry := Handshake(query, secrets).registry;
      Notify(cfg, lib, registry, headers, chunks) == Uncaught(SecretMissing)
  {
  }

  /** With signing off the registry plays no part: no entry is needed for a delivery. */
  lemma UnsignedIgnoresRegistry(cfg: Settings, lib: Libraries, s1: map<string, string>, s2: map<string, string>,
                                headers: map<string, string>, chunks: seq<string>)
    requires !Signing(cfg)
    ensures Notify(cfg, lib, s1, headers, chunks) == Notify(cfg, lib, s2, headers, chunks)
  {
  }

  /**
   * Under the invariant, a delivered signed notification carries the HMAC of
   * its body under the HMAC of its topic URL.
   */
  lemma DeliveredSignatureShape(cfg: Settings, lib: Libraries, secrets: map<string, string>,
                                headers: map<string, string>, chunks: seq<string>)
    requires Derived(cfg, lib, secrets) && Signing(cfg)
    requires var r := Notify(cfg, lib, secrets, headers, chunks); r.Reply? && r.status == NoContent
    ensures var t := BodyTopic(lib, Concat(chunks)).value;
      SignatureOf(headers) == Some(lib.hmac(lib.hmac(cfg.secret.value, t), Concat(chunks)))
  {
  }
}
