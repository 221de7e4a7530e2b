# TwitchWebhook protocol engine, modelled in Dafny

This project models the `TwitchWebhook` class of `src/index.js`. The class is both halves of a
WebSub-style subscription protocol, as used by Twitch's Helix webhooks:

- a **hub client** asks the hub to subscribe or unsubscribe a topic URL, and on acceptance
  stores a per-topic signing secret in its registry (`_secrets`);
- a **callback server** answers the hub's GET verification handshake, which may delete a
  registry entry;
- the same server accepts POSTed notifications. It checks them against the registry and emits
  them on the topic's channel and then on `*`.

Modules:

- `Wrappers`: `Option`, `Result` and `Outcome`.
- `Errors`: the taxonomy of `src/errors.js`. `RequestDenied` is a kind of `FatalError`.
- `Json`: parsed values and JavaScript truthiness.
- `Foreign`: the library calls the class makes, as function values. The model is parametric in
  HMAC-SHA256, `JSON.parse`, `url.parse`, `querystring.stringify`, `is-absolute-url` and `new Date`.
- `Text`: the string operations the pipeline uses, written out. These are `split('=')`,
  `replace` of a first occurrence, and body concatenation.
- `Config`: constructor validation and defaults.
- `HubClient`: outbound request building and interpretation of the hub's answer.
- `CallbackServer`: the handshake, the notification pipeline, the date fix-up and method
  dispatch, as functions of the request and the registry.
- `Webhook`: the class itself. It has a `secrets` field, a `Valid()` invariant, one method per
  handler, and the chunk-by-chunk body reader. Each method is proved equal to the function that
  specifies it: `Configure` for construction, `Concat` for the body reader, and the `HubClient`
  or `CallbackServer` function for each handler.
- `Protocol`: properties spanning several handlers. The registry invariant is that every stored
  secret is the HMAC of its topic URL. The key stored on acceptance is the key notifications are
  checked with. A confirmed unsubscribe makes later signed notifications for that topic throw.

The model follows `src/index.js` as written. A later version of the library behaves differently,
and this model does not follow it in these places:

- The topic comes from the body's `topic` field, not from a `Link` header.
- Failures are answered with 400, 401 or 413, not 202, and they emit no `webhook-error` event.
- A delivered notification is answered with 204, and its payload is `{topic, event}`.
- `started_at` is converted only at the top level of the body.
- `unsubscribe('*')` is one request for the topic `'*'`, with no fan-out.
- Option names are `CLIENT_ID` and `CALLBACK`, and URLs are not normalised to end in `/`.

Two further facts about `src/index.js` as written: a transport failure becomes
`FatalError(message)` (src/index.js:174-176), and `lease_seconds` is used as given, with no
sign check (src/index.js:47-49, :160).

## Model

| member | source | states |
|---|---|---|
| Config.Configure | src/index.js:35-60 | a missing client ID fails first with its message, then a missing callback; otherwise lease defaults only when absent; host, port and API URL are the given value when truthy and the default otherwise (never empty or zero); hub URL is API URL + `webhooks/hub` |
| Errors.IsFatal | src/errors.js:37 | `RequestDenied` extends `FatalError`: every error except `WebhookError` is a `FatalError` |
| Json.Truthy | src/index.js:310-313 | `null`, `false`, `0` and `''` are falsy; every string of length ≥ 1, non-zero number, array, object and `Date` is truthy |
| Config.Signing | src/index.js:163 | signing is on exactly when the configured secret is present and truthy (a non-empty string) |
| Config.OrString | src/index.js:52-57 | `v \|\| fallback` on strings: a non-empty given value is kept, an absent or empty one gives the fallback |
| Config.OrNumber | src/index.js:53 | `v \|\| fallback` on numbers: a non-zero given value is kept, an absent or zero one gives the fallback |
| Config.EmptyIdentifiersAccepted | src/index.js:36-42 | only presence is checked: an empty client ID and callback are accepted |
| Config.ZeroLeaseKept | src/index.js:47-57 | an explicit lease of 0 is kept while an empty host, port 0 and empty base URL take their defaults |
| Webhook.Create | src/index.js:35-42 | construction fails exactly when `Configure` fails, with the same error; otherwise a fresh instance with an empty, valid registry |
| Webhook.TwitchWebhook.constructor | src/index.js:44-60 | fills in the defaults one option at a time, agreeing with `Configure`; the registry starts empty |
| HubClient.Endpoint | src/index.js:144-149 | relative topics are prefixed with the API URL, absolute ones kept; `?` and the query string are appended exactly when options are non-empty |
| HubClient.BuildRequest | src/index.js:151-170 | the request goes to the hub URL with the client ID header; `hub.callback`, `hub.mode` and `hub.lease_seconds` are the configured callback, the given mode and the configured lease; `hub.topic` is the canonical URL; `hub.secret` is present iff signing is on and is then the HMAC of that URL under the configured secret |
| HubClient.Interpret | src/index.js:172-180 | only 202 succeeds; any other status is `RequestDenied(status)`, a transport failure `FatalError(message)`; every failure is a `FatalError` |
| HubClient.RegistryAfter | src/index.js:181-184 | no key but the request's topic ever changes; the registry changes only on success with signing on, and then holds the request's secret at that topic |
| HubClient.ModesDifferOnlyInMode | src/index.js:194-205 | the subscribe and unsubscribe requests are identical except for `hub.mode` |
| HubClient.WildcardIsPlainTopic | src/index.js:203-205 | `unsubscribe('*')` sends one request for `apiUrl + '*'` |
| HubClient.StreamsTopicExample | src/index.js:144-149 | with no `baseApiUrl` configured, `streams` with `user_id=12826` gives `https://api.twitch.tv/helix/streams?user_id=12826` |
| Webhook.TwitchWebhook.Request | src/index.js:143-186 | sends `BuildRequest`'s request, settles as `Interpret`, leaves the registry as `RegistryAfter`, keeps the invariant |
| Webhook.TwitchWebhook.Subscribe | src/index.js:194-196 | `Request` with mode `subscribe` |
| Webhook.TwitchWebhook.Unsubscribe | src/index.js:203-205 | `Request` with mode `unsubscribe`; an accepted unsubscribe also stores the secret |
| Json.Property | src/index.js:310 | property access gives a value exactly for an object that has the key |
| CallbackServer.Mode | src/index.js:224 | `queries['hub.mode']`: present exactly when the query has `hub.mode`, and then its value |
| CallbackServer.Challenge | src/index.js:235 | the text written back: the `hub.challenge` value, or nothing when it is missing |
| CallbackServer.DeletedKey | src/index.js:232 | the key `delete` removes: the `hub.topic` value, or the property name `"undefined"` when it is missing |
| CallbackServer.Handshake | src/index.js:221-243 | 200 iff mode is denied/subscribe/unsubscribe, else 400 with no event and no change; one event on the mode's channel with the query; challenge echoed for subscribe/unsubscribe, empty body for denied; registry only shrinks, and only on unsubscribe |
| CallbackServer.UnsubscribeRemovesTopic | src/index.js:231-232 | an unsubscribe handshake removes exactly the `hub.topic` key (`"undefined"` when missing), present or not |
| CallbackServer.SubscribeHandshakeExample | src/index.js:233-238 | `hub.mode=subscribe&hub.challenge=ABC` is answered 200 `ABC` with one `subscribe` event carrying the query |
| Webhook.TwitchWebhook.ProcessConnection | src/index.js:221-243 | the switch with its fall-through, equal to `Handshake` on the parsed query |
| CallbackServer.SignatureOf | src/index.js:276-278 | a signature exists iff the header exists and contains `=`; it is the `=`-free text after the first `=` and before the next one or the end |
| CallbackServer.SignatureMissing | src/index.js:280 | `!signature`: the signature is missing exactly when it is absent or not truthy (empty) |
| CallbackServer.SignatureOfShape | src/index.js:276-278 | conversely, `scheme=sig` and `scheme=sig=rest` with `=`-free scheme and sig carry exactly `sig` |
| Text.Split | src/index.js:278 | `split` on one character always yields at least one piece |
| Text.JoinSplit | src/index.js:278 | joining the pieces of `split('=')` with `=` gives back the header |
| Text.SplitPiecesFree | src/index.js:278 | no piece of a split contains the separator |
| Text.SplitCount | src/index.js:278 | a split has a second piece iff the separator occurs |
| Text.SecondPiece | src/index.js:278 | the second piece lies between the first separator and the next one or the end |
| Text.SplitNoSeparator | src/index.js:278 | a string without the separator splits into itself |
| Text.SplitAtFirst | src/index.js:278 | splitting peels off the separator-free text before the first separator |
| Text.IndexOf | src/index.js:312 | the result is an occurrence of the pattern, and none occurs earlier; none means no occurrence |
| Text.ReplaceFirst | src/index.js:312 | without an occurrence `replace` changes nothing; otherwise only the first occurrence is swapped, keeping both sides |
| CallbackServer.TopicName | src/index.js:310-312 | the topic name is the pathname with its first `/helix/` cut out, or the pathname itself when it has none |
| CallbackServer.TopicNameStripsPrefix | src/index.js:310-312 | the topic name of `/helix/` + rest is rest |
| CallbackServer.FixDate | src/index.js:253-264 | `users/follows` converts top-level `timestamp`, `streams` top-level `started_at` (set even if absent), every other field and topic unchanged |
| CallbackServer.TopicValue | src/index.js:310 | `data && data.topic`: a value exactly when the body is an object with a `topic` key, and then that key's value; any falsy body gives none |
| CallbackServer.BodyTopic | src/index.js:310-313 | a body names a topic exactly when it parses to an object whose `topic` is a non-empty string, and the topic is that string |
| CallbackServer.Deliver | src/index.js:300-341 | unparseable body, falsy topic or empty topic name give 400; a truthy non-string topic or a null pathname throws; with signing, an unknown topic throws and an HMAC mismatch gives 401; otherwise 204 with payload `{topic: name, event: FixDate(name, data)}` emitted on `name` then `*`; hence statuses 204/400/401 or a throw; events only on 204, then exactly topic channel then `*` with one payload; 204 with signing means the HMAC of the body under the stored secret equals the signature; a throw for a missing secret only with signing on and the topic absent |
| Text.Concat | src/index.js:289 | the accumulated body is at least as long as every chunk in it |
| Text.ConcatSnoc | src/index.js:289 | each chunk appends its text to the body |
| Text.ConcatPrefixShorter | src/index.js:289-292 | the body of a prefix of the chunks is never longer than the whole |
| Webhook.ReadBody | src/index.js:287-298 | the kept body is at most 1,000,000 characters; it overflows iff all chunks together exceed the cap, and then is reset to empty, else it is all chunks concatenated |
| CallbackServer.Notify | src/index.js:273-342 | signing on and signature missing gives 401 whatever the body; 413 iff past that check the body exceeds the cap, and then the reply is exactly status 413, no body, no event and a destroyed connection; only 413 destroys the connection; within the cap the outcome is `Deliver` on the concatenated body and the header's signature; no event unless 204; 204 implies the body is within the cap and correctly signed under the stored secret |
| Webhook.TwitchWebhook.ProcessUpdates | src/index.js:273-342 | the signature check, the chunk loop and the end handler, equal to `Notify`; the registry is only read |
| CallbackServer.Dispatch | src/index.js:351-363 | GET is `Handshake` on the parsed query, POST is `Notify` with the registry unchanged; only GET can change the registry; methods other than GET and POST get 405 with no body and no event |
| Webhook.TwitchWebhook.RequestListener | src/index.js:351-363 | dispatch on the method, equal to `Dispatch`, keeping the invariant |
| Protocol.RequestKeepsDerived | src/index.js:163-184 | an outbound request keeps every stored secret equal to the HMAC of its topic URL |
| Protocol.DispatchKeepsDerived | src/index.js:224-238 | inbound requests keep that invariant |
| Protocol.AcceptedTopicVerifies | src/index.js:319-329 | after an accepted request in either mode, a notification for its topic signed with the stored key is delivered |
| Protocol.UnsubscribedTopicThrows | src/index.js:320-323 | after an unsubscribe handshake for a topic, a signed notification for it throws from `createHmac` |
| Protocol.UnsignedIgnoresRegistry | src/index.js:319-330 | with signing off the registry does not affect the pipeline |
| Protocol.DeliveredSignatureShape | src/index.js:319-329 | under the invariant, a delivered signed notification carries HMAC(HMAC(secret, topic URL), body) |

## Left out

- Server lifecycle (src/index.js:62-131) is I/O and is not modelled: creating the http or https server, `listen`, `close`, `isListening`, `autoStart`, and forwarding `error`/`listening`. A destroyed connection is the `destroyed` flag of the 413 reply.
- The outbound HTTP call is an input (`Transport`): the hub's status, or a transport failure with its message. request-promise's own rejection of non-2xx statuses is not modelled.
- HMAC-SHA256, `JSON.parse`, `url.parse`, `querystring.stringify`, `is-absolute-url` and `new Date` are abstract function values, so nothing is proved about what they compute.
- Event-emitter delivery and listener registration are left out. Events are an ordered list of (channel, payload). Emitting on a topic channel named `error` with no listener throws in Node, and that is not modelled.
- Concurrent requests on the shared registry are left out: each handler is one atomic step.
- `options.listen` given as `true` is not modelled: assigning `host` to a boolean throws in strict mode. `listen` is either absent or an object.
- Option, query and header values are strings. Repeated query parameters, which `url.parse` turns into arrays, are not modelled. Neither are non-string option values or a non-string secret.
- Body length is counted in the model's characters. UTF-16 code units and the per-chunk decoding of multi-byte characters are not modelled.
- Lookups in `_secrets` that hit `Object.prototype` properties (such as `toString`) are not modelled: the registry is a plain map.
- `_fixDateInResponse` overwrites a field of the freshly parsed object in place. The model updates the object's field map instead, and no other reference to that object exists.
- The messages and stacks of `src/errors.js` are not modelled. `RequestDenied` carries only the status. `WebhookError` is declared but this version never raises it.
- Webhook.TwitchWebhook: the source keeps the caller's own options object (src/index.js:46) and the constructor writes `lease_seconds`, `listen`, `listen.host`, `listen.port` and `https` into it (src/index.js:48, :51-55). `_request` and `_processUpdates` re-read `CLIENT_ID`, `CALLBACK`, `lease_seconds` and `secret` from that shared object on every call; within one `_request`, `secret` is read when the request is built (src/index.js:163) and again when the answer arrives (src/index.js:182). The model takes those values once, at construction, into `config`, and does not model the aliasing or the writes into the caller's object. So `Valid()` and `Protocol.DeliveredSignatureShape` assume the caller never changes them afterwards: a caller that changes `secret` after a 202 leaves a registry entry made with the old secret, which the model does not capture.
- Uncaught exceptions are the `Uncaught` reply, with no status. The model does not say what Node then does with the process.
