/**
 * The constructor's option handling (src/index.js:35-60): the two required
 * options are checked in order, then the defaults are filled in.
 */
module Config {
  import opened Wrappers
  import opened Errors
  import opened Json

  /** `options.listen`: where the callback server binds. */
  datatype ListenOptions = ListenOptions(host: Option<string>, port: Option<int>)

  /** The options object handed to the constructor; `None` is an absent property. */
  datatype Options = Options(
    clientId: Option<string>,      // CLIENT_ID
    callback: Option<string>,      // CALLBACK
    secret: Option<string>,
    leaseSeconds: Option<int>,     // lease_seconds
    listen: Option<ListenOptions>,
    baseApiUrl: Option<string>)

  /** The configuration a constructed instance works with. */
  datatype Settings = Settings(
    clientId: string,
    callback: string,
    secret: Option<string>,
    leaseSeconds: int,
    host: string,
    port: int,
    apiUrl: string,
    hubUrl: string)

  const DefaultLeaseSeconds := 864000
  const DefaultHost := "0.0.0.0"
  const DefaultPort := 8443
  const DefaultApiUrl := "https://api.twitch.tv/helix/"
  const HubPath := "webhooks/hub"

  /** `v || fallback` on a string option: an absent or empty string falls back. */
  function OrString(v: Option<string>, fallback: string): (r: string)
    ensures v.Some? && v.value != "" ==> r == v.value
    ensures v.None? || v.value == "" ==> r == fallback
  {
    if v.Some? && v.value != "" then v.value else fallback
  }

  /** `v || fallback` on a number option: an absent or zero number falls back. */
  function OrNumber(v: Option<int>, fallback: int): (r: int)
    ensures v.Some? && v.value != 0 ==> r == v.value
    ensures v.None? || v.value == 0 ==> r == fallback
  {
    if v.Some? && v.value != 0 then v.value else fallback
  }

  /** Notifications are signed exactly when the configured secret is truthy. */
  predicate Signing(s: Settings)
    ensures Signing(s) <==> s.secret.Some? && Truthy(Str(s.secret.value))
  {
    s.secret.Some? && s.secret.value != ""
  }

  /**
   * What the constructor does with its options: fail on a missing client ID
   * (checked first), then on a missing callback, and otherwise fill in the
   * defaults. Only an absent `lease_seconds` is defaulted, while host, port and
   * API URL fall back whenever they are falsy.
   */
  function Configure(opts: Options): (r: Result<Settings, Error>)
    ensures r.Failure? <==> opts.clientId.None? || opts.callback.None?
    ensures opts.clientId.None? ==> r == Failure(FatalError(MissingClientId))
    ensures opts.clientId.Some? && opts.callback.None? ==> r == Failure(FatalError(MissingCallback))
    ensures r.Failure? ==> IsFatal(r.error)
    ensures r.Success? ==>
      r.value.clientId == opts.clientId.value && r.value.callback == opts.callback.value &&
      r.value.secret == opts.secret &&
      (opts.leaseSeconds.Some? ==> r.value.leaseSeconds == opts.leaseSeconds.value) &&
      (opts.leaseSeconds.None? ==> r.value.leaseSeconds == DefaultLeaseSeconds) &&
      r.value.host != "" && r.value.port != 0 && r.value.apiUrl != "" &&
      r.value.hubUrl == r.value.apiUrl + HubPath
    ensures r.Success? ==>
      r.value.apiUrl == OrString(opts.baseApiUrl, DefaultApiUrl) &&
      (opts.listen.None? ==> r.value.host == DefaultHost && r.value.port == DefaultPort) &&
      (opts.listen.Some? ==>
        r.value.host == OrString(opts.listen.value.host, DefaultHost) &&
        r.value.port == OrNumber(opts.listen.value.port, DefaultPort))
  {
    if opts.clientId.None? then Failure(FatalError(MissingClientId))
    else if opts.callback.None? then Failure(FatalError(MissingCallback))
    else
      var listen := opts.listen.GetOr(ListenOptions(None, None));
      var apiUrl := OrString(opts.baseApiUrl, DefaultApiUrl);
      Success(Settings(
        opts.clientId.value,
        opts.callback.value,
        opts.secret,
        if opts.leaseSeconds.None? then DefaultLeaseSeconds else opts.leaseSeconds.value,
        OrString(listen.host, DefaultHost),
        OrNumber(listen.port, DefaultPort),
        apiUrl,
        apiUrl + HubPath))
  }

  /** The identifiers are only checked for presence: an empty client ID is accepted. */
  lemma EmptyIdentifiersAccepted(opts: Options)
    requires opts.clientId == Some("") && opts.callback == Some("")
    ensures Configure(opts).Success? && Configure(opts).value.clientId == ""
  {
  }

  /** An explicit lease of 0 seconds is kept, unlike a port of 0 or an empty base URL. */
  lemma ZeroLeaseKept(opts: Options)
    requires opts.clientId.Some? && opts.callback.Some? && opts.leaseSeconds == Some(0)
    requires opts.listen == Some(ListenOptions(Some(""), Some(0))) && opts.baseApiUrl == Some("")
    ensures var s := Configure(opts).value;
      s.leaseSeconds == 0 && s.host == DefaultHost && s.port == DefaultPort &&
      s.apiUrl == DefaultApiUrl && s.hubUrl == "https://api.twitch.tv/helix/webhooks/hub"
  {
  }
}
