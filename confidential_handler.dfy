/** `GhaConfidentialClientHttpAuthenticationHandler` (`GhaConfidentialClientCredentialHandler.js`
    of the MSAL client library): an HTTP request handler that sends a bearer token and, when a
    request is refused, acquires a fresh token for its resource and re-sends the request once. */
module ConfidentialHandler {
  import opened Wrappers
  import opened Msal
  import opened ActionsCore

  const NullAuthResult := "Authentication result is null."

  /** `Bearer ${accessToken || ''}`. */
  function BearerValue(stored: Option<string>): (auth: string)
    ensures stored.Some? ==> auth == "Bearer " + stored.value
    ensures stored.None? ==> auth == "Bearer "
  {
    "Bearer " + stored.GetOr("")
  }

  /** The stored token after one authentication: a granted token replaces it, anything else
      leaves it. */
  function StoredAfter(stored: Option<string>, outcome: TokenOutcome): Option<string>
  {
    if outcome.Acquired? then Some(outcome.result.accessToken) else stored
  }

  /** The stored token after a run of authentications, in order. */
  function StoredAfterAll(stored: Option<string>, outcomes: seq<TokenOutcome>): Option<string>
  {
    if outcomes == [] then stored
    else StoredAfter(StoredAfterAll(stored, outcomes[..|outcomes| - 1]), outcomes[|outcomes| - 1])
  }

  /** The token of the last granted authentication, if any. */
  function LastGranted(outcomes: seq<TokenOutcome>): (r: Option<string>)
    ensures r.Some? ==> exists i :: 0 <= i < |outcomes| && outcomes[i].Acquired? && outcomes[i].result.accessToken == r.value
    ensures r.None? ==> forall i :: 0 <= i < |outcomes| ==> !outcomes[i].Acquired?
  {
    if outcomes == [] then None
    else if outcomes[|outcomes| - 1].Acquired? then Some(outcomes[|outcomes| - 1].result.accessToken)
    else LastGranted(outcomes[..|outcomes| - 1])
  }

  /** After any run of authentications the handler holds the last granted token, or the one it
      started with when none was granted; so every later request carries the last token granted. */
  lemma {:induction false} StoredIsLastGranted(stored: Option<string>, outcomes: seq<TokenOutcome>)
    ensures StoredAfterAll(stored, outcomes) == (if LastGranted(outcomes).Some? then LastGranted(outcomes) else stored)
  {
    if outcomes != [] {
      StoredIsLastGranted(stored, outcomes[..|outcomes| - 1]);
    }
  }

  /** A fresh handler sends `Bearer ` with no token until one is granted, and after a run of
      authentications the token of the last one granted. */
  lemma FreshHandlerSendsLastGranted(outcomes: seq<TokenOutcome>)
    ensures BearerValue(StoredAfterAll(None, outcomes))
            == (if LastGranted(outcomes).Some? then "Bearer " + LastGranted(outcomes).value else "Bearer ")
  {
    StoredIsLastGranted(None, outcomes);
  }

  /** The request options the handler edits. */
  class RequestOptions {
    var auth: string

    constructor (auth: string)
      ensures this.auth == auth
    {
      this.auth := auth;
    }
  }

  class Handler {
    const config: AuthConfig
    const resource: string
    var accessToken: Option<string>

    /** `new GhaConfidentialClientHttpAuthenticationHandler(msalApp, resource)`: no token yet. */
    constructor (config: AuthConfig, resource: string)
      ensures this.config == config && this.resource == resource && accessToken.None?
    {
      this.config := config;
      this.resource := resource;
      accessToken := None;
    }

    /** `prepareRequest(options)`: the bearer value of the stored token. */
    method PrepareRequest(options: RequestOptions)
      modifies options
      ensures options.auth == BearerValue(accessToken)
    {
      options.auth := "Bearer " + accessToken.GetOr("");
    }

    /** `canHandleAuthentication()`: the handler takes on every refused request. */
    function CanHandleAuthentication(): (b: bool)
      ensures b
    {
      true
    }

    /** `handleAuthentication(httpClient, requestInfo, data)`: one token request for
        `<resource>/.default`; a null result throws and the stored token and the request stay as
        they were; a granted token is stored, set on the request, and the request is re-sent once,
        settling as the re-sent request does. */
    method HandleAuthentication<R>(host: Host, ext: Externals, options: RequestOptions, resend: string -> Result<R>)
      returns (r: Result<R>)
      modifies this, host, options
      ensures var outcome := ext.tokens(config, [DefaultScope(resource)]);
              && accessToken == StoredAfter(old(accessToken), outcome)
              && host.state == old(host.state)
              && (outcome.Acquired? ==>
                    && options.auth == "Bearer " + outcome.result.accessToken
                    && host.trace == old(host.trace) + [TokenRequested(config, [DefaultScope(resource)]), Resent(options.auth)]
                    && r == resend(options.auth))
              && (!outcome.Acquired? ==>
                    && options.auth == old(options.auth)
                    && host.trace == old(host.trace) + [TokenRequested(config, [DefaultScope(resource)])]
                    && r == Err(if outcome.NullResult? then AuthError(NullAuthResult) else outcome.error))
    {
      var outcome := host.AcquireToken(ext, config, [DefaultScope(resource)]);
      if outcome.Rejected? {
        return Err(outcome.error);
      }
      if outcome.NullResult? {
        return Err(AuthError(NullAuthResult));
      }
      accessToken := Some(outcome.result.accessToken);
      PrepareRequest(options);
      host.Emit(Resent(options.auth));
      r := resend(options.auth);
    }
  }
}
