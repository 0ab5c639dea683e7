/** `GhaMsalConfidentialClientAuthenticationProvider` (`GhaMsalAuthenticationProvider.js` of the
    Microsoft Graph client library): the Graph SDK's access-token callback, answered by an MSAL
    confidential client application. */
module MsalAuthProvider {
  import opened Wrappers
  import opened Msal
  import opened ActionsCore
  import opened JwtMasking

  const NullAuthResult := "Authentication result is null"

  /** The scopes of `getAccessToken(options)`: `options.scopes`, or the Graph scope when the options
      or their scopes are absent. */
  function ScopesOf(scopes: Option<seq<string>>): seq<string>
  {
    scopes.GetOr([GraphScope])
  }

  /** `getAccessToken(options)`: one token request; a null result is an `AuthError`; a granted
      token is masked (when non-empty), then its signature segment (when non-empty), and returned. */
  function AccessTokenEffects(config: AuthConfig, scopes: Option<seq<string>>, outcome: TokenOutcome): Effects<string>
  {
    var request := [TokenRequested(config, ScopesOf(scopes))];
    match outcome
    case Rejected(e) => Effects(request, Err(e))
    case NullResult => Effects(request, Err(AuthError(NullAuthResult)))
    case Acquired(result) => Effects(request + MaskEvents(result.accessToken), Ok(result.accessToken))
  }

  /** The request asks for the given scopes, or for Microsoft Graph; the token comes back
      unchanged exactly when one was granted, after it and its signature segment were masked;
      nothing else is masked. */
  lemma AccessTokenContract(config: AuthConfig, scopes: Option<seq<string>>, outcome: TokenOutcome)
    ensures var run := AccessTokenEffects(config, scopes, outcome);
            && run.events[0] == TokenRequested(config, if scopes.Some? then scopes.value else ["https://graph.microsoft.com/.default"])
            && (run.result.Ok? <==> outcome.Acquired?)
            && (outcome.Acquired? ==> run.result.value == outcome.result.accessToken)
            && (outcome.NullResult? ==> run.result == Err(AuthError(NullAuthResult)))
            && (outcome.Rejected? ==> run.result == Err(outcome.error))
            && Masked(run.events) == (if run.result.Ok? && run.result.value != "" then
                                         {run.result.value} + (if JwtSignature(run.result.value) == "" then {} else {JwtSignature(run.result.value)})
                                       else {})
            && forall i :: 1 <= i < |run.events| ==> run.events[i].Secret?
  {
    assert GraphScope == "https://graph.microsoft.com/.default";
    var run := AccessTokenEffects(config, scopes, outcome);
    var request := [TokenRequested(config, ScopesOf(scopes))];
    MaskedOne(TokenRequested(config, ScopesOf(scopes)));
    if outcome.Acquired? {
      MaskedConcat(request, MaskEvents(outcome.result.accessToken));
    }
  }

  /** `getAccessToken` on the runner. */
  method GetAccessToken(host: Host, ext: Externals, config: AuthConfig, scopes: Option<seq<string>>) returns (r: Result<string>)
    modifies host
    ensures var spec := AccessTokenEffects(config, scopes, ext.tokens(config, ScopesOf(scopes)));
            host.trace == old(host.trace) + spec.events && r == spec.result && host.state == old(host.state)
  {
    var outcome := host.AcquireToken(ext, config, ScopesOf(scopes));
    if outcome.Rejected? {
      return Err(outcome.error);
    }
    if outcome.NullResult? {
      return Err(AuthError(NullAuthResult));
    }
    var accessToken := outcome.result.accessToken;
    host.EmitAll(MaskEvents(accessToken));
    r := Ok(accessToken);
  }
}
