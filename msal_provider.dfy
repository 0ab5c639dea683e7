/** `GhaMsalAccessTokenProvider` of the `ms-idp-workflow-run-auth` action, in its CommonJS
    (`.js`) and ES module (`.mjs`) forms: the MSAL configuration its constructor selects from the
    shape of the credential argument, and `acquireAccessToken(resource)`. */
module MsalProvider {
  import opened Wrappers
  import opened Msal
  import opened ActionsCore
  import opened JwtMasking

  /** The `assertionInfo` argument as a JavaScript value: a string, `undefined`, or an object whose
      properties are given; an absent or empty string-valued property is "" (falsy), and
      `clientSecret` is `None` when the object has no such key. */
  datatype AssertionInfo =
    | AssertionText(text: string)
    | AssertionObject(clientSecret: Option<string>, privateKey: string, thumbprint: string, x5c: Option<string>)
    | AssertionUndefined

  /** `buildNodeSystemOptions(httpClient)`: the given client (or a new one when none is given)
      wrapped by the network module, and the logger options. */
  function NodeSystemOptions(httpClient: Option<string>): (system: SystemOptions)
    ensures system.loggerConfigured
    ensures httpClient.Some? ==> system.networkClient == SuppliedClient(httpClient.value)
    ensures httpClient.None? ==> system.networkClient == FreshClient
  {
    match httpClient
    case Some(name) => SystemOptions(SuppliedClient(name), true)
    case None => SystemOptions(FreshClient, true)
  }

  /** The configuration before any credential is set: client id, tenant, the instance or the
      public cloud when none (or "") is given, and the system options. */
  function BaseConfig(httpClient: Option<string>, clientId: string, tenantId: string, instance: string): (config: AuthConfig)
    ensures config.clientId == clientId && config.tenant == tenantId
    ensures config.azureCloudInstance == (if instance == "" then AzurePublic else instance)
    ensures config.clientAssertion.None? && config.clientSecret.None? && config.clientCertificate.None?
  {
    AuthConfig(clientId, tenantId, if instance == "" then AzurePublic else instance, None, None, None, NodeSystemOptions(httpClient))
  }

  /** A constructed provider: the client id it remembers and the configuration of its MSAL
      application; neither changes afterwards. */
  datatype AccessTokenProvider = AccessTokenProvider(clientId: string, config: AuthConfig)

  /** Whether an object argument carries a usable certificate (`privateKey && thumbprint`). */
  predicate HasCertificate(info: AssertionInfo)
  {
    info.AssertionObject? && info.privateKey != "" && info.thumbprint != ""
  }

  /** The certificate of an object argument. */
  function CertificateOf(info: AssertionInfo): ClientCertificate
    requires info.AssertionObject?
  {
    ClientCertificate(info.thumbprint, info.privateKey, info.x5c)
  }

  /** The configuration the CommonJS constructor builds: a string is the client assertion, an
      object with a private key and a thumbprint the client certificate; anything else sets no
      credential. */
  function CjsConfig(httpClient: Option<string>, clientId: string, info: AssertionInfo, tenantId: string, instance: string): AuthConfig
  {
    var base := BaseConfig(httpClient, clientId, tenantId, instance);
    if info.AssertionText? then base.(clientAssertion := Some(info.text))
    else if HasCertificate(info) then base.(clientCertificate := Some(CertificateOf(info)))
    else base
  }

  /** `new GhaMsalAccessTokenProvider(...)` of the `.js` file. */
  method NewCjsProvider(httpClient: Option<string>, clientId: string, info: AssertionInfo, tenantId: string, instance: string)
    returns (p: AccessTokenProvider)
    ensures p == AccessTokenProvider(clientId, CjsConfig(httpClient, clientId, info, tenantId, instance))
  {
    var config := BaseConfig(httpClient, clientId, tenantId, instance);
    if info.AssertionText? {
      config := config.(clientAssertion := Some(info.text));
    } else if info.AssertionObject? && info.privateKey != "" && info.thumbprint != "" {
      config := config.(clientCertificate := Some(ClientCertificate(info.thumbprint, info.privateKey, info.x5c)));
    }
    p := AccessTokenProvider(clientId, config);
  }

  /** The CommonJS selection: at most one credential is set; a string sets exactly the assertion,
      an object with both a private key and a thumbprint exactly that certificate (a client secret
      in it is ignored), and any other argument none; the rest of the configuration is the base. */
  lemma CjsConfigSelection(httpClient: Option<string>, clientId: string, info: AssertionInfo, tenantId: string, instance: string)
    ensures var config := CjsConfig(httpClient, clientId, info, tenantId, instance);
            && config.clientSecret.None?
            && (config.clientAssertion.Some? <==> info.AssertionText?)
            && (config.clientAssertion.Some? ==> config.clientAssertion.value == info.text)
            && (config.clientCertificate.Some? <==> HasCertificate(info))
            && (config.clientCertificate.Some? ==> config.clientCertificate.value == CertificateOf(info))
            && config.(clientAssertion := None, clientCertificate := None) == BaseConfig(httpClient, clientId, tenantId, instance)
  {
  }

  const InOperatorOnUndefined := "Cannot use 'in' operator to search for 'clientSecret' in undefined"

  /** The configuration the ES module constructor builds: a string is the client assertion; then
      an object with a `clientSecret` key sets the client secret, and only otherwise one with a
      private key and a thumbprint the certificate. Testing `'clientSecret' in undefined` raises a
      TypeError. */
  function EsmConfig(httpClient: Option<string>, clientId: string, info: AssertionInfo, tenantId: string, instance: string): Result<AuthConfig>
  {
    var base := BaseConfig(httpClient, clientId, tenantId, instance);
    if info.AssertionText? then Ok(base.(clientAssertion := Some(info.text)))
    else if info.AssertionUndefined? then Err(TypeError(InOperatorOnUndefined))
    else if info.clientSecret.Some? then Ok(base.(clientSecret := Some(info.clientSecret.value)))
    else if HasCertificate(info) then Ok(base.(clientCertificate := Some(CertificateOf(info))))
    else Ok(base)
  }

  /** `new GhaMsalAccessTokenProvider(...)` of the `.mjs` file. */
  method NewEsmProvider(httpClient: Option<string>, clientId: string, info: AssertionInfo, tenantId: string, instance: string)
    returns (r: Result<AccessTokenProvider>)
    ensures EsmConfig(httpClient, clientId, info, tenantId, instance).Ok? ==>
              r == Ok(AccessTokenProvider(clientId, EsmConfig(httpClient, clientId, info, tenantId, instance).value))
    ensures EsmConfig(httpClient, clientId, info, tenantId, instance).Err? ==>
              r == Err(EsmConfig(httpClient, clientId, info, tenantId, instance).error)
  {
    var config := BaseConfig(httpClient, clientId, tenantId, instance);
    if info.AssertionText? {
      config := config.(clientAssertion := Some(info.text));
    } else if info.AssertionUndefined? {
      return Err(TypeError(InOperatorOnUndefined));
    } else if info.clientSecret.Some? {
      config := config.(clientSecret := Some(info.clientSecret.value));
    } else if info.privateKey != "" && info.thumbprint != "" {
      config := config.(clientCertificate := Some(ClientCertificate(info.thumbprint, info.privateKey, info.x5c)));
    }
    r := Ok(AccessTokenProvider(clientId, config));
  }

  /** The ES module selection: construction fails only on `undefined`; at most one credential is
      set; the secret check comes first, so an object with a `clientSecret` key never configures
      its certificate. */
  lemma EsmConfigSelection(httpClient: Option<string>, clientId: string, info: AssertionInfo, tenantId: string, instance: string)
    ensures var r := EsmConfig(httpClient, clientId, info, tenantId, instance);
            && (r.Err? <==> info.AssertionUndefined?)
            && (r.Ok? ==>
                  && (r.value.clientAssertion.Some? <==> info.AssertionText?)
                  && (r.value.clientSecret.Some? <==> info.AssertionObject? && info.clientSecret.Some?)
                  && (r.value.clientSecret.Some? ==> r.value.clientSecret == info.clientSecret)
                  && (r.value.clientCertificate.Some? <==> HasCertificate(info) && info.clientSecret.None?)
                  && (r.value.clientCertificate.Some? ==> r.value.clientCertificate.value == CertificateOf(info))
                  && r.value.(clientAssertion := None, clientSecret := None, clientCertificate := None)
                     == BaseConfig(httpClient, clientId, tenantId, instance))
  {
  }

  /** The two variants agree on every argument the CommonJS type admits (no `clientSecret` key,
      not `undefined`). */
  lemma VariantsAgree(httpClient: Option<string>, clientId: string, info: AssertionInfo, tenantId: string, instance: string)
    requires !info.AssertionUndefined?
    requires info.AssertionObject? ==> info.clientSecret.None?
    ensures EsmConfig(httpClient, clientId, info, tenantId, instance) == Ok(CjsConfig(httpClient, clientId, info, tenantId, instance))
  {
  }

  /** Which file's `acquireAccessToken` runs: they differ only in the wording of one line. */
  datatype Variant = Cjs | Esm

  const NoResourceLine := "No resource requested for access token audience, using client id instead."
  const AcquiringCjs := "Acquiring MSAL access token for resource '"
  const AcquiringCjsEnd := "'. . ."
  const AcquiringEsm := "Acquiring MSAL access token for resource: "
  const AcquiredLine := "Sucessfully acquired MSAL access token."
  const NullAuthResult := "Authentication result is null"
  const AvailableScope := "Available scope: "

  /** The informational line announcing the request. */
  function AcquiringLine(variant: Variant, resource: string): string
  {
    match variant
    case Cjs => AcquiringCjs + resource + AcquiringCjsEnd
    case Esm => AcquiringEsm + resource
  }

  /** The resource a token is requested for: the given one, or the client id when it is falsy. */
  function EffectiveResource(p: AccessTokenProvider, resource: string): (r: string)
    ensures resource != "" ==> r == resource
    ensures resource == "" ==> r == p.clientId
  {
    if resource == "" then p.clientId else resource
  }

  /** One debug line per granted scope, in order. */
  function ScopeLines(scopes: seq<string>): (es: seq<Event>)
    ensures |es| == |scopes|
    ensures forall i :: 0 <= i < |scopes| ==> es[i] == Log(Debug, AvailableScope + scopes[i])
  {
    if scopes == [] then [] else [Log(Debug, AvailableScope + scopes[0])] + ScopeLines(scopes[1..])
  }

  /** The lines before the token request. */
  function RequestPrelude(variant: Variant, p: AccessTokenProvider, resource: string): seq<Event>
  {
    (if resource == "" then [Log(Debug, NoResourceLine)] else [])
      + [Log(Info, AcquiringLine(variant, EffectiveResource(p, resource)))]
  }

  /** The effects that follow a successful request. */
  function SuccessEvents(result: AuthResult, debug: bool, decode: string -> Option<string>): seq<Event>
  {
    [Log(Info, AcquiredLine)] + OnJwtToken(result.accessToken, debug, decode)
      + (if debug then ScopeLines(result.scopes) else [])
  }

  /** `acquireAccessToken(resource)` given the token service's answer. */
  function AcquireEffects(variant: Variant, p: AccessTokenProvider, resource: string, outcome: TokenOutcome,
                          debug: bool, decode: string -> Option<string>): Effects<AuthResult>
  {
    var requested := RequestPrelude(variant, p, resource)
      + [TokenRequested(p.config, [DefaultScope(EffectiveResource(p, resource))])];
    match outcome
    case Rejected(e) => Effects(requested, Err(e))
    case NullResult => Effects(requested, Err(AuthError(NullAuthResult)))
    case Acquired(result) => Effects(requested + SuccessEvents(result, debug, decode), Ok(result))
  }

  /** Exactly one token request is made, for the single scope `<resource>/.default` with the
      client id standing in for a falsy resource; a null answer is an `AuthError`; an answer is
      returned unchanged, and its access token (with its signature segment) is what is masked;
      nothing is masked when no token was granted. */
  lemma {:induction false} AcquireContract(variant: Variant, p: AccessTokenProvider, resource: string, ext: Externals, debug: bool)
    ensures var scope := DefaultScope(if resource == "" then p.clientId else resource);
            var run := AcquireEffects(variant, p, resource, ext.tokens(p.config, [scope]), debug, ext.base64UrlDecode);
            && Project(run.events, IsTokenRequest) == [TokenRequested(p.config, [scope])]
            && (ext.tokens(p.config, [scope]).NullResult? ==> run.result == Err(AuthError(NullAuthResult)))
            && (ext.tokens(p.config, [scope]).Acquired? <==> run.result.Ok?)
            && (run.result.Ok? ==> run.result.value == ext.tokens(p.config, [scope]).result
                                   && Masked(run.events) == Masked(MaskEvents(run.result.value.accessToken)))
            && (run.result.Err? ==> Masked(run.events) == {})
  {
    var scope := DefaultScope(if resource == "" then p.clientId else resource);
    var outcome := ext.tokens(p.config, [scope]);
    var prelude := RequestPrelude(variant, p, resource);
    var requested := prelude + [TokenRequested(p.config, [scope])];
    assert forall i :: 0 <= i < |prelude| ==> prelude[i].Log?;
    ProjectLast(prelude, TokenRequested(p.config, [scope]), IsTokenRequest);
    MaskedConcat(prelude, [TokenRequested(p.config, [scope])]);
    MaskedOne(TokenRequested(p.config, [scope]));
    assert Masked(prelude) == {} by {
      if resource == "" {
        MaskedConcat([Log(Debug, NoResourceLine)], [Log(Info, AcquiringLine(variant, p.clientId))]);
        MaskedOne(Log(Debug, NoResourceLine));
      }
      MaskedOne(Log(Info, AcquiringLine(variant, EffectiveResource(p, resource))));
    }
    if outcome.Acquired? {
      var result := outcome.result;
      var after := SuccessEvents(result, debug, ext.base64UrlDecode);
      ProjectConcat(requested, after, IsTokenRequest);
      SuccessEventsFacts(result, debug, ext.base64UrlDecode);
      ProjectNone(after, IsTokenRequest);
      MaskedConcat(requested, after);
    }
  }

  predicate IsTokenRequest(e: Event) { e.TokenRequested? }

  /** Apart from log lines and masking calls, acquiring a token records only the one request. */
  lemma AcquireMilestones(variant: Variant, p: AccessTokenProvider, resource: string, outcome: TokenOutcome,
                          debug: bool, decode: string -> Option<string>)
    ensures Project(AcquireEffects(variant, p, resource, outcome, debug, decode).events, IsMilestone)
            == [TokenRequested(p.config, [DefaultScope(EffectiveResource(p, resource))])]
  {
    var request := TokenRequested(p.config, [DefaultScope(EffectiveResource(p, resource))]);
    var prelude := RequestPrelude(variant, p, resource);
    assert forall i :: 0 <= i < |prelude| ==> prelude[i].Log?;
    ProjectLast(prelude, request, IsMilestone);
    if outcome.Acquired? {
      var after := SuccessEvents(outcome.result, debug, decode);
      SuccessEventsFacts(outcome.result, debug, decode);
      ProjectNone(after, IsMilestone);
      ProjectConcat(prelude + [request], after, IsMilestone);
    }
  }

  /** After a grant come only the success line, masking calls and debug lines; they mask exactly
      what `onJwtToken` masks. */
  lemma SuccessEventsFacts(result: AuthResult, debug: bool, decode: string -> Option<string>)
    ensures var es := SuccessEvents(result, debug, decode);
            && (forall i :: 0 <= i < |es| ==> es[i].Log? || es[i].Secret?)
            && Masked(es) == Masked(MaskEvents(result.accessToken))
  {
    var jwt := OnJwtToken(result.accessToken, debug, decode);
    var scopes := if debug then ScopeLines(result.scopes) else [];
    MaskedOne(Log(Info, AcquiredLine));
    MaskedConcat([Log(Info, AcquiredLine)], jwt);
    MaskedConcat([Log(Info, AcquiredLine)] + jwt, scopes);
    assert Masked(scopes) == {} by {
      if debug {
        assert forall i :: 0 <= i < |scopes| ==> !scopes[i].Secret?;
      }
    }
  }

  /** `acquireAccessToken(resource)` on the runner. */
  method AcquireAccessToken(host: Host, ext: Externals, variant: Variant, p: AccessTokenProvider, resource: string)
    returns (r: Result<AuthResult>)
    modifies host
    ensures var run := AcquireEffects(variant, p, resource, ext.tokens(p.config, [DefaultScope(EffectiveResource(p, resource))]), host.debug, ext.base64UrlDecode);
            host.trace == old(host.trace) + run.events && r == run.result
    ensures host.state == old(host.state)
  {
    ghost var t0 := host.trace;
    var effective := resource;
    if effective == "" {
      effective := p.clientId;
      host.Emit(Log(Debug, NoResourceLine));
    }
    host.Emit(Log(Info, AcquiringLine(variant, effective)));
    ghost var prelude := RequestPrelude(variant, p, resource);
    assert host.trace == t0 + prelude;
    var outcome := host.AcquireToken(ext, p.config, [DefaultScope(effective)]);
    ghost var requested := prelude + [TokenRequested(p.config, [DefaultScope(effective)])];
    AppendStretches(t0, prelude, [TokenRequested(p.config, [DefaultScope(effective)])]);
    ghost var spec := AcquireEffects(variant, p, resource, outcome, host.debug, ext.base64UrlDecode);
    match outcome {
      case Rejected(e) =>
        assert spec == Effects(requested, Err(e));
        return Err(e);
      case NullResult =>
        assert spec == Effects(requested, Err(AuthError(NullAuthResult)));
        return Err(AuthError(NullAuthResult));
      case Acquired(result) =>
        ReportSuccess(host, ext, result);
        AppendStretches(t0, requested, SuccessEvents(result, host.debug, ext.base64UrlDecode));
        assert spec == Effects(requested + SuccessEvents(result, host.debug, ext.base64UrlDecode), Ok(result));
        r := Ok(result);
    }
  }

  /** The part of `acquireAccessToken` after a grant: the success line, `onJwtToken`, and in
      debug mode the granted scopes one by one. */
  method ReportSuccess(host: Host, ext: Externals, result: AuthResult)
    modifies host
    ensures host.trace == old(host.trace) + SuccessEvents(result, host.debug, ext.base64UrlDecode)
    ensures host.state == old(host.state)
  {
    ghost var t1 := host.trace;
    host.Emit(Log(Info, AcquiredLine));
    var masking := OnJwtToken(result.accessToken, host.debug, ext.base64UrlDecode);
    host.EmitAll(masking);
    assert host.trace == t1 + ([Log(Info, AcquiredLine)] + masking);
    if host.debug {
      LogScopes(host, result.scopes);
      AppendStretches(t1, [Log(Info, AcquiredLine)] + masking, ScopeLines(result.scopes));
    }
  }

  /** `for (const scope of scopes) debug(...)`. */
  method LogScopes(host: Host, scopes: seq<string>)
    modifies host
    ensures host.trace == old(host.trace) + ScopeLines(scopes)
    ensures host.state == old(host.state)
  {
    for i := 0 to |scopes|
      invariant host.trace == old(host.trace) + ScopeLines(scopes[..i])
      invariant host.state == old(host.state)
    {
      host.Emit(Log(Debug, AvailableScope + scopes[i]));
      ScopeLinesSnoc(scopes, i);
    }
    assert scopes[..|scopes|] == scopes;
  }

  /** One more scope adds its line at the end. */
  lemma {:induction false} ScopeLinesSnoc(scopes: seq<string>, i: nat)
    requires i < |scopes|
    ensures ScopeLines(scopes[..i + 1]) == ScopeLines(scopes[..i]) + [Log(Debug, AvailableScope + scopes[i])]
  {
    var a := ScopeLines(scopes[..i + 1]);
    var b := ScopeLines(scopes[..i]) + [Log(Debug, AvailableScope + scopes[i])];
    assert |a| == |b|;
    forall k | 0 <= k < |a| ensures a[k] == b[k] {
      assert scopes[..i + 1][k] == scopes[k];
    }
  }
}
