/** The input and identity-token helpers of the `ms-idp-workflow-run-auth` action (`utils.mjs` and
    `utils.js`): the action inputs with their defaults, the authentication methods the action
    knows, and the request for the runner's OIDC identity token. */
module WorkflowRunUtils {
  import opened Wrappers
  import opened JsStrings
  import opened Msal
  import opened ActionsCore
  import opened CoreHelpers
  import opened JwtMasking

  /** The authentication methods of `GhaActionAuthMethod`; the input is cast, not checked, so any
      other non-empty text passes through as `Unlisted`. */
  datatype AuthMethod =
    | FederatedCredential
    | TemporaryCertificate
    | TemporarySecret
    | AcsTemporarySecret
    | Unlisted(text: string)

  const FederatedCredentialName := "ms-idp-federated-credential"
  const TemporaryCertificateName := "ms-idp-temporary-certificate"
  const TemporarySecretName := "ms-idp-temporary-secret"
  const AcsTemporarySecretName := "az-acs-temporary-secret"

  /** The string literal of an authentication method. */
  function AuthMethodName(m: AuthMethod): string
  {
    match m
    case FederatedCredential => FederatedCredentialName
    case TemporaryCertificate => TemporaryCertificateName
    case TemporarySecret => TemporarySecretName
    case AcsTemporarySecret => AcsTemporarySecretName
    case Unlisted(text) => text
  }

  /** The method a text names. */
  function ParseAuthMethod(text: string): (m: AuthMethod)
    ensures m.Unlisted? <==> text !in {FederatedCredentialName, TemporaryCertificateName, TemporarySecretName, AcsTemporarySecretName}
  {
    if text == FederatedCredentialName then FederatedCredential
    else if text == TemporaryCertificateName then TemporaryCertificate
    else if text == TemporarySecretName then TemporarySecret
    else if text == AcsTemporarySecretName then AcsTemporarySecret
    else Unlisted(text)
  }

  /** Parsing a method's name recovers the method, and naming a parsed text recovers the text. */
  lemma AuthMethodRoundTrip(m: AuthMethod, text: string)
    requires m.Unlisted? ==> ParseAuthMethod(m.text).Unlisted?
    ensures ParseAuthMethod(AuthMethodName(m)) == m
    ensures AuthMethodName(ParseAuthMethod(text)) == text
  {
  }

  const ClientIdInput := "client-id"
  const TenantIdInput := "tenant-id"
  const InstanceInput := "instance"
  const ResourceInput := "resource"
  const IdTokenAudienceInput := "id-token-audience"
  const AuthMethodInput := "auth-method"

  /** What `getActionInputs()` returns. */
  datatype ActionInputs = ActionInputs(
    clientId: string,
    tenantId: string,
    instance: string,
    resource: string,
    idTokenAudience: Option<string>,
    authMethod: AuthMethod)

  /** `text || fallback`. */
  function OrElse(text: string, fallback: string): (r: string)
    ensures text != "" ==> r == text
    ensures text == "" ==> r == fallback
  {
    if text != "" then text else fallback
  }

  /** The defaults applied to the six values read: an empty instance is the public cloud, an empty
      resource the client id, an empty audience `undefined`, an empty method the federated
      credential; present values are kept. */
  function WithDefaults(clientId: string, tenantId: string, instance: string, resource: string,
                        audience: string, authMethod: string): (v: ActionInputs)
    ensures v.clientId == clientId && v.tenantId == tenantId
    ensures v.instance == OrElse(instance, AzurePublic)
    ensures v.resource == OrElse(resource, clientId)
    ensures v.idTokenAudience.None? <==> audience == ""
    ensures v.idTokenAudience.Some? ==> v.idTokenAudience.value == audience
    ensures authMethod == "" ==> v.authMethod == FederatedCredential
    ensures authMethod != "" ==> AuthMethodName(v.authMethod) == authMethod
  {
    ActionInputs(clientId, tenantId, OrElse(instance, AzurePublic), OrElse(resource, clientId),
      if audience == "" then None else Some(audience),
      ParseAuthMethod(OrElse(authMethod, FederatedCredentialName)))
  }

  /** The value of an input that is not required (reading it cannot fail). */
  function Optional(inputs: map<string, string>, name: string): (text: string)
    ensures text == Trim(RawInput(inputs, name))
  {
    CoreGetInput(inputs, name, NoOptions).value
  }

  /** `getActionInputs()`: the two required inputs, then the four optional ones, each read through
      the logging `getInput`; reading fails only when a required input is empty. */
  function ActionInputsEffects(inputs: map<string, string>): (run: Effects<ActionInputs>)
  {
    match CoreGetInput(inputs, ClientIdInput, Required)
    case Err(e) => Effects([], Err(e))
    case Ok(clientId) =>
      match CoreGetInput(inputs, TenantIdInput, Required)
      case Err(e) => Effects([InputLine(ClientIdInput, clientId)], Err(e))
      case Ok(tenantId) =>
        var instance := Optional(inputs, InstanceInput);
        var resource := Optional(inputs, ResourceInput);
        var audience := Optional(inputs, IdTokenAudienceInput);
        var authMethod := Optional(inputs, AuthMethodInput);
        Effects(
          [InputLine(ClientIdInput, clientId), InputLine(TenantIdInput, tenantId),
           InputLine(InstanceInput, instance), InputLine(ResourceInput, resource),
           InputLine(IdTokenAudienceInput, audience), InputLine(AuthMethodInput, authMethod)],
          Ok(WithDefaults(clientId, tenantId, instance, resource, audience, authMethod)))
  }

  /** The inputs fail exactly when `client-id` or `tenant-id` is empty; on success the two are
      the trimmed inputs, the instance defaults to the public cloud and the resource to the client
      id; only debug lines are logged. */
  lemma ActionInputsContract(inputs: map<string, string>)
    ensures var run := ActionInputsEffects(inputs);
            && (run.result.Err? <==> RawInput(inputs, ClientIdInput) == "" || RawInput(inputs, TenantIdInput) == "")
            && (run.result.Ok? ==>
                  && run.result.value.clientId == Trim(RawInput(inputs, ClientIdInput))
                  && run.result.value.tenantId == Trim(RawInput(inputs, TenantIdInput))
                  && run.result.value.instance == OrElse(Trim(RawInput(inputs, InstanceInput)), AzurePublic)
                  && run.result.value.resource == OrElse(Trim(RawInput(inputs, ResourceInput)), run.result.value.clientId))
            && OnlyDebugAdded([], run.events)
  {
  }

  /** `getActionInputs()` on the runner. */
  method GetActionInputs(host: Host) returns (r: Result<ActionInputs>)
    modifies host
    ensures host.trace == old(host.trace) + ActionInputsEffects(host.inputs).events
    ensures r == ActionInputsEffects(host.inputs).result
    ensures host.state == old(host.state)
  {
    ghost var t0 := host.trace;
    var clientId := GetInput(host, ClientIdInput, Required);
    if clientId.Err? {
      return Err(clientId.error);
    }
    var tenantId := GetInput(host, TenantIdInput, Required);
    if tenantId.Err? {
      return Err(tenantId.error);
    }
    ghost var t2 := host.trace;
    AppendTwo(t0, InputLine(ClientIdInput, clientId.value), InputLine(TenantIdInput, tenantId.value));
    var instance := GetInput(host, InstanceInput, NoOptions);
    var resource := GetInput(host, ResourceInput, NoOptions);
    AppendTwo(t2, InputLine(InstanceInput, instance.value), InputLine(ResourceInput, resource.value));
    ghost var t4 := host.trace;
    var audience := GetInput(host, IdTokenAudienceInput, NoOptions);
    var authMethod := GetInput(host, AuthMethodInput, NoOptions);
    AppendTwo(t4, InputLine(IdTokenAudienceInput, audience.value), InputLine(AuthMethodInput, authMethod.value));
    ghost var first := [InputLine(ClientIdInput, clientId.value), InputLine(TenantIdInput, tenantId.value)];
    ghost var second := [InputLine(InstanceInput, instance.value), InputLine(ResourceInput, resource.value)];
    ghost var third := [InputLine(IdTokenAudienceInput, audience.value), InputLine(AuthMethodInput, authMethod.value)];
    AppendStretches(t0, first, second);
    AppendStretches(t0, first + second, third);
    assert first + second + third == ActionInputsEffects(host.inputs).events;
    r := Ok(WithDefaults(clientId.value, tenantId.value, instance.value, resource.value, audience.value, authMethod.value));
  }

  const RequestingIdToken := "Requesting GitHub Actions ID token for audience: '"

  /** The line announcing an identity-token request. */
  function RequestLine(audience: Option<string>): string
  {
    RequestingIdToken + OptText(audience) + "'"
  }

  /** The effects of `getGithubActionsToken(audience)` of `utils.mjs`: an informational line,
      then `core.getIDToken(audience)`. */
  function EsmTokenEvents(ext: Externals, audience: Option<string>): seq<Event>
  {
    [Log(Info, RequestLine(audience))] + IdTokenEffects(ext, audience).events
  }

  /** The ESM step records only the request apart from logging and masking; the one value it
      masks is the token received, masked by `@actions/core` itself. */
  lemma EsmTokenContract(ext: Externals, audience: Option<string>)
    ensures Project(EsmTokenEvents(ext, audience), IsMilestone) == [IdTokenRequested(audience)]
    ensures Masked(EsmTokenEvents(ext, audience))
            == (match ext.idTokens(audience) case Ok(token) => {token} case Err(_) => {})
    ensures forall i :: 0 <= i < |EsmTokenEvents(ext, audience)| ==>
              var e := EsmTokenEvents(ext, audience)[i]; e.Log? || e.Secret? || e.IdTokenRequested?
  {
    var core := IdTokenEffects(ext, audience).events;
    IdTokenContract(ext, audience);
    ProjectNone([Log(Info, RequestLine(audience))], IsMilestone);
    ProjectConcat([Log(Info, RequestLine(audience))], core, IsMilestone);
    MaskedConcat([Log(Info, RequestLine(audience))], core);
    MaskedOne(Log(Info, RequestLine(audience)));
  }

  /** `getGithubActionsToken(audience)` of `utils.mjs`: the token is returned as the runner gave
      it, and the script adds only the informational line to what `@actions/core` records. */
  method GetGithubActionsTokenEsm(host: Host, ext: Externals, audience: Option<string>) returns (r: Result<string>)
    modifies host
    ensures r == ext.idTokens(audience)
    ensures host.trace == old(host.trace) + EsmTokenEvents(ext, audience)
    ensures host.state == old(host.state)
  {
    ghost var t0 := host.trace;
    host.Emit(Log(Info, RequestLine(audience)));
    r := host.GetIdToken(ext, audience);
    AppendStretches(t0, [Log(Info, RequestLine(audience))], IdTokenEffects(ext, audience).events);
  }

  /** The effects of `getGithubActionsToken(audience)` of `utils.js`: a debug line,
      `core.getIDToken(audience)`, and then `onJwtToken` on the token received. */
  function CjsTokenEvents(ext: Externals, audience: Option<string>, debug: bool): (es: seq<Event>)
    ensures |es| >= 3 && es[0] == Log(Debug, RequestLine(audience))
    ensures es[1..3] == [Log(Debug, IdTokenUrlIs + IdTokenUrl(ext.idTokenUrl, audience)), IdTokenRequested(audience)]
    ensures ext.idTokens(audience).Ok? ==>
              var token := ext.idTokens(audience).value;
              |es| >= 4 && es[3] == Secret(token) && es[4..] == OnJwtToken(token, debug, ext.base64UrlDecode)
    ensures ext.idTokens(audience).Err? ==> |es| == 3
  {
    var token := ext.idTokens(audience);
    [Log(Debug, RequestLine(audience))] + IdTokenEffects(ext, audience).events
      + (if token.Ok? then OnJwtToken(token.value, debug, ext.base64UrlDecode) else [])
  }

  /** A received token, and its signature segment, are masked right after the request: by
      `@actions/core`, then again by `onJwtToken`; nothing else is masked. */
  lemma CjsTokenMasked(ext: Externals, audience: Option<string>, debug: bool)
    requires ext.idTokens(audience).Ok?
    ensures var token := ext.idTokens(audience).value;
            Masked(CjsTokenEvents(ext, audience, debug)) == {token} + Masked(MaskEvents(token))
  {
    var token := ext.idTokens(audience).value;
    var head := [Log(Debug, RequestLine(audience))];
    var core := IdTokenEffects(ext, audience).events;
    IdTokenContract(ext, audience);
    MaskedConcat(head + core, OnJwtToken(token, debug, ext.base64UrlDecode));
    MaskedConcat(head, core);
    MaskedOne(head[0]);
  }

  /** Apart from log lines and masking calls, the identity-token step records only the request. */
  lemma CjsTokenMilestones(ext: Externals, audience: Option<string>, debug: bool)
    ensures Project(CjsTokenEvents(ext, audience, debug), IsMilestone) == [IdTokenRequested(audience)]
  {
    var token := ext.idTokens(audience);
    var head := [Log(Debug, RequestLine(audience))];
    var core := IdTokenEffects(ext, audience).events;
    var rest := if token.Ok? then OnJwtToken(token.value, debug, ext.base64UrlDecode) else [];
    IdTokenContract(ext, audience);
    assert forall i :: 0 <= i < |rest| ==> !IsMilestone(rest[i]);
    ProjectNone(head, IsMilestone);
    ProjectNone(rest, IsMilestone);
    ProjectConcat(head, core, IsMilestone);
    ProjectConcat(head + core, rest, IsMilestone);
  }

  /** `getGithubActionsToken(audience)` of `utils.js`. */
  method GetGithubActionsTokenCjs(host: Host, ext: Externals, audience: Option<string>) returns (r: Result<string>)
    modifies host
    ensures r == ext.idTokens(audience)
    ensures host.trace == old(host.trace) + CjsTokenEvents(ext, audience, host.debug)
    ensures host.state == old(host.state)
  {
    ghost var t0 := host.trace;
    var head := [Log(Debug, RequestLine(audience))];
    host.Emit(head[0]);
    r := host.GetIdToken(ext, audience);
    AppendStretches(t0, head, IdTokenEffects(ext, audience).events);
    if r.Ok? {
      var masking := OnJwtToken(r.value, host.debug, ext.base64UrlDecode);
      host.EmitAll(masking);
      AppendStretches(t0, head + IdTokenEffects(ext, audience).events, masking);
    }
  }
}
