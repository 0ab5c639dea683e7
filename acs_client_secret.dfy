/** The main step of the `ms-acs-temp-client-secret-auth` action (`action.js`): with a Microsoft
    Graph token given as input, add a temporary client secret to the application's service
    principal, record its key id for the post step, and exchange the secret at the legacy Azure
    Access Control Service (ACS) token endpoint that the tenant's ACS metadata names. */
module AcsClientSecret {
  import opened Wrappers
  import opened JsStrings
  import opened Msal
  import opened Graph
  import opened ActionsCore
  import opened JwtMasking
  import opened CoreHelpers
  import WorkflowRunUtils

  const GraphTokenInput := "msgraph-access-token"
  const ResourceIdInput := "resource-id"
  const ResourcePathInput := "resource-path"

  const ClientIdState := "client-id"
  const GraphTokenState := "msgraph-access-token"
  const ClientSecretKeyIdState := "client-secret-key-id"
  const AcsTokenOutput := "acs-access-token"

  /** The two HTTP clients of `main()`: a plain one for ACS, and one that sends the Graph token. */
  const AcsHttpClient := "acs http client"
  const GraphHttpClient := "msgraph http client"

  const SecretDisplayName := "GitHub Actions Temporary Client Secret"
  const FormContentType := "application/x-www-form-urlencoded"
  const AddPasswordLine := "Executing Microsoft Graph REST API v1.0, servicePrincipal: addPassword"
  const SendingPostLine := "Sending POST request to: "
  const AddPasswordFailed := "Failed to add a client secret to service principal."
  const SecretCreatedLine := "Client secret created with keyId: "
  const RegisteringLine := "Registering keyId for post-job cleanup."
  const MetadataFailed := "Failed to acquire ACS Metadata Document for Realm: "
  const TokenFailed := "Failed to acquire OAuth 2.0 Access Token from ACS Token Endpoint\n"
  const DefaultTokenHost := "https://accounts.accesscontrol.windows.net/"
  const DefaultTokenPath := "/tokens/OAuth/2"

  /** One entry of the metadata document's `endpoints`. */
  datatype AcsEndpoint = AcsEndpoint(location: string, protocol: string, usage: string)

  /** The part of the ACS metadata document the step reads. */
  datatype AcsMetadata = AcsMetadata(endpoints: seq<AcsEndpoint>)

  /** The `passwordCredential` that `addPassword` answers with. */
  datatype SecretInfo = SecretInfo(keyId: string, secretText: string)

  /** What `httpClient.post` resolves to: the status (absent when the message has none) and the
      body text. */
  datatype RawResponse = RawResponse(statusCode: Option<int>, body: string)

  /** The part of the parsed token response the step reads: `access_token`, when present. */
  datatype TokenJson = TokenJson(accessToken: Option<string>)

  /** The remote side, as functions of the request: what each call of the HTTP clients resolves to
      (an `Err` when the client rejects), what `JSON.parse` makes of a body (`None` when it throws),
      and the body as `JSON.stringify(…, undefined, 2)` prints it again. */
  datatype AcsService = AcsService(
    getJson: HttpCall -> Result<TypedResponse<AcsMetadata>>,
    postJson: HttpCall -> Result<TypedResponse<SecretInfo>>,
    post: HttpCall -> Result<RawResponse>,
    parse: string -> Option<TokenJson>,
    indent: string -> string)

  /** The inputs `main()` reads, after defaulting. */
  datatype AcsInputs = AcsInputs(clientId: string, tenantId: string, instance: string, graphToken: string, resource: string)

  /** What a stage of the step does: its effects, how it settles, and the run-state afterwards. */
  datatype AcsStep<T> = AcsStep(events: seq<Event>, result: Result<T>, state: map<string, string>)

  /** Everything outside the step that its outcome depends on. */
  datatype AcsWorld = AcsWorld(svc: AcsService, inputs: map<string, string>, state: map<string, string>)

  // ---------------------------------------------------------------------------------------------
  // Requests

  /** The ACS resource: `<resourceId>/<resourcePath>@<tenantId>`, or `<resourceId>@<tenantId>`
      without a path. */
  function AcsResource(resourceId: string, resourcePath: string, tenantId: string): string
  {
    if resourcePath != "" then resourceId + "/" + resourcePath + "@" + tenantId else resourceId + "@" + tenantId
  }

  function AddPasswordUrl(clientId: string): string
  {
    ByAppIdUrl(clientId) + "/addPassword"
  }

  function RemovePasswordUrl(clientId: string): string
  {
    ByAppIdUrl(clientId) + "/removePassword"
  }

  function MetadataUrl(instance: string, tenantId: string): string
  {
    instance + "/metadata/json/1?realm=" + EncodeUriComponent(tenantId)
  }

  function MetadataLine(instance: string, tenantId: string): Event
  {
    Log(Debug, "Requesting Azure ACS Metadata from IDP instance '" + instance + "' for realm '" + tenantId + "'")
  }

  function TokenRequestLine(resource: string, endpoint: string): Event
  {
    Log(Debug, "Requesting access token for resource '" + resource + "' from token endpoint: " + endpoint)
  }

  /** The token endpoint used when the metadata names none. */
  function DefaultTokenEndpoint(tenantId: string): string
  {
    DefaultTokenHost + tenantId + DefaultTokenPath
  }

  /** `/^issuance$/iu.test(usage) && /^OAuth2$/iu.test(protocol)`. */
  predicate IsIssuance(e: AcsEndpoint)
  {
    MatchesIgnoringCase(e.usage, "issuance") && MatchesIgnoringCase(e.protocol, "OAuth2")
  }

  /** `endpoints.filter(IsIssuance)`. */
  function Issuance(endpoints: seq<AcsEndpoint>): (r: seq<AcsEndpoint>)
    ensures |r| <= |endpoints|
    ensures forall i :: 0 <= i < |r| ==> IsIssuance(r[i])
  {
    if endpoints == [] then []
    else (if IsIssuance(endpoints[0]) then [endpoints[0]] else []) + Issuance(endpoints[1..])
  }

  /** `filter(…)[0]?.location || <default>`: never empty. */
  function TokenEndpoint(endpoints: seq<AcsEndpoint>, tenantId: string): (r: string)
    ensures r != ""
  {
    var found := Issuance(endpoints);
    if found != [] && found[0].location != "" then found[0].location else DefaultTokenEndpoint(tenantId)
  }

  /** One `name=value` field of the token request, with the value encoded. */
  function FormField(name: string, value: string): string
  {
    name + "=" + EncodeUriComponent(value)
  }

  const GrantField := "grant_type=client_credentials"

  /** The form fields of the token request, in order. */
  function FormFields(realm: string, clientId: string, clientSecret: string, resource: string): seq<string>
  {
    [GrantField, FormField("client_id", clientId + "@" + realm), FormField("client_secret", clientSecret),
     FormField("resource", resource)]
  }

  /** The request body `getAcsAccessToken` builds by appending `&`-separated fields to
      `grant_type=client_credentials`. */
  function FormBody(realm: string, clientId: string, clientSecret: string, resource: string): string
  {
    Join(FormFields(realm, clientId, clientSecret, resource), "&")
  }

  /** `statusCode = 500` in the destructuring of the response message. */
  function StatusOf(resp: RawResponse): int
  {
    match resp.statusCode
    case Some(code) => code
    case None => 500
  }

  // ---------------------------------------------------------------------------------------------
  // Stages

  /** The input reads of `main()`, each logged by the core helpers' `getInput`; the three
      required ones stop the step when missing. */
  function InputsEffects(inputs: map<string, string>): Effects<AcsInputs>
  {
    match CoreGetInput(inputs, WorkflowRunUtils.ClientIdInput, Required)
    case Err(e) => Effects([], Err(e))
    case Ok(clientId) =>
      var a := [InputLine(WorkflowRunUtils.ClientIdInput, clientId)];
      match CoreGetInput(inputs, WorkflowRunUtils.TenantIdInput, Required)
      case Err(e) => Effects(a, Err(e))
      case Ok(tenantId) =>
        var instance := Trim(RawInput(inputs, WorkflowRunUtils.InstanceInput));
        var b := a + [InputLine(WorkflowRunUtils.TenantIdInput, tenantId), InputLine(WorkflowRunUtils.InstanceInput, instance)];
        match CoreGetInput(inputs, GraphTokenInput, Required)
        case Err(e) => Effects(b, Err(e))
        case Ok(graphToken) =>
          var resourceId := Trim(RawInput(inputs, ResourceIdInput));
          var resourcePath := Trim(RawInput(inputs, ResourcePathInput));
          var lines := b + [InputLine(GraphTokenInput, graphToken), InputLine(ResourceIdInput, resourceId),
                            InputLine(ResourcePathInput, resourcePath)];
          Effects(lines, Ok(AcsInputs(clientId, tenantId, WorkflowRunUtils.OrElse(instance, AzurePublic), graphToken,
            AcsResource(WorkflowRunUtils.OrElse(resourceId, clientId), resourcePath, tenantId))))
  }

  /** `getAcsMetadata(httpClient, instance, tenantId)`. */
  function MetadataEffects(svc: AcsService, instance: string, tenantId: string): Effects<AcsMetadata>
  {
    var call := GetJson(MetadataUrl(instance, tenantId));
    var events := [MetadataLine(instance, tenantId), HttpRequest(call)];
    match svc.getJson(call)
    case Err(e) => Effects(events, Err(e))
    case Ok(resp) =>
      if resp.statusCode != 200 || resp.result.None? then
        Effects(events, Err(HttpClientError(MetadataFailed + tenantId, Some(resp.statusCode))))
      else Effects(events, Ok(resp.result.value))
  }

  /** `createServicePrincipalClientSecret(graphClient, clientId)`: the key id is saved before the
      secret is masked. */
  function SecretEffects(svc: AcsService, graphToken: string, clientId: string, state: map<string, string>): AcsStep<SecretInfo>
  {
    var url := AddPasswordUrl(clientId);
    var call := PostAddPassword(url, SecretDisplayName, "Bearer " + graphToken);
    var events := [Log(Debug, AddPasswordLine), Log(Debug, SendingPostLine + url), HttpRequest(call)];
    match svc.postJson(call)
    case Err(e) => AcsStep(events, Err(e), state)
    case Ok(resp) =>
      if resp.statusCode != 200 || resp.result.None? then
        AcsStep(events, Err(HttpClientError(AddPasswordFailed, Some(resp.statusCode))), state)
      else
        var info := resp.result.value;
        AcsStep(events + [Log(Debug, SecretCreatedLine + info.keyId), Log(Debug, RegisteringLine),
                          StateSaved(ClientSecretKeyIdState, info.keyId), Secret(info.secretText)],
          Ok(info), state[ClientSecretKeyIdState := info.keyId])
  }

  /** How `getAcsAccessToken` settles once the token response arrived: the body is parsed first,
      then the status checked; the token and its signature segment (or "") are masked. A missing
      `access_token` is masked as "" and then fails on `split`. */
  function TokenSettles(svc: AcsService, resp: RawResponse): Effects<string>
  {
    match svc.parse(resp.body)
    case None => Effects([], Err(SyntaxError))
    case Some(json) =>
      if StatusOf(resp) != 200 then Effects([], Err(HttpClientError(TokenFailed + svc.indent(resp.body), Some(StatusOf(resp)))))
      else
        match json.accessToken
        case None => Effects([Secret("")], Err(TypeError(SplitOfUndefined)))
        case Some(token) => Effects([Secret(token), Secret(JwtSignature(token))], Ok(token))
  }

  const SplitOfUndefined := "Cannot read properties of undefined (reading 'split')"

  /** `getAcsAccessToken(httpClient, endpoint, realm, clientId, clientSecret, resource)`. */
  function TokenEffects(svc: AcsService, endpoint: string, realm: string, clientId: string, clientSecret: string,
                        resource: string): Effects<string>
  {
    var call := PostForm(endpoint, FormBody(realm, clientId, clientSecret, resource), FormContentType);
    var events := [TokenRequestLine(resource, endpoint), HttpRequest(call)];
    match svc.post(call)
    case Err(e) => Effects(events, Err(e))
    case Ok(resp) =>
      var settled := TokenSettles(svc, resp);
      Effects(events + settled.events, settled.result)
  }

  /** The `try` block of `main()`, from the metadata to the output. */
  function TryEffects(svc: AcsService, v: AcsInputs, state: map<string, string>): AcsStep<()>
  {
    var metadata := MetadataEffects(svc, v.instance, v.tenantId);
    match metadata.result
    case Err(e) => AcsStep(metadata.events, Err(e), state)
    case Ok(doc) =>
      var endpoint := TokenEndpoint(doc.endpoints, v.tenantId);
      var secret := SecretEffects(svc, v.graphToken, v.clientId, state);
      match secret.result
      case Err(e) => AcsStep(metadata.events + secret.events, Err(e), secret.state)
      case Ok(info) =>
        var token := TokenEffects(svc, endpoint, v.tenantId, v.clientId, info.secretText, v.resource);
        var events := metadata.events + secret.events + token.events;
        match token.result
        case Err(e) => AcsStep(events, Err(e), secret.state)
        case Ok(accessToken) => AcsStep(events + [Output(AcsTokenOutput, TextOutput(accessToken))], Ok(()), secret.state)
  }

  /** The two `saveState` calls before the clients are created. */
  function Saves(v: AcsInputs): seq<Event>
  {
    [StateSaved(ClientIdState, v.clientId), StateSaved(GraphTokenState, v.graphToken)]
  }

  /** The run-state after those two calls. */
  function SavedState(state: map<string, string>, v: AcsInputs): map<string, string>
  {
    state[ClientIdState := v.clientId][GraphTokenState := v.graphToken]
  }

  /** The `finally` block: the ACS client, then the Graph client. */
  const Disposals := [Disposed(AcsHttpClient), Disposed(GraphHttpClient)]

  /** `main()`: the inputs, the client id and Graph token saved for the post step, then the
      `try` block, and both clients disposed in `finally`. A rejection of `main()` is left
      unhandled, which ends the process; it is the step's error here. */
  function MainEffects(w: AcsWorld): AcsStep<()>
  {
    var read := InputsEffects(w.inputs);
    match read.result
    case Err(e) => AcsStep(read.events, Err(e), w.state)
    case Ok(v) =>
      var attempt := TryEffects(w.svc, v, SavedState(w.state, v));
      AcsStep(read.events + Saves(v) + attempt.events + Disposals, attempt.result, attempt.state)
  }

  // ---------------------------------------------------------------------------------------------
  // Properties

  /** The three required inputs stop the step when empty; the instance defaults to the Azure
      public cloud, the resource id to the client id, and the resource names the tenant after
      `@`, with the path when one is given. Reading the inputs only logs. */
  lemma InputsContract(inputs: map<string, string>)
    ensures var read := InputsEffects(inputs);
            && (read.result.Ok? <==>
                  && RawInput(inputs, WorkflowRunUtils.ClientIdInput) != ""
                  && RawInput(inputs, WorkflowRunUtils.TenantIdInput) != ""
                  && RawInput(inputs, GraphTokenInput) != "")
            && Project(read.events, IsMilestone) == []
            && (read.result.Ok? ==>
                  var v := read.result.value;
                  var instance := Trim(RawInput(inputs, WorkflowRunUtils.InstanceInput));
                  var resourceId := Trim(RawInput(inputs, ResourceIdInput));
                  var resourcePath := Trim(RawInput(inputs, ResourcePathInput));
                  var id := if resourceId == "" then v.clientId else resourceId;
                  && v.clientId == Trim(RawInput(inputs, WorkflowRunUtils.ClientIdInput))
                  && v.tenantId == Trim(RawInput(inputs, WorkflowRunUtils.TenantIdInput))
                  && v.graphToken == Trim(RawInput(inputs, GraphTokenInput))
                  && v.instance == (if instance == "" then AzurePublic else instance)
                  && v.resource == (if resourcePath != "" then id + "/" + resourcePath + "@" + v.tenantId else id + "@" + v.tenantId))
  {
    var read := InputsEffects(inputs);
    ProjectNone(read.events, IsMilestone);
  }

  /** The first issuance endpoint heads the filtered list. */
  lemma {:induction false} IssuanceFirst(endpoints: seq<AcsEndpoint>, i: nat)
    requires i < |endpoints| && IsIssuance(endpoints[i])
    requires forall j :: 0 <= j < i ==> !IsIssuance(endpoints[j])
    ensures Issuance(endpoints) != [] && Issuance(endpoints)[0] == endpoints[i]
  {
    if i > 0 {
      IssuanceFirst(endpoints[1..], i - 1);
    }
  }

  /** Without an issuance endpoint the filtered list is empty. */
  lemma {:induction false} IssuanceNone(endpoints: seq<AcsEndpoint>)
    requires forall j :: 0 <= j < |endpoints| ==> !IsIssuance(endpoints[j])
    ensures Issuance(endpoints) == []
  {
    if endpoints != [] {
      IssuanceNone(endpoints[1..]);
    }
  }

  /** The token endpoint is the location of the first endpoint for OAuth2 issuance, or the default
      one of the tenant when that location is empty. */
  lemma TokenEndpointFirstMatch(endpoints: seq<AcsEndpoint>, tenantId: string, i: nat)
    requires i < |endpoints| && IsIssuance(endpoints[i])
    requires forall j :: 0 <= j < i ==> !IsIssuance(endpoints[j])
    ensures TokenEndpoint(endpoints, tenantId) == (if endpoints[i].location != "" then endpoints[i].location else DefaultTokenEndpoint(tenantId))
  {
    IssuanceFirst(endpoints, i);
  }

  /** Without an endpoint for OAuth2 issuance the token endpoint is the tenant's default one. */
  lemma TokenEndpointNoMatch(endpoints: seq<AcsEndpoint>, tenantId: string)
    requires forall j :: 0 <= j < |endpoints| ==> !IsIssuance(endpoints[j])
    ensures TokenEndpoint(endpoints, tenantId) == DefaultTokenEndpoint(tenantId)
  {
    IssuanceNone(endpoints);
  }

  /** The usage and the protocol are compared as whole strings, ignoring case. */
  lemma IssuanceIgnoresCase(location: string)
    ensures IsIssuance(AcsEndpoint(location, "OAUTH2", "Issuance"))
    ensures !IsIssuance(AcsEndpoint(location, "OAuth2", "issuance "))
    ensures !IsIssuance(AcsEndpoint(location, "OAuth", "issuance"))
  {
    assert FoldCase('O') == 'o' && FoldCase('A') == 'a' && FoldCase('U') == 'u' && FoldCase('T') == 't' && FoldCase('H') == 'h';
    assert FoldCase('I') == 'i';
  }

  /** A field whose name has no `&` contains none: the encoded value has none. */
  lemma FieldHasNoAmpersand(name: string, value: string)
    requires '&' !in name
    ensures '&' !in FormField(name, value)
  {
    var e := EncodeUriComponent(value);
    assert FormField(name, value) == name + "=" + e;
    forall k | 0 <= k < |e|
      ensures e[k] != '&'
    {
      assert IsUriUnreserved(e[k]) || e[k] == '%';
    }
  }

  /** The form body splits on `&` into exactly its four fields, in order. */
  lemma FormBodySplits(realm: string, clientId: string, clientSecret: string, resource: string)
    ensures Split(FormBody(realm, clientId, clientSecret, resource), '&') == FormFields(realm, clientId, clientSecret, resource)
  {
    var f := FormFields(realm, clientId, clientSecret, resource);
    assert forall i :: 0 <= i < |f| ==> '&' !in f[i] by {
      assert '&' !in GrantField;
      FieldHasNoAmpersand("client_id", clientId + "@" + realm);
      FieldHasNoAmpersand("client_secret", clientSecret);
      FieldHasNoAmpersand("resource", resource);
    }
    SplitJoin(f, '&');
  }

  /** The metadata is one GET of `<instance>/metadata/json/1?realm=<tenant>`; it fails unless the
      answer has status 200 and a body. */
  lemma MetadataContract(svc: AcsService, instance: string, tenantId: string)
    ensures var call := GetJson(MetadataUrl(instance, tenantId));
            var answer := svc.getJson(call);
            var metadata := MetadataEffects(svc, instance, tenantId);
            && Project(metadata.events, IsMilestone) == [HttpRequest(call)]
            && (metadata.result.Ok? <==> answer.Ok? && answer.value.statusCode == 200 && answer.value.result.Some?)
            && (metadata.result.Ok? ==> metadata.result.value == answer.value.result.value)
            && (answer.Ok? && metadata.result.Err? ==>
                  metadata.result.error == HttpClientError(MetadataFailed + tenantId, Some(answer.value.statusCode)))
  {
    var call := GetJson(MetadataUrl(instance, tenantId));
    ProjectLast([MetadataLine(instance, tenantId)], HttpRequest(call), IsMilestone);
  }

  /** The secret is one POST of `addPassword` for the application, sent with the Graph token; it
      fails unless the answer has status 200 and a body. On success the key id is saved, and
      only then the secret masked; on failure the run-state is left as it was. */
  lemma SecretOutcome(svc: AcsService, graphToken: string, clientId: string, state: map<string, string>)
    ensures var call := PostAddPassword(AddPasswordUrl(clientId), SecretDisplayName, "Bearer " + graphToken);
            var answer := svc.postJson(call);
            var secret := SecretEffects(svc, graphToken, clientId, state);
            && (secret.result.Ok? <==> answer.Ok? && answer.value.statusCode == 200 && answer.value.result.Some?)
            && (secret.result.Ok? ==>
                  var info := answer.value.result.value;
                  && secret.result.value == info
                  && secret.state == state[ClientSecretKeyIdState := info.keyId]
                  && secret.events[|secret.events| - 2..] == [StateSaved(ClientSecretKeyIdState, info.keyId), Secret(info.secretText)])
            && (secret.result.Err? ==> secret.state == state)
  {
  }

  /** The debug lines and the request that open `createServicePrincipalClientSecret`. */
  function SecretRequest(graphToken: string, clientId: string): seq<Event>
  {
    var url := AddPasswordUrl(clientId);
    [Log(Debug, AddPasswordLine), Log(Debug, SendingPostLine + url),
     HttpRequest(PostAddPassword(url, SecretDisplayName, "Bearer " + graphToken))]
  }

  /** What follows the request when the secret was created. */
  function SecretRecorded(info: SecretInfo): seq<Event>
  {
    [Log(Debug, SecretCreatedLine + info.keyId), Log(Debug, RegisteringLine),
     StateSaved(ClientSecretKeyIdState, info.keyId), Secret(info.secretText)]
  }

  /** The creation's effects: the request, then what records the secret when it was created. */
  lemma SecretShape(svc: AcsService, graphToken: string, clientId: string, state: map<string, string>)
    ensures var secret := SecretEffects(svc, graphToken, clientId, state);
            secret.events == SecretRequest(graphToken, clientId) + (if secret.result.Ok? then SecretRecorded(secret.result.value) else [])
  {
  }

  /** Two events of no interest, then one of interest. */
  lemma ProjectThird(a: Event, b: Event, c: Event, p: Event -> bool)
    requires !p(a) && !p(b) && p(c)
    ensures Project([a, b, c], p) == [c]
  {
    ProjectLast([a, b], c, p);
    assert [a, b] + [c] == [a, b, c];
  }

  /** The effects of the secret's creation, apart from logs and masking: the request, and the
      key id saved when the secret was created. */
  lemma SecretMilestones(svc: AcsService, graphToken: string, clientId: string, state: map<string, string>)
    ensures var call := PostAddPassword(AddPasswordUrl(clientId), SecretDisplayName, "Bearer " + graphToken);
            var secret := SecretEffects(svc, graphToken, clientId, state);
            Project(secret.events, IsMilestone)
            == [HttpRequest(call)] + (if secret.result.Ok? then [StateSaved(ClientSecretKeyIdState, secret.result.value.keyId)] else [])
  {
    var secret := SecretEffects(svc, graphToken, clientId, state);
    var request := SecretRequest(graphToken, clientId);
    SecretShape(svc, graphToken, clientId, state);
    ProjectThird(request[0], request[1], request[2], IsMilestone);
    if secret.result.Ok? {
      var r := SecretRecorded(secret.result.value);
      ProjectThird(r[0], r[1], r[2], IsMilestone);
      assert r == [r[0], r[1], r[2]] + [r[3]];
      ProjectNone([r[3]], IsMilestone);
      ProjectConcat([r[0], r[1], r[2]], [r[3]], IsMilestone);
      ProjectConcat(request, r, IsMilestone);
    } else {
      assert secret.events == request;
    }
  }

  /** The secret text is the only string the creation masks, and only when it succeeded. */
  lemma SecretMasking(svc: AcsService, graphToken: string, clientId: string, state: map<string, string>)
    ensures var secret := SecretEffects(svc, graphToken, clientId, state);
            Masked(secret.events) == if secret.result.Ok? then {secret.result.value.secretText} else {}
  {
    var secret := SecretEffects(svc, graphToken, clientId, state);
    var request := SecretRequest(graphToken, clientId);
    SecretShape(svc, graphToken, clientId, state);
    NothingMasked(request);
    if secret.result.Ok? {
      var r := SecretRecorded(secret.result.value);
      assert r == r[..3] + [r[3]];
      NothingMasked(r[..3]);
      MaskedOne(r[3]);
      MaskedConcat(r[..3], [r[3]]);
      MaskedConcat(request, r);
    } else {
      assert secret.events == request;
    }
  }

  /** A stretch without masking calls masks nothing. */
  lemma {:induction false} NothingMasked(es: seq<Event>)
    requires forall i :: 0 <= i < |es| ==> !es[i].Secret?
    ensures Masked(es) == {}
  {
    if es != [] {
      NothingMasked(es[1..]);
      MaskedOne(es[0]);
      assert es == [es[0]] + es[1..];
      MaskedConcat([es[0]], es[1..]);
    }
  }

  /** The token request is one form POST to the endpoint. It succeeds exactly when the answer is
      status 200 (a missing status counts as 500) with a body that parses and has an
      `access_token`; then the token and then its signature segment are masked. A parsed answer
      with another status fails with that status and the body in the message. */
  lemma TokenOutcome(svc: AcsService, endpoint: string, realm: string, clientId: string, clientSecret: string, resource: string)
    ensures var call := PostForm(endpoint, FormBody(realm, clientId, clientSecret, resource), FormContentType);
            var answer := svc.post(call);
            var token := TokenEffects(svc, endpoint, realm, clientId, clientSecret, resource);
            && (token.result.Ok? <==>
                  && answer.Ok? && StatusOf(answer.value) == 200
                  && svc.parse(answer.value.body).Some? && svc.parse(answer.value.body).value.accessToken.Some?)
            && (token.result.Ok? ==>
                  && token.result.value == svc.parse(answer.value.body).value.accessToken.value
                  && token.events[|token.events| - 2..] == [Secret(token.result.value), Secret(JwtSignature(token.result.value))])
            && (answer.Ok? && svc.parse(answer.value.body).Some? && StatusOf(answer.value) != 200 ==>
                  token.result == Err(HttpClientError(TokenFailed + svc.indent(answer.value.body), Some(StatusOf(answer.value)))))
            && (answer.Ok? && answer.value.statusCode.None? ==> token.result.Err?)
  {
  }

  /** Apart from logs and masking, the token request is its POST alone. */
  lemma TokenMilestones(svc: AcsService, endpoint: string, realm: string, clientId: string, clientSecret: string, resource: string)
    ensures var call := PostForm(endpoint, FormBody(realm, clientId, clientSecret, resource), FormContentType);
            Project(TokenEffects(svc, endpoint, realm, clientId, clientSecret, resource).events, IsMilestone) == [HttpRequest(call)]
  {
    var call := PostForm(endpoint, FormBody(realm, clientId, clientSecret, resource), FormContentType);
    var sent := [TokenRequestLine(resource, endpoint), HttpRequest(call)];
    ProjectLast([TokenRequestLine(resource, endpoint)], HttpRequest(call), IsMilestone);
    assert [TokenRequestLine(resource, endpoint)] + [HttpRequest(call)] == sent;
    match svc.post(call)
    case Err(_) =>
      assert TokenEffects(svc, endpoint, realm, clientId, clientSecret, resource).events == sent;
    case Ok(resp) =>
      var settled := TokenSettles(svc, resp);
      assert forall i :: 0 <= i < |settled.events| ==> settled.events[i].Secret?;
      ProjectNone(settled.events, IsMilestone);
      ProjectConcat(sent, settled.events, IsMilestone);
  }

  /** A granted token masks exactly itself and its signature segment. */
  lemma TokenMasking(svc: AcsService, endpoint: string, realm: string, clientId: string, clientSecret: string, resource: string)
    ensures var token := TokenEffects(svc, endpoint, realm, clientId, clientSecret, resource);
            token.result.Ok? ==> Masked(token.events) == {token.result.value, JwtSignature(token.result.value)}
  {
    var call := PostForm(endpoint, FormBody(realm, clientId, clientSecret, resource), FormContentType);
    var sent := [TokenRequestLine(resource, endpoint), HttpRequest(call)];
    var token := TokenEffects(svc, endpoint, realm, clientId, clientSecret, resource);
    if token.result.Ok? {
      var settled := TokenSettles(svc, svc.post(call).value);
      var t := settled.result.value;
      assert token.events == sent + settled.events;
      NothingMasked(sent);
      assert settled.events == [Secret(t)] + [Secret(JwtSignature(t))];
      MaskedOne(Secret(t));
      MaskedOne(Secret(JwtSignature(t)));
      MaskedConcat([Secret(t)], [Secret(JwtSignature(t))]);
      MaskedConcat(sent, settled.events);
    }
  }

  // ---------------------------------------------------------------------------------------------
  // The whole step

  /** `MainEffects` once the inputs are read. */
  lemma MainAfterRead(w: AcsWorld, v: AcsInputs)
    requires InputsEffects(w.inputs).result == Ok(v)
    ensures var attempt := TryEffects(w.svc, v, SavedState(w.state, v));
            MainEffects(w) == AcsStep(InputsEffects(w.inputs).events + Saves(v) + attempt.events + Disposals,
              attempt.result, attempt.state)
  {
  }

  /** `TryEffects` once the metadata has come: the secret, then the token request once the secret
      was created, then the output once the token was granted. */
  lemma TryAfterMetadata(svc: AcsService, v: AcsInputs, state: map<string, string>, doc: AcsMetadata)
    requires MetadataEffects(svc, v.instance, v.tenantId).result == Ok(doc)
    ensures var metadata := MetadataEffects(svc, v.instance, v.tenantId);
            var secret := SecretEffects(svc, v.graphToken, v.clientId, state);
            var attempt := TryEffects(svc, v, state);
            && attempt.state == secret.state
            && (secret.result.Err? ==> attempt.events == metadata.events + secret.events && attempt.result == Err(secret.result.error))
            && (secret.result.Ok? ==>
                  var token := TokenEffects(svc, TokenEndpoint(doc.endpoints, v.tenantId), v.tenantId, v.clientId,
                    secret.result.value.secretText, v.resource);
                  && attempt.events == metadata.events + secret.events + token.events
                       + (if token.result.Ok? then [Output(AcsTokenOutput, TextOutput(token.result.value))] else [])
                  && (attempt.result.Ok? <==> token.result.Ok?))
  {
    var secret := SecretEffects(svc, v.graphToken, v.clientId, state);
    if secret.result.Ok? {
      var metadata := MetadataEffects(svc, v.instance, v.tenantId);
      var token := TokenEffects(svc, TokenEndpoint(doc.endpoints, v.tenantId), v.tenantId, v.clientId,
        secret.result.value.secretText, v.resource);
      if token.result.Ok? {
        AppendStretches(metadata.events + secret.events, token.events, [Output(AcsTokenOutput, TextOutput(token.result.value))]);
      }
    }
  }

  /** Two single events between two stretches. */
  lemma Regroup(a: seq<Event>, e: Event, f: Event, b: seq<Event>)
    ensures a + ([e] + [f]) + b == a + [e, f] + b
  {
  }

  /** The milestones of the step around those of the `try` block. */
  lemma MainFrame(read: seq<Event>, v: AcsInputs, attempt: seq<Event>)
    requires Project(read, IsMilestone) == []
    ensures Project(read + Saves(v) + attempt + Disposals, IsMilestone) == Saves(v) + Project(attempt, IsMilestone) + Disposals
  {
    ProjectAll(Saves(v), IsMilestone);
    ProjectAll(Disposals, IsMilestone);
    ProjectConcat(read, Saves(v), IsMilestone);
    ProjectConcat(read + Saves(v), attempt, IsMilestone);
    ProjectConcat(read + Saves(v) + attempt, Disposals, IsMilestone);
  }

  /** When the metadata cannot be had, no secret is created: the step saves the client id and the
      Graph token, sends the GET, disposes both clients and fails. */
  lemma MainWithoutMetadata(w: AcsWorld)
    requires InputsEffects(w.inputs).result.Ok?
    requires var v := InputsEffects(w.inputs).result.value;
             MetadataEffects(w.svc, v.instance, v.tenantId).result.Err?
    ensures var v := InputsEffects(w.inputs).result.value;
            var main := MainEffects(w);
            && Project(main.events, IsMilestone) == Saves(v) + [HttpRequest(GetJson(MetadataUrl(v.instance, v.tenantId)))] + Disposals
            && main.result.Err? && main.state == SavedState(w.state, v)
  {
    var v := InputsEffects(w.inputs).result.value;
    var metadata := MetadataEffects(w.svc, v.instance, v.tenantId);
    InputsContract(w.inputs);
    MetadataContract(w.svc, v.instance, v.tenantId);
    MainAfterRead(w, v);
    var attempt := TryEffects(w.svc, v, SavedState(w.state, v));
    assert attempt.events == metadata.events;
    MainFrame(InputsEffects(w.inputs).events, v, attempt.events);
  }

  /** When `addPassword` is refused, no key id is saved and no token is requested; both clients
      are disposed and the step fails. */
  lemma MainSecretRefused(w: AcsWorld)
    requires InputsEffects(w.inputs).result.Ok?
    requires var v := InputsEffects(w.inputs).result.value;
             && MetadataEffects(w.svc, v.instance, v.tenantId).result.Ok?
             && SecretEffects(w.svc, v.graphToken, v.clientId, SavedState(w.state, v)).result.Err?
    ensures var v := InputsEffects(w.inputs).result.value;
            var main := MainEffects(w);
            && Project(main.events, IsMilestone)
               == Saves(v) + [HttpRequest(GetJson(MetadataUrl(v.instance, v.tenantId))),
                              HttpRequest(PostAddPassword(AddPasswordUrl(v.clientId), SecretDisplayName, "Bearer " + v.graphToken))]
                  + Disposals
            && main.result.Err? && main.state == SavedState(w.state, v)
  {
    var v := InputsEffects(w.inputs).result.value;
    var state := SavedState(w.state, v);
    var metadata := MetadataEffects(w.svc, v.instance, v.tenantId);
    var secret := SecretEffects(w.svc, v.graphToken, v.clientId, state);
    InputsContract(w.inputs);
    MetadataContract(w.svc, v.instance, v.tenantId);
    SecretMilestones(w.svc, v.graphToken, v.clientId, state);
    SecretOutcome(w.svc, v.graphToken, v.clientId, state);
    MainAfterRead(w, v);
    TryAfterMetadata(w.svc, v, state, metadata.result.value);
    var attempt := TryEffects(w.svc, v, state);
    var get := HttpRequest(GetJson(MetadataUrl(v.instance, v.tenantId)));
    var post := HttpRequest(PostAddPassword(AddPasswordUrl(v.clientId), SecretDisplayName, "Bearer " + v.graphToken));
    assert Project(secret.events, IsMilestone) == [post];
    ProjectConcat(metadata.events, secret.events, IsMilestone);
    assert Project(attempt.events, IsMilestone) == [get] + [post];
    MainFrame(InputsEffects(w.inputs).events, v, attempt.events);
    Regroup(Saves(v), get, post, Disposals);
  }

  /** The `try` block once the secret is created: the GET, the POST, the key id saved, the token
      request, and the output exactly when the token is granted. */
  lemma TryTokenRequested(svc: AcsService, v: AcsInputs, state: map<string, string>)
    requires MetadataEffects(svc, v.instance, v.tenantId).result.Ok?
    requires SecretEffects(svc, v.graphToken, v.clientId, state).result.Ok?
    ensures var doc := MetadataEffects(svc, v.instance, v.tenantId).result.value;
            var info := SecretEffects(svc, v.graphToken, v.clientId, state).result.value;
            var endpoint := TokenEndpoint(doc.endpoints, v.tenantId);
            var token := TokenEffects(svc, endpoint, v.tenantId, v.clientId, info.secretText, v.resource);
            var attempt := TryEffects(svc, v, state);
            && Project(attempt.events, IsMilestone)
               == [HttpRequest(GetJson(MetadataUrl(v.instance, v.tenantId))),
                   HttpRequest(PostAddPassword(AddPasswordUrl(v.clientId), SecretDisplayName, "Bearer " + v.graphToken)),
                   StateSaved(ClientSecretKeyIdState, info.keyId),
                   HttpRequest(PostForm(endpoint, FormBody(v.tenantId, v.clientId, info.secretText, v.resource), FormContentType))]
                  + (if token.result.Ok? then [Output(AcsTokenOutput, TextOutput(token.result.value))] else [])
            && attempt.state == state[ClientSecretKeyIdState := info.keyId]
            && (attempt.result.Ok? <==> token.result.Ok?)
  {
    var metadata := MetadataEffects(svc, v.instance, v.tenantId);
    var doc := metadata.result.value;
    var secret := SecretEffects(svc, v.graphToken, v.clientId, state);
    var info := secret.result.value;
    var endpoint := TokenEndpoint(doc.endpoints, v.tenantId);
    var token := TokenEffects(svc, endpoint, v.tenantId, v.clientId, info.secretText, v.resource);
    var out := if token.result.Ok? then [Output(AcsTokenOutput, TextOutput(token.result.value))] else [];
    MetadataContract(svc, v.instance, v.tenantId);
    SecretMilestones(svc, v.graphToken, v.clientId, state);
    SecretOutcome(svc, v.graphToken, v.clientId, state);
    TokenMilestones(svc, endpoint, v.tenantId, v.clientId, info.secretText, v.resource);
    TryAfterMetadata(svc, v, state, doc);
    var get := HttpRequest(GetJson(MetadataUrl(v.instance, v.tenantId)));
    var post := HttpRequest(PostAddPassword(AddPasswordUrl(v.clientId), SecretDisplayName, "Bearer " + v.graphToken));
    var saved := StateSaved(ClientSecretKeyIdState, info.keyId);
    var form := HttpRequest(PostForm(endpoint, FormBody(v.tenantId, v.clientId, info.secretText, v.resource), FormContentType));
    ProjectAll(out, IsMilestone);
    ProjectConcat(metadata.events, secret.events, IsMilestone);
    ProjectConcat(metadata.events + secret.events, token.events, IsMilestone);
    ProjectConcat(metadata.events + secret.events + token.events, out, IsMilestone);
    RegroupFour(get, post, saved, form, out);
  }

  /** Four single events, grouped as the stages record them, then a stretch. */
  lemma RegroupFour(e1: Event, e2: Event, e3: Event, e4: Event, o: seq<Event>)
    ensures [e1] + ([e2] + [e3]) + [e4] + o == [e1, e2, e3, e4] + o
  {
  }

  /** Once the secret is created, its key id is saved before the token request is sent; the
      output is set exactly when the token is granted, and both clients are disposed last. */
  lemma MainTokenRequested(w: AcsWorld)
    requires InputsEffects(w.inputs).result.Ok?
    requires var v := InputsEffects(w.inputs).result.value;
             && MetadataEffects(w.svc, v.instance, v.tenantId).result.Ok?
             && SecretEffects(w.svc, v.graphToken, v.clientId, SavedState(w.state, v)).result.Ok?
    ensures var v := InputsEffects(w.inputs).result.value;
            var doc := MetadataEffects(w.svc, v.instance, v.tenantId).result.value;
            var info := SecretEffects(w.svc, v.graphToken, v.clientId, SavedState(w.state, v)).result.value;
            var endpoint := TokenEndpoint(doc.endpoints, v.tenantId);
            var token := TokenEffects(w.svc, endpoint, v.tenantId, v.clientId, info.secretText, v.resource);
            var main := MainEffects(w);
            && Project(main.events, IsMilestone)
               == Saves(v) + [HttpRequest(GetJson(MetadataUrl(v.instance, v.tenantId))),
                              HttpRequest(PostAddPassword(AddPasswordUrl(v.clientId), SecretDisplayName, "Bearer " + v.graphToken)),
                              StateSaved(ClientSecretKeyIdState, info.keyId),
                              HttpRequest(PostForm(endpoint, FormBody(v.tenantId, v.clientId, info.secretText, v.resource), FormContentType))]
                  + (if token.result.Ok? then [Output(AcsTokenOutput, TextOutput(token.result.value))] else [])
                  + Disposals
            && main.state == SavedState(w.state, v)[ClientSecretKeyIdState := info.keyId]
            && (main.result.Ok? <==> token.result.Ok?)
  {
    var v := InputsEffects(w.inputs).result.value;
    InputsContract(w.inputs);
    MainAfterRead(w, v);
    TryTokenRequested(w.svc, v, SavedState(w.state, v));
    var attempt := TryEffects(w.svc, v, SavedState(w.state, v));
    MainFrame(InputsEffects(w.inputs).events, v, attempt.events);
    var doc := MetadataEffects(w.svc, v.instance, v.tenantId).result.value;
    var info := SecretEffects(w.svc, v.graphToken, v.clientId, SavedState(w.state, v)).result.value;
    var endpoint := TokenEndpoint(doc.endpoints, v.tenantId);
    var token := TokenEffects(w.svc, endpoint, v.tenantId, v.clientId, info.secretText, v.resource);
    Associate(Saves(v),
      [HttpRequest(GetJson(MetadataUrl(v.instance, v.tenantId))),
       HttpRequest(PostAddPassword(AddPasswordUrl(v.clientId), SecretDisplayName, "Bearer " + v.graphToken)),
       StateSaved(ClientSecretKeyIdState, info.keyId),
       HttpRequest(PostForm(endpoint, FormBody(v.tenantId, v.clientId, info.secretText, v.resource), FormContentType))],
      if token.result.Ok? then [Output(AcsTokenOutput, TextOutput(token.result.value))] else [], Disposals);
  }

  /** Regrouping a stretch made of two. */
  lemma Associate(a: seq<Event>, b: seq<Event>, c: seq<Event>, d: seq<Event>)
    ensures a + (b + c) + d == a + b + c + d
  {
  }

  /** The last `k + |rest|` events of `x + t + rest` are the last `k` of `t`, then `rest`. */
  lemma LastOfThree(x: seq<Event>, t: seq<Event>, rest: seq<Event>, k: nat)
    requires |t| >= k
    ensures var all := x + t + rest;
            all[|all| - (k + |rest|)..] == t[|t| - k..] + rest
  {
  }

  /** A granted token ends the `try` block: it is masked, then its signature segment, then the
      output is set; the secret was masked before. */
  lemma TryMasksBeforeOutput(svc: AcsService, v: AcsInputs, state: map<string, string>)
    requires MetadataEffects(svc, v.instance, v.tenantId).result.Ok?
    requires SecretEffects(svc, v.graphToken, v.clientId, state).result.Ok?
    requires var doc := MetadataEffects(svc, v.instance, v.tenantId).result.value;
             var info := SecretEffects(svc, v.graphToken, v.clientId, state).result.value;
             TokenEffects(svc, TokenEndpoint(doc.endpoints, v.tenantId), v.tenantId, v.clientId, info.secretText, v.resource).result.Ok?
    ensures var doc := MetadataEffects(svc, v.instance, v.tenantId).result.value;
            var info := SecretEffects(svc, v.graphToken, v.clientId, state).result.value;
            var t := TokenEffects(svc, TokenEndpoint(doc.endpoints, v.tenantId), v.tenantId, v.clientId, info.secretText, v.resource).result.value;
            var attempt := TryEffects(svc, v, state);
            && attempt.result.Ok?
            && |attempt.events| >= 3
            && attempt.events[|attempt.events| - 3..] == [Secret(t), Secret(JwtSignature(t)), Output(AcsTokenOutput, TextOutput(t))]
            && {info.secretText, t, JwtSignature(t)} <= Masked(attempt.events)
  {
    var metadata := MetadataEffects(svc, v.instance, v.tenantId);
    var doc := metadata.result.value;
    var secret := SecretEffects(svc, v.graphToken, v.clientId, state);
    var info := secret.result.value;
    var endpoint := TokenEndpoint(doc.endpoints, v.tenantId);
    var token := TokenEffects(svc, endpoint, v.tenantId, v.clientId, info.secretText, v.resource);
    var t := token.result.value;
    var out := [Output(AcsTokenOutput, TextOutput(t))];
    TokenOutcome(svc, endpoint, v.tenantId, v.clientId, info.secretText, v.resource);
    TokenMasking(svc, endpoint, v.tenantId, v.clientId, info.secretText, v.resource);
    SecretMasking(svc, v.graphToken, v.clientId, state);
    TryAfterMetadata(svc, v, state, doc);
    var before := metadata.events + secret.events;
    LastOfThree(before, token.events, out, 2);
    MaskedConcat(before, token.events);
    MaskedConcat(before + token.events, out);
    MaskedConcat(metadata.events, secret.events);
  }

  lemma TailOfMain(before: seq<Event>, attempt: seq<Event>, last: seq<Event>)
    requires |last| == 3 && |attempt| >= 3 && attempt[|attempt| - 3..] == last
    ensures var all := before + attempt + Disposals;
            |all| >= 5 && all[|all| - 5..] == last + Disposals
  {
    LastOfThree(before, attempt, Disposals, 3);
  }

  /** On success the token and its signature segment are masked right before the output is set,
      and both clients are disposed last. */
  lemma MainMasksBeforeOutput(w: AcsWorld, v: AcsInputs)
    requires InputsEffects(w.inputs).result == Ok(v)
    requires MetadataEffects(w.svc, v.instance, v.tenantId).result.Ok?
    requires SecretEffects(w.svc, v.graphToken, v.clientId, SavedState(w.state, v)).result.Ok?
    requires var doc := MetadataEffects(w.svc, v.instance, v.tenantId).result.value;
                var info := SecretEffects(w.svc, v.graphToken, v.clientId, SavedState(w.state, v)).result.value;
                TokenEffects(w.svc, TokenEndpoint(doc.endpoints, v.tenantId), v.tenantId, v.clientId, info.secretText, v.resource).result.Ok?
    ensures var doc := MetadataEffects(w.svc, v.instance, v.tenantId).result.value;
            var info := SecretEffects(w.svc, v.graphToken, v.clientId, SavedState(w.state, v)).result.value;
            var t := TokenEffects(w.svc, TokenEndpoint(doc.endpoints, v.tenantId), v.tenantId, v.clientId, info.secretText, v.resource).result.value;
            var main := MainEffects(w);
            && main.result.Ok?
            && main.events[|main.events| - 5..]
               == [Secret(t), Secret(JwtSignature(t)), Output(AcsTokenOutput, TextOutput(t))] + Disposals
  {
    var state := SavedState(w.state, v);
    var doc := MetadataEffects(w.svc, v.instance, v.tenantId).result.value;
    var info := SecretEffects(w.svc, v.graphToken, v.clientId, state).result.value;
    var t := TokenEffects(w.svc, TokenEndpoint(doc.endpoints, v.tenantId), v.tenantId, v.clientId, info.secretText, v.resource).result.value;
    MainAfterRead(w, v);
    TryMasksBeforeOutput(w.svc, v, state);
    var attempt := TryEffects(w.svc, v, state);
    TailOfMain(InputsEffects(w.inputs).events + Saves(v), attempt.events,
      [Secret(t), Secret(JwtSignature(t)), Output(AcsTokenOutput, TextOutput(t))]);
  }


  /** A successful step has masked the secret, the token and the token's signature segment. */
  lemma MainMasksSecrets(w: AcsWorld, v: AcsInputs)
    requires InputsEffects(w.inputs).result == Ok(v)
    requires MetadataEffects(w.svc, v.instance, v.tenantId).result.Ok?
    requires SecretEffects(w.svc, v.graphToken, v.clientId, SavedState(w.state, v)).result.Ok?
    requires var doc := MetadataEffects(w.svc, v.instance, v.tenantId).result.value;
                var info := SecretEffects(w.svc, v.graphToken, v.clientId, SavedState(w.state, v)).result.value;
                TokenEffects(w.svc, TokenEndpoint(doc.endpoints, v.tenantId), v.tenantId, v.clientId, info.secretText, v.resource).result.Ok?
    ensures var doc := MetadataEffects(w.svc, v.instance, v.tenantId).result.value;
            var info := SecretEffects(w.svc, v.graphToken, v.clientId, SavedState(w.state, v)).result.value;
            var t := TokenEffects(w.svc, TokenEndpoint(doc.endpoints, v.tenantId), v.tenantId, v.clientId, info.secretText, v.resource).result.value;
            var main := MainEffects(w);
            {info.secretText, t, JwtSignature(t)} <= Masked(main.events)
  {
    var state := SavedState(w.state, v);
    MainAfterRead(w, v);
    TryMasksBeforeOutput(w.svc, v, state);
    var attempt := TryEffects(w.svc, v, state);
    var before := InputsEffects(w.inputs).events + Saves(v);
    var all := before + attempt.events + Disposals;
    assert MainEffects(w).events == all;
    assert Masked(attempt.events) <= Masked(all) by {
      MaskedConcat(before, attempt.events);
      MaskedConcat(before + attempt.events, Disposals);
    }
  }

  // ---------------------------------------------------------------------------------------------
  // The step, on the runner

  /** The input reads at the start of `main()`. */
  method ReadAcsInputs(host: Host) returns (r: Result<AcsInputs>)
    modifies host
    ensures r == InputsEffects(host.inputs).result
    ensures host.trace == old(host.trace) + InputsEffects(host.inputs).events
    ensures host.state == old(host.state)
  {
    ghost var t0 := host.trace;
    var clientId := GetInput(host, WorkflowRunUtils.ClientIdInput, Required);
    if clientId.Err? {
      return Err(clientId.error);
    }
    var tenantId := GetInput(host, WorkflowRunUtils.TenantIdInput, Required);
    if tenantId.Err? {
      return Err(tenantId.error);
    }
    var instance := GetInput(host, WorkflowRunUtils.InstanceInput, NoOptions);
    var graphToken := GetInput(host, GraphTokenInput, Required);
    if graphToken.Err? {
      return Err(graphToken.error);
    }
    var resourceId := GetInput(host, ResourceIdInput, NoOptions);
    var resourcePath := GetInput(host, ResourcePathInput, NoOptions);
    InputsRead(host.inputs, clientId.value, tenantId.value, graphToken.value);
    SixLines(t0, InputLine(WorkflowRunUtils.ClientIdInput, clientId.value), InputLine(WorkflowRunUtils.TenantIdInput, tenantId.value),
      InputLine(WorkflowRunUtils.InstanceInput, instance.value), InputLine(GraphTokenInput, graphToken.value),
      InputLine(ResourceIdInput, resourceId.value), InputLine(ResourcePathInput, resourcePath.value));
    r := Ok(AcsInputs(clientId.value, tenantId.value, WorkflowRunUtils.OrElse(instance.value, AzurePublic),
      graphToken.value, AcsResource(WorkflowRunUtils.OrElse(resourceId.value, clientId.value), resourcePath.value,
      tenantId.value)));
  }

  /** `InputsEffects` once the three required inputs are there. */
  lemma InputsRead(inputs: map<string, string>, clientId: string, tenantId: string, graphToken: string)
    requires CoreGetInput(inputs, WorkflowRunUtils.ClientIdInput, Required) == Ok(clientId)
    requires CoreGetInput(inputs, WorkflowRunUtils.TenantIdInput, Required) == Ok(tenantId)
    requires CoreGetInput(inputs, GraphTokenInput, Required) == Ok(graphToken)
    ensures var instance := Trim(RawInput(inputs, WorkflowRunUtils.InstanceInput));
            var resourceId := Trim(RawInput(inputs, ResourceIdInput));
            var resourcePath := Trim(RawInput(inputs, ResourcePathInput));
            InputsEffects(inputs) == Effects(
              [InputLine(WorkflowRunUtils.ClientIdInput, clientId)]
              + [InputLine(WorkflowRunUtils.TenantIdInput, tenantId), InputLine(WorkflowRunUtils.InstanceInput, instance)]
              + [InputLine(GraphTokenInput, graphToken), InputLine(ResourceIdInput, resourceId), InputLine(ResourcePathInput, resourcePath)],
              Ok(AcsInputs(clientId, tenantId, WorkflowRunUtils.OrElse(instance, AzurePublic), graphToken,
                AcsResource(WorkflowRunUtils.OrElse(resourceId, clientId), resourcePath, tenantId))))
  {
  }

  lemma SixLines(t: seq<Event>, a: Event, b: Event, c: Event, d: Event, e: Event, f: Event)
    ensures t + [a] + [b] + [c] + [d] + [e] + [f] == t + ([a] + [b, c] + [d, e, f])
  {
  }

  /** `getAcsMetadata`: one GET of the tenant's metadata document. */
  method GetAcsMetadata(host: Host, svc: AcsService, instance: string, tenantId: string) returns (r: Result<AcsMetadata>)
    modifies host
    ensures r == MetadataEffects(svc, instance, tenantId).result
    ensures host.trace == old(host.trace) + MetadataEffects(svc, instance, tenantId).events
    ensures host.state == old(host.state)
  {
    host.Emit(MetadataLine(instance, tenantId));
    var call := GetJson(MetadataUrl(instance, tenantId));
    host.Emit(HttpRequest(call));
    var answer := svc.getJson(call);
    if answer.Err? {
      return Err(answer.error);
    }
    var resp := answer.value;
    if resp.statusCode != 200 || resp.result.None? {
      return Err(HttpClientError(MetadataFailed + tenantId, Some(resp.statusCode)));
    }
    r := Ok(resp.result.value);
  }

  /** `createServicePrincipalClientSecret`: add a password to the service principal, record its
      key id for the post step, and mask the secret. */
  method CreateServicePrincipalClientSecret(host: Host, svc: AcsService, graphToken: string, clientId: string)
    returns (r: Result<SecretInfo>)
    modifies host
    ensures var spec := SecretEffects(svc, graphToken, clientId, old(host.state));
            host.trace == old(host.trace) + spec.events && r == spec.result && host.state == spec.state
  {
    ghost var t0 := host.trace;
    var url := AddPasswordUrl(clientId);
    host.Emit(Log(Debug, AddPasswordLine));
    host.Emit(Log(Debug, SendingPostLine + url));
    var call := PostAddPassword(url, SecretDisplayName, "Bearer " + graphToken);
    host.Emit(HttpRequest(call));
    var answer := svc.postJson(call);
    if answer.Err? {
      return Err(answer.error);
    }
    var resp := answer.value;
    if resp.statusCode != 200 || resp.result.None? {
      return Err(HttpClientError(AddPasswordFailed, Some(resp.statusCode)));
    }
    var info := resp.result.value;
    host.Emit(Log(Debug, SecretCreatedLine + info.keyId));
    host.Emit(Log(Debug, RegisteringLine));
    host.SaveState(ClientSecretKeyIdState, info.keyId);
    host.Emit(Secret(info.secretText));
    r := Ok(info);
  }

  /** `getAcsAccessToken`: POST the client-credentials form to the token endpoint, then mask the
      token and its signature segment. */
  method GetAcsAccessToken(host: Host, svc: AcsService, endpoint: string, realm: string, clientId: string,
                           clientSecret: string, resource: string) returns (r: Result<string>)
    modifies host
    ensures r == TokenEffects(svc, endpoint, realm, clientId, clientSecret, resource).result
    ensures host.trace == old(host.trace) + TokenEffects(svc, endpoint, realm, clientId, clientSecret, resource).events
    ensures host.state == old(host.state)
  {
    ghost var t0 := host.trace;
    host.Emit(TokenRequestLine(resource, endpoint));
    var call := PostForm(endpoint, FormBody(realm, clientId, clientSecret, resource), FormContentType);
    host.Emit(HttpRequest(call));
    var answer := svc.post(call);
    if answer.Err? {
      return Err(answer.error);
    }
    var resp := answer.value;
    var json := svc.parse(resp.body);
    if json.None? {
      return Err(SyntaxError);
    }
    var statusCode := StatusOf(resp);
    if statusCode != 200 {
      return Err(HttpClientError(TokenFailed + svc.indent(resp.body), Some(statusCode)));
    }
    if json.value.accessToken.None? {
      host.Emit(Secret(""));
      return Err(TypeError(SplitOfUndefined));
    }
    var token := json.value.accessToken.value;
    host.Emit(Secret(token));
    host.Emit(Secret(JwtSignature(token)));
    r := Ok(token);
  }

  /** The `try` block of `main()`. */
  method TryBlock(host: Host, svc: AcsService, v: AcsInputs) returns (r: Result<()>)
    modifies host
    ensures var spec := TryEffects(svc, v, old(host.state));
            host.trace == old(host.trace) + spec.events && r == spec.result && host.state == spec.state
  {
    ghost var t0 := host.trace;
    ghost var s0 := host.state;
    var doc := GetAcsMetadata(host, svc, v.instance, v.tenantId);
    if doc.Err? {
      TryStops(svc, v, s0);
      return Err(doc.error);
    }
    ghost var metadata := MetadataEffects(svc, v.instance, v.tenantId).events;
    var endpoint := TokenEndpoint(doc.value.endpoints, v.tenantId);
    var info := CreateServicePrincipalClientSecret(host, svc, v.graphToken, v.clientId);
    ghost var secret := SecretEffects(svc, v.graphToken, v.clientId, s0).events;
    TryAfterMetadata(svc, v, s0, doc.value);
    AppendStretches(t0, metadata, secret);
    if info.Err? {
      return Err(info.error);
    }
    var token := GetAcsAccessToken(host, svc, endpoint, v.tenantId, v.clientId, info.value.secretText, v.resource);
    ghost var tokenEvents := TokenEffects(svc, endpoint, v.tenantId, v.clientId, info.value.secretText, v.resource).events;
    AppendStretches(t0, metadata + secret, tokenEvents);
    if token.Err? {
      return Err(token.error);
    }
    host.Emit(Output(AcsTokenOutput, TextOutput(token.value)));
    AppendStretches(t0, metadata + secret + tokenEvents, [Output(AcsTokenOutput, TextOutput(token.value))]);
    r := Ok(());
  }

  /** `TryEffects` when the metadata does not come. */
  lemma TryStops(svc: AcsService, v: AcsInputs, state: map<string, string>)
    requires MetadataEffects(svc, v.instance, v.tenantId).result.Err?
    ensures var metadata := MetadataEffects(svc, v.instance, v.tenantId);
            TryEffects(svc, v, state) == AcsStep(metadata.events, Err(metadata.result.error), state)
  {
  }

  /** `main()`: the inputs, the two saved values, the `try` block and the two disposals. */
  method RunMain(host: Host, svc: AcsService) returns (r: Result<()>)
    modifies host
    ensures var spec := MainEffects(AcsWorld(svc, host.inputs, old(host.state)));
            host.trace == old(host.trace) + spec.events && r == spec.result && host.state == spec.state
  {
    ghost var t0 := host.trace;
    ghost var w := AcsWorld(svc, host.inputs, host.state);
    var read := ReadAcsInputs(host);
    if read.Err? {
      MainStops(w);
      return Err(read.error);
    }
    var v := read.value;
    ghost var readEvents := InputsEffects(w.inputs).events;
    host.SaveState(ClientIdState, v.clientId);
    host.SaveState(GraphTokenState, v.graphToken);
    AppendTwo(t0 + readEvents, StateSaved(ClientIdState, v.clientId), StateSaved(GraphTokenState, v.graphToken));
    AppendStretches(t0, readEvents, Saves(v));
    r := TryBlock(host, svc, v);
    ghost var attempt := TryEffects(svc, v, SavedState(w.state, v)).events;
    AppendStretches(t0, readEvents + Saves(v), attempt);
    host.Emit(Disposed(AcsHttpClient));
    host.Emit(Disposed(GraphHttpClient));
    AppendTwo(t0 + (readEvents + Saves(v) + attempt), Disposed(AcsHttpClient), Disposed(GraphHttpClient));
    AppendStretches(t0, readEvents + Saves(v) + attempt, Disposals);
    MainAfterRead(w, v);
  }

  /** `MainEffects` when an input is missing. */
  lemma MainStops(w: AcsWorld)
    requires InputsEffects(w.inputs).result.Err?
    ensures var read := InputsEffects(w.inputs);
            MainEffects(w) == AcsStep(read.events, Err(read.result.error), w.state)
  {
  }
}
