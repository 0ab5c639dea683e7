/** The main step of the `ms-idp-workflow-run-auth` action (`action.js`): authenticate with the
    runner's identity token and, when asked to, register a temporary certificate on the
    application's service principal, record its key id for the post step, and authenticate again
    with that certificate; then publish the token. */
module WorkflowRunAction {
  import opened Wrappers
  import opened Msal
  import opened Graph
  import opened ActionsCore
  import opened JwtMasking
  import opened WorkflowRunUtils
  import opened MsalProvider
  import opened CertProvider
  import opened SpUpdater

  /** The name of the HTTP client the MSAL applications use (`new GhaHttpClient()` of `run`). */
  const MsalClient := "msal http client"
  const KeyCredentialIdState := "key-credential-id"
  const SaveStateNotAFunction := "saveState is not a function"
  const GetActionInputsNotAFunction := "getActionInputs is not a function"
  const ReplacingLine := "Replacing MSAL application with a new application using the temporary certificate for client authentication"
  const AccessTokenOutput := "access-token"
  const ResultOutput := "result"

  /** What `acquireAccessToken` destructures from `getActionInputs()`. */
  datatype FlowInputs = FlowInputs(
    clientId: string,
    tenantId: string,
    instance: string,
    resource: string,
    idTokenAudience: Option<string>,
    useClientCertificate: bool)

  /** Which `saveState` the step calls: the one it imports from the core helpers package, which
      exports none (so the name is `undefined`), or the `@actions/core` one it evidently means. */
  datatype SaveBinding = HelpersExport | CoreSaveState

  /** Everything outside the step that its outcome depends on. */
  datatype World = World(
    ext: Externals,
    remote: Remote,
    env: RunEnvironment,
    src: CertificateSources,
    debug: bool,
    state: map<string, string>)

  /** What a stage of the step does: its effects, how it settles, and the principals and the
      run-state afterwards. */
  datatype FlowStep<T> = FlowStep(
    events: seq<Event>,
    result: Result<T>,
    principals: map<string, SpnEntity>,
    state: map<string, string>)

  /** The provider built from the identity token. */
  function FirstProvider(inputs: FlowInputs, idToken: string): AccessTokenProvider
  {
    AccessTokenProvider(inputs.clientId,
      CjsConfig(Some(MsalClient), inputs.clientId, AssertionText(idToken), inputs.tenantId, inputs.instance))
  }

  /** The argument of the replacement provider: the generated key, thumbprint and certificate. */
  function CertificateInfo(kp: KeyPair): AssertionInfo
  {
    AssertionObject(None, kp.privateKey, kp.thumbprint, Some(kp.certificate))
  }

  /** The provider built from the temporary certificate. */
  function CertificateProvider(inputs: FlowInputs, kp: KeyPair): AccessTokenProvider
  {
    AccessTokenProvider(inputs.clientId,
      CjsConfig(Some(MsalClient), inputs.clientId, CertificateInfo(kp), inputs.tenantId, inputs.instance))
  }

  /** The effect of `generateCertificate()`. */
  function OpensslEvent(w: World): Event
  {
    var dir := TempDir(w.env, w.src.systemTemp);
    Exec(Openssl, OpensslArgs(CertSubject(w.env), CerPath(w.src.join, dir, w.src.uuid), KeyPath(w.src.join, dir, w.src.uuid)), None)
  }

  /** `saveState('key-credential-id', keyId)` under either binding. */
  function SaveKeyId(binding: SaveBinding, keyId: string, principals: map<string, SpnEntity>, state: map<string, string>): FlowStep<()>
  {
    match binding
    case HelpersExport => FlowStep([], Err(TypeError(SaveStateNotAFunction)), principals, state)
    case CoreSaveState => FlowStep([StateSaved(KeyCredentialIdState, keyId)], Ok(()), principals, state[KeyCredentialIdState := keyId])
  }

  /** The registration in `acquireAccessToken`: generate the key pair, then add it through an
      updater that is disposed in `finally`; settles with the key pair and the registered entry. */
  function RegisterEffects(w: World, inputs: FlowInputs, first: AccessTokenProvider): FlowStep<(KeyPair, KeyCredential)>
  {
    match CertOutcome(w.ext, w.env, w.src)
    case Err(e) => FlowStep([OpensslEvent(w)], Err(e), w.remote.principals, w.state)
    case Ok(kp) =>
      var connect := ConnectEffects(Cjs, first, w.ext, w.debug);
      var client := BearerOf(connect.result);
      var add := AddEffects(client, inputs.clientId, kp, w.remote);
      var events := [OpensslEvent(w)] + connect.events + add.events + (if client.Ok? then [Disposed(UpdaterClient)] else []);
      match add.result
      case Err(e) => FlowStep(events, Err(e), add.principals, w.state)
      case Ok(credential) => FlowStep(events, Ok((kp, credential)), add.principals, w.state)
  }

  /** The certificate part of `acquireAccessToken` (`if (useClientCertificate)`): register, save
      the key id, and build the replacement provider. */
  function ProvisionEffects(w: World, inputs: FlowInputs, first: AccessTokenProvider, binding: SaveBinding): FlowStep<AccessTokenProvider>
  {
    var register := RegisterEffects(w, inputs, first);
    match register.result
    case Err(e) => FlowStep(register.events, Err(e), register.principals, register.state)
    case Ok(pair) =>
      var save := SaveKeyId(binding, pair.1.keyId, register.principals, register.state);
      match save.result
      case Err(e) => FlowStep(register.events + save.events, Err(e), register.principals, save.state)
      case Ok(_) =>
        FlowStep(register.events + save.events + [Log(Debug, ReplacingLine)], Ok(CertificateProvider(inputs, pair.0)),
          register.principals, save.state)
  }

  /** The token request of the provider in use, then the two outputs. */
  function FinishEffects(ext: Externals, debug: bool, resource: string, p: AccessTokenProvider): Effects<()>
  {
    var run := AcquireEffects(Cjs, p, resource, ext.tokens(p.config, [DefaultScope(EffectiveResource(p, resource))]), debug, ext.base64UrlDecode);
    match run.result
    case Err(e) => Effects(run.events, Err(e))
    case Ok(result) =>
      Effects(run.events + [Output(AccessTokenOutput, TextOutput(result.accessToken)), Output(ResultOutput, AuthResultOutput(result))], Ok(()))
  }

  /** `acquireAccessToken(httpClient)`. */
  function FlowEffects(w: World, inputs: FlowInputs, binding: SaveBinding): FlowStep<()>
  {
    var idToken := w.ext.idTokens(inputs.idTokenAudience);
    var requested := CjsTokenEvents(w.ext, inputs.idTokenAudience, w.debug);
    match idToken
    case Err(e) => FlowStep(requested, Err(e), w.remote.principals, w.state)
    case Ok(token) =>
      var first := FirstProvider(inputs, token);
      if !inputs.useClientCertificate then
        var finish := FinishEffects(w.ext, w.debug, inputs.resource, first);
        FlowStep(requested + finish.events, finish.result, w.remote.principals, w.state)
      else
        var provision := ProvisionEffects(w, inputs, first, binding);
        match provision.result
        case Err(e) => FlowStep(requested + provision.events, Err(e), provision.principals, provision.state)
        case Ok(replacement) =>
          var finish := FinishEffects(w.ext, w.debug, inputs.resource, replacement);
          FlowStep(requested + provision.events + finish.events, finish.result, provision.principals, provision.state)
  }

  /** `run()`: the flow, and the MSAL HTTP client disposed in `finally`. */
  function RunEffects(w: World, inputs: FlowInputs, binding: SaveBinding): FlowStep<()>
  {
    var flow := FlowEffects(w, inputs, binding);
    flow.(events := flow.events + [Disposed(MsalClient)])
  }

  /** The effects of the final stage apart from log lines and masking calls: the token request
      and, when a token is granted, the two outputs, the access token first. */
  function FinishMilestones(ext: Externals, resource: string, p: AccessTokenProvider): seq<Event>
  {
    var scope := DefaultScope(EffectiveResource(p, resource));
    [TokenRequested(p.config, [scope])]
      + (match ext.tokens(p.config, [scope])
         case Acquired(result) => [Output(AccessTokenOutput, TextOutput(result.accessToken)), Output(ResultOutput, AuthResultOutput(result))]
         case _ => [])
  }

  /** The final stage: outputs are set only when a token is granted, after its request. */
  lemma FinishContract(ext: Externals, debug: bool, resource: string, p: AccessTokenProvider)
    ensures var finish := FinishEffects(ext, debug, resource, p);
            && Project(finish.events, IsMilestone) == FinishMilestones(ext, resource, p)
            && (finish.result.Ok? <==> ext.tokens(p.config, [DefaultScope(EffectiveResource(p, resource))]).Acquired?)
  {
    var scope := DefaultScope(EffectiveResource(p, resource));
    var run := AcquireEffects(Cjs, p, resource, ext.tokens(p.config, [scope]), debug, ext.base64UrlDecode);
    AcquireMilestones(Cjs, p, resource, ext.tokens(p.config, [scope]), debug, ext.base64UrlDecode);
    if run.result.Ok? {
      var outputs := [Output(AccessTokenOutput, TextOutput(run.result.value.accessToken)), Output(ResultOutput, AuthResultOutput(run.result.value))];
      ProjectConcat([outputs[0]], [outputs[1]], IsMilestone);
      ProjectSingle(outputs[0], IsMilestone);
      ProjectSingle(outputs[1], IsMilestone);
      assert outputs == [outputs[0]] + [outputs[1]];
      ProjectConcat(run.events, outputs, IsMilestone);
    }
  }

  /** The registration: the `openssl` run, the updater's Graph token request, the updater's
      requests, and the updater's disposal when it obtained a client. */
  lemma RegisterMilestones(w: World, inputs: FlowInputs, first: AccessTokenProvider, kp: KeyPair)
    requires CertOutcome(w.ext, w.env, w.src) == Ok(kp)
    ensures var client := BearerOf(ConnectEffects(Cjs, first, w.ext, w.debug).result);
            var add := AddEffects(client, inputs.clientId, kp, w.remote);
            Project(RegisterEffects(w, inputs, first).events, IsMilestone)
            == [OpensslEvent(w), TokenRequested(first.config, [GraphScope])] + Project(add.events, IsMilestone)
               + (if client.Ok? then [Disposed(UpdaterClient)] else [])
  {
    var connect := ConnectEffects(Cjs, first, w.ext, w.debug);
    var client := BearerOf(connect.result);
    var add := AddEffects(client, inputs.clientId, kp, w.remote);
    var closing: seq<Event> := if client.Ok? then [Disposed(UpdaterClient)] else [];
    assert RegisterEffects(w, inputs, first).events == [OpensslEvent(w)] + connect.events + add.events + closing;
    AcquireMilestones(Cjs, first, GraphResource, w.ext.tokens(first.config, [GraphScope]), w.debug, w.ext.base64UrlDecode);
    ProjectSingle(OpensslEvent(w), IsMilestone);
    if client.Ok? {
      ProjectSingle(Disposed(UpdaterClient), IsMilestone);
    } else {
      ProjectNone(closing, IsMilestone);
    }
    assert EffectiveResource(first, GraphResource) == GraphResource;
    assert Project(connect.events, IsMilestone) == [TokenRequested(first.config, [GraphScope])];
    var a := [OpensslEvent(w)] + connect.events;
    var b := a + add.events;
    ProjectConcat([OpensslEvent(w)], connect.events, IsMilestone);
    assert Project(a, IsMilestone) == [OpensslEvent(w), TokenRequested(first.config, [GraphScope])];
    ProjectConcat(a, add.events, IsMilestone);
    ProjectConcat(b, closing, IsMilestone);
    assert Project(closing, IsMilestone) == (if client.Ok? then [Disposed(UpdaterClient)] else []);
  }

  /** Without `use-client-certificate`: the identity token is requested first; no certificate is
      generated, nothing is saved and no second provider is built (one token request in all);
      the MSAL HTTP client is disposed last. */
  lemma RunWithoutCertificate(w: World, inputs: FlowInputs, binding: SaveBinding)
    requires !inputs.useClientCertificate
    ensures var run := RunEffects(w, inputs, binding);
            && Project(run.events, IsMilestone)
               == [IdTokenRequested(inputs.idTokenAudience)]
                  + (match w.ext.idTokens(inputs.idTokenAudience)
                     case Ok(token) => FinishMilestones(w.ext, inputs.resource, FirstProvider(inputs, token))
                     case Err(_) => [])
                  + [Disposed(MsalClient)]
            && run.state == w.state && run.principals == w.remote.principals
  {
    var idToken := w.ext.idTokens(inputs.idTokenAudience);
    var requested := CjsTokenEvents(w.ext, inputs.idTokenAudience, w.debug);
    var flow := FlowEffects(w, inputs, binding);
    CjsTokenMilestones(w.ext, inputs.idTokenAudience, w.debug);
    if idToken.Ok? {
      var finish := FinishEffects(w.ext, w.debug, inputs.resource, FirstProvider(inputs, idToken.value));
      assert flow.events == requested + finish.events;
      FinishContract(w.ext, w.debug, inputs.resource, FirstProvider(inputs, idToken.value));
      ProjectConcat(requested, finish.events, IsMilestone);
    } else {
      assert flow.events == requested;
    }
    ProjectSingle(Disposed(MsalClient), IsMilestone);
    ProjectConcat(flow.events, [Disposed(MsalClient)], IsMilestone);
  }

  /** A registration that succeeds: the `openssl` run, the Graph token request, the read and the
      write of the extended list, and the updater's disposal; the registered entry is on the
      principal afterwards; nothing is saved yet. */
  lemma RegisteredMilestones(w: World, inputs: FlowInputs, token: string, kp: KeyPair, graphToken: AuthResult, credential: KeyCredential)
    requires CertOutcome(w.ext, w.env, w.src) == Ok(kp)
    requires ConnectEffects(Cjs, FirstProvider(inputs, token), w.ext, w.debug).result == Ok(graphToken)
    requires inputs.clientId in w.remote.principals
    requires AddEffects(Ok(graphToken.accessToken), inputs.clientId, kp, w.remote).result == Ok(credential)
    ensures kp.x509.Some?
    ensures var register := RegisterEffects(w, inputs, FirstProvider(inputs, token));
            && register.result == Ok((kp, credential))
            && Project(register.events, IsMilestone)
               == [OpensslEvent(w), TokenRequested(FirstProvider(inputs, token).config, [GraphScope])]
                  + AddRequests(inputs.clientId, kp, w.remote) + [Disposed(UpdaterClient)]
            && inputs.clientId in register.principals
            && credential in ListOf(register.principals[inputs.clientId])
            && register.state == w.state
  {
    var first := FirstProvider(inputs, token);
    RegisterMilestones(w, inputs, first, kp);
    AddContract(graphToken.accessToken, inputs.clientId, kp, w.remote);
    AddMilestones(graphToken.accessToken, inputs.clientId, kp, w.remote);
  }

  /** The certificate branch of the flow once the identity token is granted: the request's
      effects, then the provisioning's, then (when it yields a provider) the final stage's. */
  lemma CertificateFlow(w: World, inputs: FlowInputs, binding: SaveBinding, token: string)
    requires inputs.useClientCertificate
    requires w.ext.idTokens(inputs.idTokenAudience) == Ok(token)
    ensures var requested := CjsTokenEvents(w.ext, inputs.idTokenAudience, w.debug);
            var provision := ProvisionEffects(w, inputs, FirstProvider(inputs, token), binding);
            var flow := FlowEffects(w, inputs, binding);
            && flow.principals == provision.principals && flow.state == provision.state
            && (provision.result.Err? ==>
                  flow.events == requested + provision.events && flow.result == Err(provision.result.error))
            && (provision.result.Ok? ==>
                  var finish := FinishEffects(w.ext, w.debug, inputs.resource, provision.result.value);
                  flow.events == requested + provision.events + finish.events && flow.result == finish.result)
  {
  }

  /** Provisioning after a successful registration: with `saveState` of `@actions/core` the key
      id is saved and the certificate provider replaces the first one; with the core helpers'
      export the call throws and nothing is saved. */
  lemma ProvisionAfterRegister(w: World, inputs: FlowInputs, first: AccessTokenProvider, binding: SaveBinding, kp: KeyPair, credential: KeyCredential)
    requires RegisterEffects(w, inputs, first).result == Ok((kp, credential))
    ensures var register := RegisterEffects(w, inputs, first);
            var provision := ProvisionEffects(w, inputs, first, binding);
            && provision.principals == register.principals
            && (binding == CoreSaveState ==>
                  && provision.events == register.events + [StateSaved(KeyCredentialIdState, credential.keyId), Log(Debug, ReplacingLine)]
                  && provision.result == Ok(CertificateProvider(inputs, kp))
                  && provision.state == register.state[KeyCredentialIdState := credential.keyId])
            && (binding == HelpersExport ==>
                  && provision.events == register.events
                  && provision.result == Err(TypeError(SaveStateNotAFunction))
                  && provision.state == register.state)
  {
  }

  /** The milestones of a run split at its stages. */
  lemma ProjectRun(requested: seq<Event>, middle: seq<Event>, finish: seq<Event>, run: seq<Event>)
    requires run == requested + middle + finish + [Disposed(MsalClient)]
    ensures Project(run, IsMilestone)
            == Project(requested, IsMilestone) + Project(middle, IsMilestone) + Project(finish, IsMilestone) + [Disposed(MsalClient)]
  {
    ProjectConcat(requested, middle, IsMilestone);
    ProjectConcat(requested + middle, finish, IsMilestone);
    ProjectSingle(Disposed(MsalClient), IsMilestone);
    ProjectConcat(requested + middle + finish, [Disposed(MsalClient)], IsMilestone);
  }

  /** The flow's effects when the identity token is refused, or granted without the certificate
      option: the request's, then (with a token) the final stage's. */
  lemma PlainFlow(w: World, inputs: FlowInputs, binding: SaveBinding)
    requires w.ext.idTokens(inputs.idTokenAudience).Err? || !inputs.useClientCertificate
    ensures var idToken := w.ext.idTokens(inputs.idTokenAudience);
            var requested := CjsTokenEvents(w.ext, inputs.idTokenAudience, w.debug);
            var flow := FlowEffects(w, inputs, binding);
            && (idToken.Err? ==> flow.events == requested)
            && (idToken.Ok? ==>
                  flow.events == requested + FinishEffects(w.ext, w.debug, inputs.resource, FirstProvider(inputs, idToken.value)).events)
  {
  }

  /** The flow's effects start with the identity-token request's. */
  lemma FlowStartsWithRequest(w: World, inputs: FlowInputs, binding: SaveBinding) returns (rest: seq<Event>)
    ensures FlowEffects(w, inputs, binding).events == CjsTokenEvents(w.ext, inputs.idTokenAudience, w.debug) + rest
  {
    var idToken := w.ext.idTokens(inputs.idTokenAudience);
    if idToken.Err? {
      PlainFlow(w, inputs, binding);
      rest := [];
    } else if !inputs.useClientCertificate {
      PlainFlow(w, inputs, binding);
      rest := FinishEffects(w.ext, w.debug, inputs.resource, FirstProvider(inputs, idToken.value)).events;
    } else {
      rest := CertificateFlowTail(w, inputs, binding, idToken.value);
    }
  }

  /** The certificate branch's effects after the identity-token request's. */
  lemma CertificateFlowTail(w: World, inputs: FlowInputs, binding: SaveBinding, token: string) returns (rest: seq<Event>)
    requires inputs.useClientCertificate
    requires w.ext.idTokens(inputs.idTokenAudience) == Ok(token)
    ensures FlowEffects(w, inputs, binding).events == CjsTokenEvents(w.ext, inputs.idTokenAudience, w.debug) + rest
  {
    var requested := CjsTokenEvents(w.ext, inputs.idTokenAudience, w.debug);
    var provision := ProvisionEffects(w, inputs, FirstProvider(inputs, token), binding);
    CertificateFlow(w, inputs, binding, token);
    if provision.result.Err? {
      rest := provision.events;
    } else {
      var finish := FinishEffects(w.ext, w.debug, inputs.resource, provision.result.value);
      rest := provision.events + finish.events;
      AppendStretches(requested, provision.events, finish.events);
    }
  }

  /** With the inputs in hand, every run starts by requesting the identity token and ends by
      disposing of the MSAL HTTP client, whatever happens in between. */
  lemma RunBracketed(w: World, inputs: FlowInputs, binding: SaveBinding)
    ensures var m := Project(RunEffects(w, inputs, binding).events, IsMilestone);
            && |m| >= 2 && m[0] == IdTokenRequested(inputs.idTokenAudience) && m[|m| - 1] == Disposed(MsalClient)
  {
    var requested := CjsTokenEvents(w.ext, inputs.idTokenAudience, w.debug);
    var flow := FlowEffects(w, inputs, binding);
    var rest := FlowStartsWithRequest(w, inputs, binding);
    CjsTokenMilestones(w.ext, inputs.idTokenAudience, w.debug);
    ProjectConcat(requested, rest, IsMilestone);
    ProjectSingle(Disposed(MsalClient), IsMilestone);
    ProjectConcat(flow.events, [Disposed(MsalClient)], IsMilestone);
  }

  /** Saving the key id adds one milestone; the debug line after it adds none. */
  lemma ProjectSaved(register: seq<Event>, keyId: string)
    ensures Project(register + [StateSaved(KeyCredentialIdState, keyId), Log(Debug, ReplacingLine)], IsMilestone)
            == Project(register, IsMilestone) + [StateSaved(KeyCredentialIdState, keyId)]
  {
    var saved := [StateSaved(KeyCredentialIdState, keyId), Log(Debug, ReplacingLine)];
    assert saved == [StateSaved(KeyCredentialIdState, keyId)] + [Log(Debug, ReplacingLine)];
    ProjectSingle(StateSaved(KeyCredentialIdState, keyId), IsMilestone);
    ProjectNone([Log(Debug, ReplacingLine)], IsMilestone);
    ProjectConcat([StateSaved(KeyCredentialIdState, keyId)], [Log(Debug, ReplacingLine)], IsMilestone);
    ProjectConcat(register, saved, IsMilestone);
  }

  /** A registration whose addition throws ends the provisioning with that error, whatever
      `saveState` is bound to; the principals are as the addition left them. */
  lemma RegisterFailure(w: World, inputs: FlowInputs, first: AccessTokenProvider, binding: SaveBinding, kp: KeyPair)
    requires CertOutcome(w.ext, w.env, w.src) == Ok(kp)
    requires AddEffects(BearerOf(ConnectEffects(Cjs, first, w.ext, w.debug).result), inputs.clientId, kp, w.remote).result.Err?
    ensures var add := AddEffects(BearerOf(ConnectEffects(Cjs, first, w.ext, w.debug).result), inputs.clientId, kp, w.remote);
            var register := RegisterEffects(w, inputs, first);
            var provision := ProvisionEffects(w, inputs, first, binding);
            && provision.events == register.events
            && provision.result == Err(add.result.error)
            && provision.principals == add.principals
            && provision.state == w.state
  {
  }

  /** The milestones of a run that stops in provisioning. */
  lemma ProjectStopped(requested: seq<Event>, middle: seq<Event>, run: seq<Event>)
    requires run == requested + middle + [Disposed(MsalClient)]
    ensures Project(run, IsMilestone)
            == Project(requested, IsMilestone) + Project(middle, IsMilestone) + [Disposed(MsalClient)]
  {
    ProjectConcat(requested, middle, IsMilestone);
    ProjectSingle(Disposed(MsalClient), IsMilestone);
    ProjectConcat(requested + middle, [Disposed(MsalClient)], IsMilestone);
  }

  /** Regrouping the milestones of a run that stops in provisioning. */
  lemma RegroupStopped(request: Event, openssl: Event, graph: Event, msal: Event, adds: seq<Event>, closing: seq<Event>)
    ensures [request] + ([openssl, graph] + adds + closing) + [msal]
            == [request, openssl, graph] + adds + closing + [msal]
  {
  }

  /** Regrouping the milestones of a certificate run. */
  lemma Regroup(request: Event, openssl: Event, graph: Event, updater: Event, saved: Event, msal: Event,
                adds: seq<Event>, finish: seq<Event>)
    ensures [request] + ([openssl, graph] + adds + [updater] + [saved]) + finish + [msal]
            == [request, openssl, graph] + adds + [updater, saved] + finish + [msal]
  {
  }

  /** The certificate path as intended (`saveState` of `@actions/core`), when the registration
      succeeds: identity token, certificate, Graph token, read and write, updater disposal, the
      key id saved, and only then the request with the certificate provider and the outputs;
      the MSAL HTTP client last. The run-state holds the key id of an entry on the principal. */
  lemma RunWithCertificate(w: World, inputs: FlowInputs, token: string, kp: KeyPair, graphToken: AuthResult, credential: KeyCredential)
    requires inputs.useClientCertificate
    requires w.ext.idTokens(inputs.idTokenAudience) == Ok(token)
    requires CertOutcome(w.ext, w.env, w.src) == Ok(kp)
    requires ConnectEffects(Cjs, FirstProvider(inputs, token), w.ext, w.debug).result == Ok(graphToken)
    requires inputs.clientId in w.remote.principals
    requires AddEffects(Ok(graphToken.accessToken), inputs.clientId, kp, w.remote).result == Ok(credential)
    ensures kp.x509.Some?
    ensures var run := RunEffects(w, inputs, CoreSaveState);
            && Project(run.events, IsMilestone)
               == [IdTokenRequested(inputs.idTokenAudience), OpensslEvent(w),
                   TokenRequested(FirstProvider(inputs, token).config, [GraphScope])]
                  + AddRequests(inputs.clientId, kp, w.remote)
                  + [Disposed(UpdaterClient), StateSaved(KeyCredentialIdState, credential.keyId)]
                  + FinishMilestones(w.ext, inputs.resource, CertificateProvider(inputs, kp))
                  + [Disposed(MsalClient)]
            && run.state == w.state[KeyCredentialIdState := credential.keyId]
            && inputs.clientId in run.principals
            && credential in ListOf(run.principals[inputs.clientId])
  {
    var first := FirstProvider(inputs, token);
    var requested := CjsTokenEvents(w.ext, inputs.idTokenAudience, w.debug);
    var register := RegisterEffects(w, inputs, first);
    var second := CertificateProvider(inputs, kp);
    var finish := FinishEffects(w.ext, w.debug, inputs.resource, second);
    RegisteredMilestones(w, inputs, token, kp, graphToken, credential);
    ProvisionAfterRegister(w, inputs, first, CoreSaveState, kp, credential);
    CertificateFlow(w, inputs, CoreSaveState, token);
    var provision := ProvisionEffects(w, inputs, first, CoreSaveState);
    var run := RunEffects(w, inputs, CoreSaveState);
    ProjectRun(requested, provision.events, finish.events, run.events);
    ProjectSaved(register.events, credential.keyId);
    CjsTokenMilestones(w.ext, inputs.idTokenAudience, w.debug);
    FinishContract(w.ext, w.debug, inputs.resource, second);
    Regroup(IdTokenRequested(inputs.idTokenAudience), OpensslEvent(w), TokenRequested(first.config, [GraphScope]),
      Disposed(UpdaterClient), StateSaved(KeyCredentialIdState, credential.keyId), Disposed(MsalClient),
      AddRequests(inputs.clientId, kp, w.remote), FinishMilestones(w.ext, inputs.resource, second));
  }

  /** On the certificate path, when the service keeps identifiers and the principal held no entry
      with the new certificate's thumbprint, the key id saved for the post step is the key pair's
      uuid: the post step removes exactly the credential this run appended. */
  lemma SavedKeyIdIsNewCredential(w: World, inputs: FlowInputs, token: string, kp: KeyPair, graphToken: AuthResult, credential: KeyCredential)
    requires inputs.useClientCertificate
    requires w.ext.idTokens(inputs.idTokenAudience) == Ok(token)
    requires CertOutcome(w.ext, w.env, w.src) == Ok(kp)
    requires ConnectEffects(Cjs, FirstProvider(inputs, token), w.ext, w.debug).result == Ok(graphToken)
    requires inputs.clientId in w.remote.principals
    requires AddEffects(Ok(graphToken.accessToken), inputs.clientId, kp, w.remote).result == Ok(credential)
    requires KeepsIdentifiers(w.remote.normalize)
    requires ThumbprintFree(ListOf(w.remote.principals[inputs.clientId]), kp.thumbprint)
    ensures credential.keyId == kp.uuid
    ensures RunEffects(w, inputs, CoreSaveState).state == w.state[KeyCredentialIdState := kp.uuid]
  {
    AddContract(graphToken.accessToken, inputs.clientId, kp, w.remote);
    RunWithCertificate(w, inputs, token, kp, graphToken, credential);
  }

  /** The certificate path as written: the `saveState` imported from the core helpers package is
      `undefined`, so once the credential is registered the call throws. The credential stays on
      the principal, no key id is saved for the post step to remove it by, and no second token
      is requested. */
  lemma SaveAsWrittenLeaks(w: World, inputs: FlowInputs, token: string, kp: KeyPair, graphToken: AuthResult, credential: KeyCredential)
    requires inputs.useClientCertificate
    requires w.ext.idTokens(inputs.idTokenAudience) == Ok(token)
    requires CertOutcome(w.ext, w.env, w.src) == Ok(kp)
    requires ConnectEffects(Cjs, FirstProvider(inputs, token), w.ext, w.debug).result == Ok(graphToken)
    requires inputs.clientId in w.remote.principals
    requires AddEffects(Ok(graphToken.accessToken), inputs.clientId, kp, w.remote).result == Ok(credential)
    ensures kp.x509.Some?
    ensures var run := RunEffects(w, inputs, HelpersExport);
            && run.result == Err(TypeError(SaveStateNotAFunction))
            && Project(run.events, IsMilestone)
               == [IdTokenRequested(inputs.idTokenAudience), OpensslEvent(w),
                   TokenRequested(FirstProvider(inputs, token).config, [GraphScope])]
                  + AddRequests(inputs.clientId, kp, w.remote)
                  + [Disposed(UpdaterClient)] + [Disposed(MsalClient)]
            && run.state == w.state
            && inputs.clientId in run.principals
            && credential in ListOf(run.principals[inputs.clientId])
  {
    var first := FirstProvider(inputs, token);
    var requested := CjsTokenEvents(w.ext, inputs.idTokenAudience, w.debug);
    var register := RegisterEffects(w, inputs, first);
    RegisteredMilestones(w, inputs, token, kp, graphToken, credential);
    ProvisionAfterRegister(w, inputs, first, HelpersExport, kp, credential);
    CertificateFlow(w, inputs, HelpersExport, token);
    var run := RunEffects(w, inputs, HelpersExport);
    ProjectStopped(requested, register.events, run.events);
    CjsTokenMilestones(w.ext, inputs.idTokenAudience, w.debug);
    RegroupStopped(IdTokenRequested(inputs.idTokenAudience), OpensslEvent(w), TokenRequested(first.config, [GraphScope]),
      Disposed(MsalClient), AddRequests(inputs.clientId, kp, w.remote), [Disposed(UpdaterClient)]);
  }

  /** When adding the key credential throws, the updater is still disposed (when it obtained a
      client), nothing is saved, no second token is requested and nothing is output; the run
      settles with the addition's error. */
  lemma AddFailureSavesNothing(w: World, inputs: FlowInputs, binding: SaveBinding, token: string, kp: KeyPair)
    requires inputs.useClientCertificate
    requires w.ext.idTokens(inputs.idTokenAudience) == Ok(token)
    requires CertOutcome(w.ext, w.env, w.src) == Ok(kp)
    requires AddEffects(BearerOf(ConnectEffects(Cjs, FirstProvider(inputs, token), w.ext, w.debug).result), inputs.clientId, kp, w.remote).result.Err?
    ensures var client := BearerOf(ConnectEffects(Cjs, FirstProvider(inputs, token), w.ext, w.debug).result);
            var add := AddEffects(client, inputs.clientId, kp, w.remote);
            var run := RunEffects(w, inputs, binding);
            && run.result == Err(add.result.error)
            && run.state == w.state
            && run.principals == add.principals
            && Project(run.events, IsMilestone)
               == [IdTokenRequested(inputs.idTokenAudience), OpensslEvent(w),
                   TokenRequested(FirstProvider(inputs, token).config, [GraphScope])]
                  + Project(add.events, IsMilestone)
                  + (if client.Ok? then [Disposed(UpdaterClient)] else [])
                  + [Disposed(MsalClient)]
            && forall e :: e in Project(add.events, IsMilestone) ==> e.HttpRequest?
  {
    var first := FirstProvider(inputs, token);
    var client := BearerOf(ConnectEffects(Cjs, first, w.ext, w.debug).result);
    var add := AddEffects(client, inputs.clientId, kp, w.remote);
    var requested := CjsTokenEvents(w.ext, inputs.idTokenAudience, w.debug);
    var register := RegisterEffects(w, inputs, first);
    RegisterMilestones(w, inputs, first, kp);
    RegisterFailure(w, inputs, first, binding, kp);
    AddEventKinds(client, inputs.clientId, kp, w.remote);
    ProjectFrom(add.events, IsMilestone);
    CertificateFlow(w, inputs, binding, token);
    var run := RunEffects(w, inputs, binding);
    ProjectStopped(requested, register.events, run.events);
    CjsTokenMilestones(w.ext, inputs.idTokenAudience, w.debug);
    RegroupStopped(IdTokenRequested(inputs.idTokenAudience), OpensslEvent(w), TokenRequested(first.config, [GraphScope]),
      Disposed(MsalClient), Project(add.events, IsMilestone), if client.Ok? then [Disposed(UpdaterClient)] else []);
  }

  /** The replacement provider authenticates with the generated certificate alone: its private
      key, its thumbprint and its PEM as the `x5c` chain, through the MSAL HTTP client. */
  lemma CertificateProviderConfig(inputs: FlowInputs, kp: KeyPair)
    requires kp.privateKey != "" && kp.thumbprint != ""
    ensures var config := CertificateProvider(inputs, kp).config;
            && config.clientCertificate == Some(ClientCertificate(kp.thumbprint, kp.privateKey, Some(kp.certificate)))
            && config.clientAssertion.None? && config.clientSecret.None?
            && config.clientId == inputs.clientId && config.tenant == inputs.tenantId
            && config.system.networkClient == SuppliedClient(MsalClient)
  {
    CjsConfigSelection(Some(MsalClient), inputs.clientId, CertificateInfo(kp), inputs.tenantId, inputs.instance);
  }

  /** `saveState('key-credential-id', keyId)`. */
  method SaveKeyCredentialId(host: Host, binding: SaveBinding, keyId: string, ghost principals: map<string, SpnEntity>)
    returns (r: Result<()>)
    modifies host
    ensures var save := SaveKeyId(binding, keyId, principals, old(host.state));
            host.trace == old(host.trace) + save.events && host.state == save.state && r == save.result
  {
    if binding.HelpersExport? {
      return Err(TypeError(SaveStateNotAFunction));
    }
    host.SaveState(KeyCredentialIdState, keyId);
    r := Ok(());
  }

  /** Generating the key pair and registering it. */
  method Register(host: Host, ext: Externals, store: FileStore, graph: GraphService, env: RunEnvironment,
                  src: CertificateSources, inputs: FlowInputs, first: AccessTokenProvider)
    returns (r: Result<(KeyPair, KeyCredential)>)
    modifies host, store, graph
    ensures var step := RegisterEffects(World(ext, old(Snapshot(graph)), env, src, host.debug, old(host.state)), inputs, first);
            && host.trace == old(host.trace) + step.events && r == step.result
            && graph.principals == step.principals && host.state == step.state
  {
    ghost var t0 := host.trace;
    ghost var w := World(ext, Snapshot(graph), env, src, host.debug, host.state);
    var keyPair := GenerateCertificate(host, ext, store, env, src);
    if keyPair.Err? {
      return Err(keyPair.error);
    }
    var kp := keyPair.value;
    ghost var generated := [OpensslEvent(w)];
    assert host.trace == t0 + generated;
    var updater := new ServicePrincipalUpdater(host, ext, Cjs, first, inputs.clientId);
    ghost var connect := ConnectEffects(Cjs, first, ext, w.debug);
    ghost var add := AddEffects(updater.client, inputs.clientId, kp, w.remote);
    var added := updater.AddCertificateKeyCredential(host, graph, kp);
    AppendStretches(t0, generated, connect.events);
    AppendStretches(t0, generated + connect.events, add.events);
    ghost var t3 := host.trace;
    var disposed := updater.Dispose(host);
    ghost var closing := if updater.client.Ok? then [Disposed(UpdaterClient)] else [];
    AppendStretches(t0, generated + connect.events + add.events, closing);
    if disposed.Err? {
      return Err(disposed.error);
    }
    if added.Err? {
      return Err(added.error);
    }
    r := Ok((kp, added.value));
  }

  /** The certificate part of `acquireAccessToken`. */
  method Provision(host: Host, ext: Externals, store: FileStore, graph: GraphService, env: RunEnvironment,
                   src: CertificateSources, inputs: FlowInputs, first: AccessTokenProvider, binding: SaveBinding)
    returns (r: Result<AccessTokenProvider>)
    modifies host, store, graph
    ensures var step := ProvisionEffects(World(ext, old(Snapshot(graph)), env, src, host.debug, old(host.state)), inputs, first, binding);
            && host.trace == old(host.trace) + step.events && r == step.result
            && graph.principals == step.principals && host.state == step.state
  {
    ghost var t0 := host.trace;
    ghost var w := World(ext, Snapshot(graph), env, src, host.debug, host.state);
    var registered := Register(host, ext, store, graph, env, src, inputs, first);
    ghost var register := RegisterEffects(w, inputs, first);
    if registered.Err? {
      return Err(registered.error);
    }
    var kp := registered.value.0;
    ghost var t1 := host.trace;
    var saved := SaveKeyCredentialId(host, binding, registered.value.1.keyId, graph.principals);
    ghost var save := SaveKeyId(binding, registered.value.1.keyId, register.principals, register.state);
    AppendStretches(t0, register.events, save.events);
    if saved.Err? {
      return Err(saved.error);
    }
    host.Emit(Log(Debug, ReplacingLine));
    var replacement := NewCjsProvider(Some(MsalClient), inputs.clientId, CertificateInfo(kp), inputs.tenantId, inputs.instance);
    r := Ok(replacement);
  }

  /** The end of `acquireAccessToken`: the token request, then `setOutput` twice. */
  method Finish(host: Host, ext: Externals, resource: string, p: AccessTokenProvider) returns (r: Result<()>)
    modifies host
    ensures var finish := FinishEffects(ext, host.debug, resource, p);
            host.trace == old(host.trace) + finish.events && r == finish.result
    ensures host.state == old(host.state)
  {
    var result := AcquireAccessToken(host, ext, Cjs, p, resource);
    if result.Err? {
      return Err(result.error);
    }
    host.Emit(Output(AccessTokenOutput, TextOutput(result.value.accessToken)));
    host.Emit(Output(ResultOutput, AuthResultOutput(result.value)));
    r := Ok(());
  }

  /** `acquireAccessToken(httpClient)`. */
  method AcquireAccessTokenFlow(host: Host, ext: Externals, store: FileStore, graph: GraphService, env: RunEnvironment,
                                src: CertificateSources, inputs: FlowInputs, binding: SaveBinding)
    returns (r: Result<()>)
    modifies host, store, graph
    ensures var run := FlowEffects(World(ext, old(Snapshot(graph)), env, src, host.debug, old(host.state)), inputs, binding);
            && host.trace == old(host.trace) + run.events && r == run.result
            && graph.principals == run.principals && host.state == run.state
  {
    ghost var t0 := host.trace;
    ghost var w := World(ext, Snapshot(graph), env, src, host.debug, host.state);
    ghost var spec := FlowEffects(w, inputs, binding);
    var idToken := GetGithubActionsTokenCjs(host, ext, inputs.idTokenAudience);
    ghost var requested := CjsTokenEvents(ext, inputs.idTokenAudience, w.debug);
    if idToken.Err? {
      assert spec == FlowStep(requested, Err(idToken.error), w.remote.principals, w.state);
      return Err(idToken.error);
    }
    var msalApp := NewCjsProvider(Some(MsalClient), inputs.clientId, AssertionText(idToken.value), inputs.tenantId, inputs.instance);
    if !inputs.useClientCertificate {
      r := Finish(host, ext, inputs.resource, msalApp);
      ghost var finish := FinishEffects(ext, w.debug, inputs.resource, msalApp);
      AppendStretches(t0, requested, finish.events);
      assert spec == FlowStep(requested + finish.events, finish.result, w.remote.principals, w.state);
      return;
    }
    var replaced := Provision(host, ext, store, graph, env, src, inputs, msalApp, binding);
    ghost var provision := ProvisionEffects(w, inputs, msalApp, binding);
    AppendStretches(t0, requested, provision.events);
    if replaced.Err? {
      assert spec == FlowStep(requested + provision.events, Err(replaced.error), provision.principals, provision.state);
      return Err(replaced.error);
    }
    r := Finish(host, ext, inputs.resource, replaced.value);
    ghost var finish := FinishEffects(ext, w.debug, inputs.resource, replaced.value);
    AppendStretches(t0, requested + provision.events, finish.events);
    assert spec == FlowStep(requested + provision.events + finish.events, finish.result, provision.principals, provision.state);
  }

  /** `run()` as written: `getActionInputs` is not among the exports of `./utils`, so
      `acquireAccessToken` throws a `TypeError` before it reads any input or requests any token,
      and the `finally` block disposes of the MSAL HTTP client. */
  method RunAsWritten(host: Host) returns (r: Result<()>)
    modifies host
    ensures r == Err(TypeError(GetActionInputsNotAFunction))
    ensures host.trace == old(host.trace) + [Disposed(MsalClient)] && host.state == old(host.state)
  {
    r := Err(TypeError(GetActionInputsNotAFunction));
    host.Emit(Disposed(MsalClient));
  }

  /** `run()` with the inputs of `acquireAccessToken` supplied as `FlowInputs`: the flow, and the
      MSAL HTTP client disposed in `finally`. */
  method Run(host: Host, ext: Externals, store: FileStore, graph: GraphService, env: RunEnvironment,
             src: CertificateSources, inputs: FlowInputs, binding: SaveBinding)
    returns (r: Result<()>)
    modifies host, store, graph
    ensures var run := RunEffects(World(ext, old(Snapshot(graph)), env, src, host.debug, old(host.state)), inputs, binding);
            && host.trace == old(host.trace) + run.events && r == run.result
            && graph.principals == run.principals && host.state == run.state
  {
    r := AcquireAccessTokenFlow(host, ext, store, graph, env, src, inputs, binding);
    host.Emit(Disposed(MsalClient));
  }
}
