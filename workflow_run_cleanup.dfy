/** The post step of the `ms-idp-workflow-run-auth` action (`cleanup.js`): read the key ids the
    main step recorded and, only when one was recorded, authenticate afresh with the runner's
    identity token and remove the temporary credentials from the service principal. */
module WorkflowRunCleanup {
  import opened Wrappers
  import opened Msal
  import opened Graph
  import opened ActionsCore
  import opened CoreHelpers
  import opened WorkflowRunUtils
  import opened MsalProvider
  import opened SpUpdater
  import opened WorkflowRunAction

  const PasswordCredentialIdState := "password-credential-id"
  const NoKeyLine := "No temporary keyCredential registered for cleanup."
  const NoPasswordLine := "No temporary passwordCredential registered for cleanup."
  const DetectedKeyLine := "Detected keyCredential previously registered for cleanup. keyId: "
  const DetectedPasswordLine := "Detected passwordCredential previously registered for cleanup. keyId: "

  /** What `getState()` returns: the two recorded ids and the action inputs. */
  datatype CleanupState = CleanupState(keyCredentialId: string, passwordCredentialId: string, inputs: ActionInputs)

  /** Everything the post step meets: the outside services, the principals, the runner's debug
      flag, inputs and run-state, and how the service answers a password removal. */
  datatype CleanupWorld = CleanupWorld(
    ext: Externals,
    remote: Remote,
    debug: bool,
    inputs: map<string, string>,
    state: map<string, string>,
    passwordRemoval: Result<()>)

  /** The debug line of the core helpers' `getState`. */
  function StateLine(name: string, value: string): Event
  {
    Log(Debug, "STATE " + name + ": " + value)
  }

  predicate IsPasswordRemoval(e: Event) { e.PasswordRemovalRequested? }

  /** `getState()`: the two run-state reads, then `getActionInputs()`. */
  function StateEffects(inputs: map<string, string>, state: map<string, string>): Effects<CleanupState>
  {
    var keyId := Recorded(state, KeyCredentialIdState);
    var passwordId := Recorded(state, PasswordCredentialIdState);
    var read := ActionInputsEffects(inputs);
    var events := [StateLine(KeyCredentialIdState, keyId), StateLine(PasswordCredentialIdState, passwordId)] + read.events;
    match read.result
    case Err(e) => Effects(events, Err(e))
    case Ok(v) => Effects(events, Ok(CleanupState(keyId, passwordId, v)))
  }

  /** The provider of the post step: the `.mjs` provider on the MSAL HTTP client, with the identity
      token as its client assertion. */
  function CleanupProvider(inputs: ActionInputs, idToken: string): AccessTokenProvider
  {
    AccessTokenProvider(inputs.clientId,
      EsmConfig(Some(MsalClient), inputs.clientId, AssertionText(idToken), inputs.tenantId, inputs.instance).value)
  }

  /** `if (keyCredentialId) { ...; await removeKeyCredentialByKeyId(keyCredentialId) }`. */
  function KeyRemovalEffects(client: Result<string>, appId: string, keyId: string, remote: Remote): GraphStep<()>
  {
    if keyId == "" then GraphStep([], Ok(()), remote.principals)
    else
      var remove := RemoveEffects(client, appId, keyId, remote);
      GraphStep([Log(Info, DetectedKeyLine + keyId)] + remove.events, remove.result, remove.principals)
  }

  /** `if (passwordCredentialId) { ...; await removePasswordCredentialByKeyId(passwordCredentialId) }`;
      the removal itself is one request the service answers with `outcome`. */
  function PasswordRemovalEffects(appId: string, passwordId: string, outcome: Result<()>): Effects<()>
  {
    if passwordId == "" then Effects([], Ok(()))
    else Effects([Log(Info, DetectedPasswordLine + passwordId), PasswordRemovalRequested(appId, passwordId)], outcome)
  }

  /** The inner `try` block: the key removal, then (unless it threw) the password removal. */
  function RemovalsEffects(client: Result<string>, appId: string, s: CleanupState, remote: Remote,
                           outcome: Result<()>): GraphStep<()>
  {
    var key := KeyRemovalEffects(client, appId, s.keyCredentialId, remote);
    match key.result
    case Err(_) => key
    case Ok(_) =>
      var password := PasswordRemovalEffects(appId, s.passwordCredentialId, outcome);
      GraphStep(key.events + password.events, password.result, key.principals)
  }

  /** From `new GhaHttpClient()` on: the provider, the updater, the removals, and both disposals in
      `finally`. The updater's `dispose` throws when its client never came, and that error then
      replaces the removals' outcome. */
  function ClientPhaseEffects(w: CleanupWorld, s: CleanupState, idToken: string): GraphStep<()>
  {
    var connect := ConnectEffects(Esm, CleanupProvider(s.inputs, idToken), w.ext, w.debug);
    var client := BearerOf(connect.result);
    var removals := RemovalsEffects(client, s.inputs.clientId, s, w.remote, w.passwordRemoval);
    var disposed := if client.Ok? then [Disposed(UpdaterClient)] else [];
    GraphStep(connect.events + removals.events + disposed + [Disposed(MsalClient)],
      if client.Err? then Err(client.error) else removals.result, removals.principals)
  }

  /** `cleanup()` once the state has been read: nothing to do when neither id was recorded,
      otherwise the identity token and then the client phase. */
  function RecordedEffects(w: CleanupWorld, s: CleanupState): GraphStep<()>
  {
    if s.keyCredentialId == "" && s.passwordCredentialId == "" then
      GraphStep([Log(Info, NoKeyLine), Log(Info, NoPasswordLine)], Ok(()), w.remote.principals)
    else
      var audience := s.inputs.idTokenAudience;
      var requested := EsmTokenEvents(w.ext, audience);
      match w.ext.idTokens(audience)
      case Err(e) => GraphStep(requested, Err(e), w.remote.principals)
      case Ok(idToken) =>
        var phase := ClientPhaseEffects(w, s, idToken);
        GraphStep(requested + phase.events, phase.result, phase.principals)
  }

  /** `cleanup()`. */
  function CleanupEffects(w: CleanupWorld): GraphStep<()>
  {
    var read := StateEffects(w.inputs, w.state);
    match read.result
    case Err(e) => GraphStep(read.events, Err(e), w.remote.principals)
    case Ok(s) =>
      var rest := RecordedEffects(w, s);
      GraphStep(read.events + rest.events, rest.result, rest.principals)
  }

  /** `CleanupEffects` once the state read has succeeded. */
  lemma CleanupAfterRead(w: CleanupWorld, s: CleanupState)
    requires StateEffects(w.inputs, w.state).result == Ok(s)
    ensures var rest := RecordedEffects(w, s);
            CleanupEffects(w) == GraphStep(StateEffects(w.inputs, w.state).events + rest.events, rest.result, rest.principals)
  {
  }

  /** `RecordedEffects` once the identity token has come. */
  lemma RecordedAfterToken(w: CleanupWorld, s: CleanupState, idToken: string)
    requires s.keyCredentialId != "" || s.passwordCredentialId != ""
    requires w.ext.idTokens(s.inputs.idTokenAudience) == Ok(idToken)
    ensures var phase := ClientPhaseEffects(w, s, idToken);
            RecordedEffects(w, s) == GraphStep(EsmTokenEvents(w.ext, s.inputs.idTokenAudience) + phase.events,
              phase.result, phase.principals)
  {
  }

  // ---------------------------------------------------------------------------------------------
  // Properties

  /** The state read takes the recorded ids from the two run-state keys and the inputs as read;
      it fails exactly when the inputs cannot be read, and it only logs debug lines. */
  lemma StateContract(inputs: map<string, string>, state: map<string, string>)
    ensures var read := StateEffects(inputs, state);
            && (read.result.Ok? <==> ActionInputsEffects(inputs).result.Ok?)
            && (read.result.Ok? ==>
                  && read.result.value.keyCredentialId == Recorded(state, KeyCredentialIdState)
                  && read.result.value.passwordCredentialId == Recorded(state, PasswordCredentialIdState)
                  && read.result.value.inputs == ActionInputsEffects(inputs).result.value)
            && Project(read.events, IsMilestone) == []
  {
    var read := StateEffects(inputs, state);
    ActionInputsContract(inputs);
    ProjectNone(read.events, IsMilestone);
  }

  /** With neither id recorded the post step stops after reading the state: no identity token,
      no client, no request and no disposal; it fails only when the inputs cannot be read. */
  lemma QuietUnlessRecorded(w: CleanupWorld)
    requires Recorded(w.state, KeyCredentialIdState) == "" && Recorded(w.state, PasswordCredentialIdState) == ""
    ensures var run := CleanupEffects(w);
            && Project(run.events, IsMilestone) == []
            && run.principals == w.remote.principals
            && (run.result.Ok? <==> ActionInputsEffects(w.inputs).result.Ok?)
  {
    var read := StateEffects(w.inputs, w.state);
    StateContract(w.inputs, w.state);
    var quiet := [Log(Info, NoKeyLine), Log(Info, NoPasswordLine)];
    ProjectNone(quiet, IsMilestone);
    ProjectConcat(read.events, quiet, IsMilestone);
  }

  /** The key removal logs, reads and writes, and does nothing else. */
  lemma KeyRemovalKinds(client: Result<string>, appId: string, keyId: string, remote: Remote)
    ensures var es := KeyRemovalEffects(client, appId, keyId, remote).events;
            forall i :: 0 <= i < |es| ==> es[i].Log? || es[i].HttpRequest?
  {
  }

  /** The milestones of the removals: the key removal's, then the password removal request when
      one is recorded and the key removal did not throw. */
  lemma RemovalsMilestones(client: Result<string>, appId: string, s: CleanupState, remote: Remote, outcome: Result<()>)
    ensures var key := KeyRemovalEffects(client, appId, s.keyCredentialId, remote);
            var removals := RemovalsEffects(client, appId, s, remote, outcome);
            && Project(removals.events, IsMilestone)
               == Project(key.events, IsMilestone)
                  + (if key.result.Ok? && s.passwordCredentialId != ""
                     then [PasswordRemovalRequested(appId, s.passwordCredentialId)] else [])
            && removals.principals == key.principals
            && (removals.result.Ok? <==> key.result.Ok? && (s.passwordCredentialId == "" || outcome.Ok?))
  {
    var key := KeyRemovalEffects(client, appId, s.keyCredentialId, remote);
    if key.result.Ok? {
      var password := PasswordRemovalEffects(appId, s.passwordCredentialId, outcome);
      ProjectConcat(key.events, password.events, IsMilestone);
      if s.passwordCredentialId != "" {
        var request := PasswordRemovalRequested(appId, s.passwordCredentialId);
        ProjectLast([Log(Info, DetectedPasswordLine + s.passwordCredentialId)], request, IsMilestone);
      }
    } else {
      assert Project(key.events, IsMilestone) + [] == Project(key.events, IsMilestone);
    }
  }

  /** The milestones from `new GhaHttpClient()` on: the Graph token request of the updater, the
      removals, the updater's disposal when it has a client, and the MSAL HTTP client's. A thrown
      removal or disposal is the phase's error. */
  lemma ClientPhaseMilestones(w: CleanupWorld, s: CleanupState, idToken: string)
    ensures var p := CleanupProvider(s.inputs, idToken);
            var client := BearerOf(ConnectEffects(Esm, p, w.ext, w.debug).result);
            var key := KeyRemovalEffects(client, s.inputs.clientId, s.keyCredentialId, w.remote);
            var phase := ClientPhaseEffects(w, s, idToken);
            && Project(phase.events, IsMilestone)
               == [TokenRequested(p.config, [GraphScope])] + Project(key.events, IsMilestone)
                  + (if key.result.Ok? && s.passwordCredentialId != ""
                     then [PasswordRemovalRequested(s.inputs.clientId, s.passwordCredentialId)] else [])
                  + (if client.Ok? then [Disposed(UpdaterClient)] else []) + [Disposed(MsalClient)]
            && phase.principals == key.principals
            && (phase.result.Ok? <==> client.Ok? && key.result.Ok? && (s.passwordCredentialId == "" || w.passwordRemoval.Ok?))
  {
    var p := CleanupProvider(s.inputs, idToken);
    var connect := ConnectEffects(Esm, p, w.ext, w.debug);
    var client := BearerOf(connect.result);
    var removals := RemovalsEffects(client, s.inputs.clientId, s, w.remote, w.passwordRemoval);
    var disposed := if client.Ok? then [Disposed(UpdaterClient)] else [];
    AcquireMilestones(Esm, p, GraphResource, w.ext.tokens(p.config, [GraphScope]), w.debug, w.ext.base64UrlDecode);
    RemovalsMilestones(client, s.inputs.clientId, s, w.remote, w.passwordRemoval);
    var a := connect.events + removals.events;
    var b := a + disposed;
    ProjectConcat(connect.events, removals.events, IsMilestone);
    ProjectConcat(a, disposed, IsMilestone);
    if client.Ok? {
      ProjectSingle(Disposed(UpdaterClient), IsMilestone);
    }
    ProjectSingle(Disposed(MsalClient), IsMilestone);
    ProjectConcat(b, [Disposed(MsalClient)], IsMilestone);
    assert DefaultScope(EffectiveResource(p, GraphResource)) == GraphScope;
    var key := KeyRemovalEffects(client, s.inputs.clientId, s.keyCredentialId, w.remote);
    var password := if key.result.Ok? && s.passwordCredentialId != ""
                    then [PasswordRemovalRequested(s.inputs.clientId, s.passwordCredentialId)] else [];
    Associate([TokenRequested(p.config, [GraphScope])], Project(key.events, IsMilestone), password,
      Project(disposed, IsMilestone), [Disposed(MsalClient)]);
  }

  /** Regrouping five stretches. */
  lemma Associate(a: seq<Event>, b: seq<Event>, c: seq<Event>, d: seq<Event>, e: seq<Event>)
    ensures a + (b + c) + d + e == a + b + c + d + e
  {
  }

  /** The post step authenticates with a fresh identity token as its client assertion, never with
      the certificate or a secret of the main step. */
  lemma CleanupProviderConfig(inputs: ActionInputs, idToken: string)
    ensures var config := CleanupProvider(inputs, idToken).config;
            && config.clientAssertion == Some(idToken)
            && config.clientSecret.None? && config.clientCertificate.None?
            && config.clientId == inputs.clientId && config.tenant == inputs.tenantId
  {
    EsmConfigSelection(Some(MsalClient), inputs.clientId, AssertionText(idToken), inputs.tenantId, inputs.instance);
  }

  /** Once an id is recorded: the identity token is requested for the configured audience; with
      it, the Graph token request, the removals and both disposals follow, in that order. */
  lemma CleanupOrder(w: CleanupWorld, idToken: string)
    requires ActionInputsEffects(w.inputs).result.Ok?
    requires Recorded(w.state, KeyCredentialIdState) != "" || Recorded(w.state, PasswordCredentialIdState) != ""
    requires w.ext.idTokens(ActionInputsEffects(w.inputs).result.value.idTokenAudience) == Ok(idToken)
    ensures var v := ActionInputsEffects(w.inputs).result.value;
            var keyId := Recorded(w.state, KeyCredentialIdState);
            var passwordId := Recorded(w.state, PasswordCredentialIdState);
            var p := CleanupProvider(v, idToken);
            var client := BearerOf(ConnectEffects(Esm, p, w.ext, w.debug).result);
            var key := KeyRemovalEffects(client, v.clientId, keyId, w.remote);
            var run := CleanupEffects(w);
            && Project(run.events, IsMilestone)
               == [IdTokenRequested(v.idTokenAudience), TokenRequested(p.config, [GraphScope])]
                  + Project(key.events, IsMilestone)
                  + (if key.result.Ok? && passwordId != "" then [PasswordRemovalRequested(v.clientId, passwordId)] else [])
                  + (if client.Ok? then [Disposed(UpdaterClient)] else []) + [Disposed(MsalClient)]
            && run.principals == key.principals
            && (run.result.Ok? <==> client.Ok? && key.result.Ok? && (passwordId == "" || w.passwordRemoval.Ok?))
  {
    var v := ActionInputsEffects(w.inputs).result.value;
    var s := CleanupState(Recorded(w.state, KeyCredentialIdState), Recorded(w.state, PasswordCredentialIdState), v);
    var read := StateEffects(w.inputs, w.state);
    StateContract(w.inputs, w.state);
    var requested := EsmTokenEvents(w.ext, v.idTokenAudience);
    EsmTokenContract(w.ext, v.idTokenAudience);
    var phase := ClientPhaseEffects(w, s, idToken);
    ClientPhaseMilestones(w, s, idToken);
    CleanupAfterRead(w, s);
    RecordedAfterToken(w, s, idToken);
    AppendStretches(read.events, requested, phase.events);
    var p := CleanupProvider(v, idToken);
    var client := BearerOf(ConnectEffects(Esm, p, w.ext, w.debug).result);
    var key := KeyRemovalEffects(client, v.clientId, s.keyCredentialId, w.remote);
    MilestonesAfterRequest(read.events, requested, v.idTokenAudience, phase.events,
      TokenRequested(p.config, [GraphScope]), Project(key.events, IsMilestone),
      if key.result.Ok? && s.passwordCredentialId != "" then [PasswordRemovalRequested(v.clientId, s.passwordCredentialId)] else [],
      if client.Ok? then [Disposed(UpdaterClient)] else []);
  }

  /** The milestones of a state read without any, the identity token request, and a phase whose
      milestones start with the Graph token request and end with the MSAL client's disposal. */
  lemma MilestonesAfterRequest(read: seq<Event>, requested: seq<Event>, audience: Option<string>, phase: seq<Event>, token: Event,
                               key: seq<Event>, password: seq<Event>, disposed: seq<Event>)
    requires Project(read, IsMilestone) == []
    requires Project(requested, IsMilestone) == [IdTokenRequested(audience)]
    requires Project(phase, IsMilestone) == [token] + key + password + disposed + [Disposed(MsalClient)]
    ensures Project(read + requested + phase, IsMilestone)
            == [IdTokenRequested(audience), token] + key + password + disposed + [Disposed(MsalClient)]
  {
    ProjectConcat(read, requested, IsMilestone);
    ProjectConcat(read + requested, phase, IsMilestone);
    Prepend(IdTokenRequested(audience), token, key, password, disposed, [Disposed(MsalClient)]);
  }

  /** Putting one event before four stretches that follow another. */
  lemma Prepend(e: Event, f: Event, b: seq<Event>, c: seq<Event>, d: seq<Event>, g: seq<Event>)
    ensures [] + [e] + ([f] + b + c + d + g) == [e, f] + b + c + d + g
  {
  }

  /** The kinds of event a removal is counted by: writes and password removal requests. */
  ghost predicate IsRemoval(q: Event -> bool)
  {
    forall e :: q(e) ==> e.HttpRequest? || e.PasswordRemovalRequested?
  }

  /** Why the post step's key removal fails, if it does; with no key id recorded it does nothing
      and cannot fail. */
  function KeyRefusal(appId: string, keyId: string, remote: Remote): Option<Error>
    requires appId in remote.principals
  {
    if keyId == "" then None else RemoveRefusal(appId, keyId, remote)
  }

  /** The list the post step's key removal writes, if it writes one: once the read is granted,
      the principal's list without the first entry carrying the recorded key id. */
  function KeyWrite(appId: string, keyId: string, remote: Remote): Option<seq<KeyCredential>>
    requires appId in remote.principals
  {
    var list := ListOf(remote.principals[appId]);
    if keyId == "" || remote.readRejects(appId, Some(remote.principals[appId])).Some? then None
    else match FindKeyId(list, keyId)
      case None => None
      case Some(i) => Some(Splice(list, i))
  }

  /** The principals after a key removal: the written list, as stored, when the write is
      accepted; otherwise as they were. */
  function AfterKeyWrite(appId: string, keyId: string, remote: Remote): map<string, SpnEntity>
    requires appId in remote.principals
  {
    var write := KeyWrite(appId, keyId, remote);
    if write.Some? && remote.patchRejects(appId, write.value).None?
    then WithList(remote.principals, appId, StoredAs(remote.normalize, write.value))
    else remote.principals
  }

  /** With a Graph client and the principal present, a recorded key id found on the principal
      is removed by one write once the read is granted; otherwise nothing is written. The
      removal fails exactly when the service refuses the read or the write. */
  lemma KeyRemovalPatches(token: string, appId: string, keyId: string, remote: Remote)
    requires appId in remote.principals
    ensures var write := KeyWrite(appId, keyId, remote);
            var key := KeyRemovalEffects(Ok(token), appId, keyId, remote);
            && (key.result.Ok? <==> KeyRefusal(appId, keyId, remote).None?)
            && Project(key.events, IsPatch)
               == (if write.Some? then [HttpRequest(PatchKeyCredentials(ByAppIdUrl(appId), write.value))] else [])
            && key.principals == AfterKeyWrite(appId, keyId, remote)
  {
    if keyId != "" {
      RemoveContract(token, appId, keyId, remote);
      var remove := RemoveEffects(Ok(token), appId, keyId, remote);
      ProjectNone([Log(Info, DetectedKeyLine + keyId)], IsPatch);
      ProjectConcat([Log(Info, DetectedKeyLine + keyId)], remove.events, IsPatch);
    }
  }

  /** The password removal writes no key list and requests the removal exactly when a password
      id is recorded; it settles as the service answers. */
  lemma PasswordRemovalCounts(appId: string, passwordId: string, outcome: Result<()>)
    ensures var password := PasswordRemovalEffects(appId, passwordId, outcome);
            && Project(password.events, IsPatch) == []
            && Project(password.events, IsPasswordRemoval)
               == (if passwordId != "" then [PasswordRemovalRequested(appId, passwordId)] else [])
            && (password.result.Ok? <==> passwordId == "" || outcome.Ok?)
  {
    var password := PasswordRemovalEffects(appId, passwordId, outcome);
    ProjectNone(password.events, IsPatch);
    if passwordId != "" {
      ProjectLast([Log(Info, DetectedPasswordLine + passwordId)], PasswordRemovalRequested(appId, passwordId), IsPasswordRemoval);
    }
  }

  /** With a Graph client and the principal present, the removals write at most once: the key
      list without the first entry carrying the recorded key id, when there is one and the read
      is granted. */
  lemma RemovalsNarrowed(token: string, appId: string, s: CleanupState, remote: Remote, outcome: Result<()>)
    requires appId in remote.principals
    ensures var write := KeyWrite(appId, s.keyCredentialId, remote);
            var removals := RemovalsEffects(Ok(token), appId, s, remote, outcome);
            && Project(removals.events, IsPatch)
               == (if write.Some? then [HttpRequest(PatchKeyCredentials(ByAppIdUrl(appId), write.value))] else [])
            && removals.principals == AfterKeyWrite(appId, s.keyCredentialId, remote)
  {
    var keyId := s.keyCredentialId;
    var key := KeyRemovalEffects(Ok(token), appId, keyId, remote);
    var password := PasswordRemovalEffects(appId, s.passwordCredentialId, outcome);
    KeyRemovalPatches(token, appId, keyId, remote);
    var removals := RemovalsEffects(Ok(token), appId, s, remote, outcome);
    if key.result.Ok? {
      assert removals == GraphStep(key.events + password.events, password.result, key.principals);
      PasswordRemovalCounts(appId, s.passwordCredentialId, outcome);
      ProjectConcat(key.events, password.events, IsPatch);
    }
  }

  /** With a Graph client and the principal present, the removals request the password removal
      exactly when a password id is recorded and the key removal did not fail, and then settle as
      the service answers it. */
  lemma RemovalsRequestPassword(token: string, appId: string, s: CleanupState, remote: Remote, outcome: Result<()>)
    requires appId in remote.principals
    ensures var keyOk := KeyRefusal(appId, s.keyCredentialId, remote).None?;
            var removals := RemovalsEffects(Ok(token), appId, s, remote, outcome);
            && Project(removals.events, IsPasswordRemoval)
               == (if keyOk && s.passwordCredentialId != "" then [PasswordRemovalRequested(appId, s.passwordCredentialId)] else [])
            && (removals.result.Ok? <==> keyOk && (s.passwordCredentialId == "" || outcome.Ok?))
  {
    var keyId := s.keyCredentialId;
    var key := KeyRemovalEffects(Ok(token), appId, keyId, remote);
    var password := PasswordRemovalEffects(appId, s.passwordCredentialId, outcome);
    KeyRemovalPatches(token, appId, keyId, remote);
    var removals := RemovalsEffects(Ok(token), appId, s, remote, outcome);
    KeyRemovalKinds(Ok(token), appId, keyId, remote);
    ProjectNone(key.events, IsPasswordRemoval);
    if key.result.Ok? {
      assert removals == GraphStep(key.events + password.events, password.result, key.principals);
      PasswordRemovalCounts(appId, s.passwordCredentialId, outcome);
      ProjectConcat(key.events, password.events, IsPasswordRemoval);
    }
  }

  /** Obtaining the updater's Graph token removes nothing. */
  lemma ConnectHasNoRemoval(p: AccessTokenProvider, ext: Externals, debug: bool, q: Event -> bool)
    requires IsRemoval(q)
    ensures Project(ConnectEffects(Esm, p, ext, debug).events, q) == []
  {
    AcquireMilestones(Esm, p, GraphResource, ext.tokens(p.config, [GraphScope]), debug, ext.base64UrlDecode);
    ProjectRefine(ConnectEffects(Esm, p, ext, debug).events, IsMilestone, q);
    ProjectNone([TokenRequested(p.config, [DefaultScope(EffectiveResource(p, GraphResource))])], q);
  }

  /** Removal events of the client phase are those of the removals. */
  lemma PhaseNarrowed(w: CleanupWorld, s: CleanupState, idToken: string, q: Event -> bool)
    requires IsRemoval(q)
    ensures var client := BearerOf(ConnectEffects(Esm, CleanupProvider(s.inputs, idToken), w.ext, w.debug).result);
            var removals := RemovalsEffects(client, s.inputs.clientId, s, w.remote, w.passwordRemoval);
            var phase := ClientPhaseEffects(w, s, idToken);
            && Project(phase.events, q) == Project(removals.events, q)
            && phase.result == (if client.Err? then Err(client.error) else removals.result)
            && phase.principals == removals.principals
  {
    var p := CleanupProvider(s.inputs, idToken);
    var connect := ConnectEffects(Esm, p, w.ext, w.debug);
    var client := BearerOf(connect.result);
    var removals := RemovalsEffects(client, s.inputs.clientId, s, w.remote, w.passwordRemoval);
    var closing := (if client.Ok? then [Disposed(UpdaterClient)] else []) + [Disposed(MsalClient)];
    ConnectHasNoRemoval(p, w.ext, w.debug, q);
    ProjectNone(closing, q);
    assert ClientPhaseEffects(w, s, idToken).events == connect.events + removals.events + closing;
    ProjectConcat(connect.events, removals.events, q);
    ProjectConcat(connect.events + removals.events, closing, q);
  }

  /** Removal events of the post step, once an id is recorded and the token granted, are those of
      the client phase. */
  lemma CleanupNarrowed(w: CleanupWorld, idToken: string, q: Event -> bool)
    requires IsRemoval(q)
    requires ActionInputsEffects(w.inputs).result.Ok?
    requires Recorded(w.state, KeyCredentialIdState) != "" || Recorded(w.state, PasswordCredentialIdState) != ""
    requires w.ext.idTokens(ActionInputsEffects(w.inputs).result.value.idTokenAudience) == Ok(idToken)
    ensures var v := ActionInputsEffects(w.inputs).result.value;
            var s := CleanupState(Recorded(w.state, KeyCredentialIdState), Recorded(w.state, PasswordCredentialIdState), v);
            var run := CleanupEffects(w);
            var phase := ClientPhaseEffects(w, s, idToken);
            && Project(run.events, q) == Project(phase.events, q)
            && run.events[|run.events| - 1] == Disposed(MsalClient)
            && run.principals == phase.principals && run.result == phase.result
  {
    var v := ActionInputsEffects(w.inputs).result.value;
    var s := CleanupState(Recorded(w.state, KeyCredentialIdState), Recorded(w.state, PasswordCredentialIdState), v);
    var read := StateEffects(w.inputs, w.state);
    StateContract(w.inputs, w.state);
    var requested := EsmTokenEvents(w.ext, v.idTokenAudience);
    EsmTokenContract(w.ext, v.idTokenAudience);
    var phase := ClientPhaseEffects(w, s, idToken);
    CleanupAfterRead(w, s);
    RecordedAfterToken(w, s, idToken);
    AppendStretches(read.events, requested, phase.events);
    assert CleanupEffects(w).events == read.events + requested + phase.events;
    ProjectRefine(read.events, IsMilestone, q);
    ProjectNone(requested, q);
    ProjectConcat(read.events, requested, q);
    ProjectConcat(read.events + requested, phase.events, q);
  }

  /** With the Graph client granted and the principal present, exactly the first entry carrying
      the recorded key id is removed, by one write; nothing is written when no entry carries it
      or no key id is recorded. */
  lemma CleanupRemovesKeyOnce(w: CleanupWorld, idToken: string, graphToken: AuthResult)
    requires ActionInputsEffects(w.inputs).result.Ok?
    requires Recorded(w.state, KeyCredentialIdState) != "" || Recorded(w.state, PasswordCredentialIdState) != ""
    requires w.ext.idTokens(ActionInputsEffects(w.inputs).result.value.idTokenAudience) == Ok(idToken)
    requires ConnectEffects(Esm, CleanupProvider(ActionInputsEffects(w.inputs).result.value, idToken), w.ext, w.debug).result == Ok(graphToken)
    requires ActionInputsEffects(w.inputs).result.value.clientId in w.remote.principals
    ensures var appId := ActionInputsEffects(w.inputs).result.value.clientId;
            var keyId := Recorded(w.state, KeyCredentialIdState);
            var write := KeyWrite(appId, keyId, w.remote);
            var run := CleanupEffects(w);
            && Project(run.events, IsPatch)
               == (if write.Some? then [HttpRequest(PatchKeyCredentials(ByAppIdUrl(appId), write.value))] else [])
            && run.principals == AfterKeyWrite(appId, keyId, w.remote)
  {
    var v := ActionInputsEffects(w.inputs).result.value;
    var s := CleanupState(Recorded(w.state, KeyCredentialIdState), Recorded(w.state, PasswordCredentialIdState), v);
    PhaseRemovesKeyOnce(w, s, idToken, graphToken);
    CleanupNarrowed(w, idToken, IsPatch);
  }

  /** The key-list writes of the client phase, once the Graph client is granted. */
  lemma PhaseRemovesKeyOnce(w: CleanupWorld, s: CleanupState, idToken: string, graphToken: AuthResult)
    requires ConnectEffects(Esm, CleanupProvider(s.inputs, idToken), w.ext, w.debug).result == Ok(graphToken)
    requires s.inputs.clientId in w.remote.principals
    ensures var appId := s.inputs.clientId;
            var write := KeyWrite(appId, s.keyCredentialId, w.remote);
            var phase := ClientPhaseEffects(w, s, idToken);
            && Project(phase.events, IsPatch)
               == (if write.Some? then [HttpRequest(PatchKeyCredentials(ByAppIdUrl(appId), write.value))] else [])
            && phase.principals == AfterKeyWrite(appId, s.keyCredentialId, w.remote)
  {
    RemovalsNarrowed(graphToken.accessToken, s.inputs.clientId, s, w.remote, w.passwordRemoval);
    PhaseNarrowed(w, s, idToken, IsPatch);
  }

  /** The password removal of the client phase, once the Graph client is granted. */
  lemma PhaseRemovesPasswordOnce(w: CleanupWorld, s: CleanupState, idToken: string, graphToken: AuthResult)
    requires ConnectEffects(Esm, CleanupProvider(s.inputs, idToken), w.ext, w.debug).result == Ok(graphToken)
    requires s.inputs.clientId in w.remote.principals
    ensures var keyOk := KeyRefusal(s.inputs.clientId, s.keyCredentialId, w.remote).None?;
            var phase := ClientPhaseEffects(w, s, idToken);
            && Project(phase.events, IsPasswordRemoval)
               == (if keyOk && s.passwordCredentialId != "" then [PasswordRemovalRequested(s.inputs.clientId, s.passwordCredentialId)] else [])
            && (phase.result.Ok? <==> keyOk && (s.passwordCredentialId == "" || w.passwordRemoval.Ok?))
  {
    RemovalsRequestPassword(graphToken.accessToken, s.inputs.clientId, s, w.remote, w.passwordRemoval);
    PhaseNarrowed(w, s, idToken, IsPasswordRemoval);
  }

  /** With the Graph client granted and the principal present, the password removal is requested
      exactly once when a password id is recorded and never otherwise, and the post step settles
      as the service answers it. */
  lemma CleanupRemovesPasswordOnce(w: CleanupWorld, idToken: string, graphToken: AuthResult)
    requires ActionInputsEffects(w.inputs).result.Ok?
    requires Recorded(w.state, KeyCredentialIdState) != "" || Recorded(w.state, PasswordCredentialIdState) != ""
    requires w.ext.idTokens(ActionInputsEffects(w.inputs).result.value.idTokenAudience) == Ok(idToken)
    requires ConnectEffects(Esm, CleanupProvider(ActionInputsEffects(w.inputs).result.value, idToken), w.ext, w.debug).result == Ok(graphToken)
    requires ActionInputsEffects(w.inputs).result.value.clientId in w.remote.principals
    ensures var appId := ActionInputsEffects(w.inputs).result.value.clientId;
            var passwordId := Recorded(w.state, PasswordCredentialIdState);
            var keyOk := KeyRefusal(appId, Recorded(w.state, KeyCredentialIdState), w.remote).None?;
            var run := CleanupEffects(w);
            && Project(run.events, IsPasswordRemoval)
               == (if keyOk && passwordId != "" then [PasswordRemovalRequested(appId, passwordId)] else [])
            && (run.result.Ok? <==> keyOk && (passwordId == "" || w.passwordRemoval.Ok?))
  {
    var v := ActionInputsEffects(w.inputs).result.value;
    var s := CleanupState(Recorded(w.state, KeyCredentialIdState), Recorded(w.state, PasswordCredentialIdState), v);
    PhaseRemovesPasswordOnce(w, s, idToken, graphToken);
    CleanupNarrowed(w, idToken, IsPasswordRemoval);
  }

  /** A key removal that throws skips the password removal, and the post step fails; both
      disposals still happen. */
  lemma KeyFailureSkipsPassword(w: CleanupWorld, idToken: string)
    requires ActionInputsEffects(w.inputs).result.Ok?
    requires Recorded(w.state, KeyCredentialIdState) != ""
    requires w.ext.idTokens(ActionInputsEffects(w.inputs).result.value.idTokenAudience) == Ok(idToken)
    requires var v := ActionInputsEffects(w.inputs).result.value;
             var client := BearerOf(ConnectEffects(Esm, CleanupProvider(v, idToken), w.ext, w.debug).result);
             KeyRemovalEffects(client, v.clientId, Recorded(w.state, KeyCredentialIdState), w.remote).result.Err?
    ensures var run := CleanupEffects(w);
            && Project(run.events, IsPasswordRemoval) == []
            && run.result.Err?
            && run.events[|run.events| - 1] == Disposed(MsalClient)
  {
    var v := ActionInputsEffects(w.inputs).result.value;
    var s := CleanupState(Recorded(w.state, KeyCredentialIdState), Recorded(w.state, PasswordCredentialIdState), v);
    var client := BearerOf(ConnectEffects(Esm, CleanupProvider(v, idToken), w.ext, w.debug).result);
    var key := KeyRemovalEffects(client, v.clientId, s.keyCredentialId, w.remote);
    KeyRemovalKinds(client, v.clientId, s.keyCredentialId, w.remote);
    ProjectNone(key.events, IsPasswordRemoval);
    PhaseNarrowed(w, s, idToken, IsPasswordRemoval);
    CleanupNarrowed(w, idToken, IsPasswordRemoval);
  }

  // ---------------------------------------------------------------------------------------------
  // The script

  /** `getState()`. */
  method GetCleanupState(host: Host) returns (r: Result<CleanupState>)
    modifies host
    ensures var read := StateEffects(host.inputs, old(host.state));
            host.trace == old(host.trace) + read.events && r == read.result
    ensures host.state == old(host.state)
  {
    ghost var t0 := host.trace;
    var keyCredentialId := GetState(host, KeyCredentialIdState);
    var passwordCredentialId := GetState(host, PasswordCredentialIdState);
    AppendTwo(t0, StateLine(KeyCredentialIdState, keyCredentialId), StateLine(PasswordCredentialIdState, passwordCredentialId));
    ghost var lines := [StateLine(KeyCredentialIdState, keyCredentialId), StateLine(PasswordCredentialIdState, passwordCredentialId)];
    var inputs := GetActionInputs(host);
    AppendStretches(t0, lines, ActionInputsEffects(host.inputs).events);
    if inputs.Err? {
      return Err(inputs.error);
    }
    r := Ok(CleanupState(keyCredentialId, passwordCredentialId, inputs.value));
  }

  /** `removePasswordCredentialByKeyId(keyId)` of the `.mjs` updater: one request for the
      principal of the updater's application, answered by the service with `outcome`. */
  method RemovePasswordCredentialByKeyId(host: Host, updater: ServicePrincipalUpdater, keyId: string, outcome: Result<()>)
    returns (r: Result<()>)
    modifies host
    ensures host.trace == old(host.trace) + [PasswordRemovalRequested(updater.appId, keyId)]
    ensures r == outcome && host.state == old(host.state)
  {
    host.Emit(PasswordRemovalRequested(updater.appId, keyId));
    r := outcome;
  }

  /** The inner `try` block of `cleanup()`. */
  method RemoveRecorded(host: Host, graph: GraphService, updater: ServicePrincipalUpdater, s: CleanupState, outcome: Result<()>)
    returns (r: Result<()>)
    modifies host, graph
    ensures var removals := RemovalsEffects(updater.client, updater.appId, s, old(Snapshot(graph)), outcome);
            && host.trace == old(host.trace) + removals.events && r == removals.result
            && graph.principals == removals.principals
    ensures host.state == old(host.state)
  {
    ghost var t0 := host.trace;
    ghost var key := KeyRemovalEffects(updater.client, updater.appId, s.keyCredentialId, Snapshot(graph));
    if s.keyCredentialId != "" {
      host.Emit(Log(Info, DetectedKeyLine + s.keyCredentialId));
      ghost var remove := RemoveEffects(updater.client, updater.appId, s.keyCredentialId, Snapshot(graph));
      var removed := updater.RemoveKeyCredentialByKeyId(host, graph, s.keyCredentialId);
      AppendStretches(t0, [Log(Info, DetectedKeyLine + s.keyCredentialId)], remove.events);
      if removed.Err? {
        return removed;
      }
    }
    assert host.trace == t0 + key.events;
    ghost var t1 := host.trace;
    if s.passwordCredentialId != "" {
      host.Emit(Log(Info, DetectedPasswordLine + s.passwordCredentialId));
      r := RemovePasswordCredentialByKeyId(host, updater, s.passwordCredentialId, outcome);
      AppendTwo(t1, Log(Info, DetectedPasswordLine + s.passwordCredentialId), PasswordRemovalRequested(updater.appId, s.passwordCredentialId));
    } else {
      r := Ok(());
    }
  }

  /** From `new GhaHttpClient()` to the end of `cleanup()`. */
  method ClientPhase(host: Host, ext: Externals, graph: GraphService, s: CleanupState, idToken: string, outcome: Result<()>)
    returns (r: Result<()>)
    modifies host, graph
    ensures var w := CleanupWorld(ext, old(Snapshot(graph)), host.debug, host.inputs, old(host.state), outcome);
            var phase := ClientPhaseEffects(w, s, idToken);
            && host.trace == old(host.trace) + phase.events && r == phase.result
            && graph.principals == phase.principals
    ensures host.state == old(host.state)
  {
    ghost var t0 := host.trace;
    var msalApp := NewEsmProvider(Some(MsalClient), s.inputs.clientId, AssertionText(idToken), s.inputs.tenantId, s.inputs.instance);
    var updater := new ServicePrincipalUpdater(host, ext, Esm, msalApp.value, s.inputs.clientId);
    ghost var t1 := host.trace;
    var removed := RemoveRecorded(host, graph, updater, s, outcome);
    ghost var t2 := host.trace;
    var disposed := updater.Dispose(host);
    ghost var t3 := host.trace;
    host.Emit(Disposed(MsalClient));
    ghost var connect := ConnectEffects(Esm, CleanupProvider(s.inputs, idToken), ext, host.debug);
    ghost var removals := RemovalsEffects(updater.client, updater.appId, s, old(Snapshot(graph)), outcome);
    ghost var closing := if updater.client.Ok? then [Disposed(UpdaterClient)] else [];
    Extend4(t0, connect.events, removals.events, closing, [Disposed(MsalClient)]);
    r := if disposed.Err? then disposed else removed;
  }

  /** Regrouping a trace extended four times. */
  lemma Extend4<T>(t: seq<T>, a: seq<T>, b: seq<T>, c: seq<T>, d: seq<T>)
    ensures t + a + b + c + d == t + (a + b + c + d)
  {
  }

  /** `cleanup()` from the test for recorded ids on. */
  method CleanupRecorded(host: Host, ext: Externals, graph: GraphService, s: CleanupState, passwordRemoval: Result<()>)
    returns (r: Result<()>)
    modifies host, graph
    ensures var rest := RecordedEffects(CleanupWorld(ext, old(Snapshot(graph)), host.debug, host.inputs, old(host.state), passwordRemoval), s);
            && host.trace == old(host.trace) + rest.events && r == rest.result
            && graph.principals == rest.principals
    ensures host.state == old(host.state)
  {
    ghost var w := CleanupWorld(ext, Snapshot(graph), host.debug, host.inputs, host.state, passwordRemoval);
    ghost var t0 := host.trace;
    if s.keyCredentialId == "" && s.passwordCredentialId == "" {
      host.Emit(Log(Info, NoKeyLine));
      host.Emit(Log(Info, NoPasswordLine));
      AppendTwo(t0, Log(Info, NoKeyLine), Log(Info, NoPasswordLine));
      return Ok(());
    }
    var idToken := GetGithubActionsTokenEsm(host, ext, s.inputs.idTokenAudience);
    ghost var requested := EsmTokenEvents(ext, s.inputs.idTokenAudience);
    if idToken.Err? {
      return Err(idToken.error);
    }
    ghost var t1 := host.trace;
    r := ClientPhase(host, ext, graph, s, idToken.value, passwordRemoval);
    RecordedAfterToken(w, s, idToken.value);
    AppendStretches(t0, requested, ClientPhaseEffects(w, s, idToken.value).events);
  }

  /** `cleanup()`. */
  method Cleanup(host: Host, ext: Externals, graph: GraphService, passwordRemoval: Result<()>) returns (r: Result<()>)
    modifies host, graph
    ensures var run := CleanupEffects(CleanupWorld(ext, old(Snapshot(graph)), host.debug, host.inputs, old(host.state), passwordRemoval));
            && host.trace == old(host.trace) + run.events && r == run.result
            && graph.principals == run.principals
    ensures host.state == old(host.state)
  {
    ghost var w := CleanupWorld(ext, Snapshot(graph), host.debug, host.inputs, host.state, passwordRemoval);
    ghost var t0 := host.trace;
    var read := GetCleanupState(host);
    if read.Err? {
      return Err(read.error);
    }
    ghost var readEvents := StateEffects(w.inputs, w.state).events;
    ghost var t1 := host.trace;
    assert t1 == t0 + readEvents;
    r := CleanupRecorded(host, ext, graph, read.value, passwordRemoval);
    CleanupAfterRead(w, read.value);
    AppendStretches(t0, readEvents, RecordedEffects(w, read.value).events);
  }
}
