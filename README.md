# A verified model of the thnetii GitHub Actions scripts

This project is a Dafny model of the JavaScript GitHub Actions of the `thnetii/.github`
repository, with proofs of what the scripts promise. Most of the model covers the short-lived
credential flows that authenticate a workflow job against Microsoft Entra ID and the legacy Azure
Access Control Service (ACS) without stored long-lived secrets:

- `ms-idp-workflow-run-auth`. The main step gets the runner's OIDC identity token and exchanges
  it through MSAL. When asked, it also registers a temporary X.509 certificate on the
  application's service principal, records its key id in the run-state, and authenticates again
  with the certificate. The post step reads the recorded ids and removes the temporary
  credentials.
- `ms-acs-temp-client-secret-auth`. It adds a temporary client secret through Microsoft Graph,
  records its key id, then exchanges the secret at the ACS token endpoint named by the tenant's
  metadata. Its post step removes the secret again.
- `ms-idp-client-assertion-auth`. It exchanges a given client assertion for a token.
- The supporting libraries:
  - the MSAL access-token and app providers, the MSAL network modules and the MSAL logging;
  - the Graph client and the service-principal updater;
  - the confidential-client HTTP authentication handler;
  - the Graph SDK authentication provider and HTTP message handler;
  - the OpenSSL certificate provider;
  - the JWT masking helpers.

The model also covers the CI helpers:

- the core helpers (inputs, booleans, `npm exec` arguments);
- `git-user-config`;
- the rate-limit check;
- the prettier action;
- `create-rebase-pr-branch`;
- the `gh-actions-setup` script.

## How it is modelled

- The runner, as `@actions/core` presents it, is the class `ActionsCore.Host`:
  - its inputs and its debug flag are constants;
  - the run-state store is a `map` that `saveState` updates;
  - every external effect is appended to `trace`, in order: log lines, `setSecret`,
    `setOutput`, `saveState`, identity-token and MSAL token requests, HTTP calls, disposals and
    commands.
- Secret masking is stated on the trace. `Masked(trace)` is the set of strings registered with
  `setSecret`.
- Each script is a method on the host. Its `ensures` ties the new trace, run-state and result to
  a specification function (`…Effects`, `…Run`). Lemmas state the source's promises about that
  function: the order of effects, what is masked before it could be printed, what is saved for
  the post step, and what happens on each error path.
- The Microsoft Graph service principals the credential flows read and write are the class
  `Graph.GraphService`: a map from application id to entity, which each accepted PATCH
  replaces. Its functions `readRejects` and `patchRejects` say which reads and which PATCHes the
  HTTP client rejects (a status above 299 other than 404, or a transport failure). A rejected
  request fails with that error and changes nothing.
- These are parameters of the functions and methods that call them:
  - the MSAL token service, the identity-token source, the HTTP transport and `openssl`;
  - X.509 parsing, base64url decoding, `JSON.parse`;
  - the clock and the path functions.
- Objects whose fields the source updates in place are classes with those fields. The
  confidential-client handler caches its access token, and the Graph client's service-principal
  entity caches its id. The setup script's runner and the certificate provider's file store
  change their files.
- `GhaServicePrincipalUpdater` sets its application id and its client promise once, in the
  constructor. The key list each method reads is local to that call. So the class
  `SpUpdater.ServicePrincipalUpdater` holds those two as constants. The state its methods change
  is the `GraphService`'s principals.
- Pure code (input defaulting, masking, resource and endpoint selection, header conversion, DN
  escaping, argument lists) is modelled as functions. So are the JavaScript string built-ins the
  scripts rely on: `split`, `trim` and `encodeURIComponent` (`JsStrings.EncodeUriComponent`, the
  UTF-8 percent-encoding of every character outside the unreserved set).

Where the code departs from the intended design of the credential lifecycle, the model follows
the code:

- No update is conditional. There is no `If-Match` or ETag, no retry on conflict and no
  propagation wait. Each service-principal change is one unconditional read, modify and PATCH.
- The main step of `ms-idp-workflow-run-auth` saves the key id only after disposing of the
  updater. With `saveState` imported as written, it does not save it at all (see Findings).

Two defects stop the main step of `ms-idp-workflow-run-auth` before it reaches its design. The
model states each as written, then models the rest of the step with that defect corrected (see
Findings):

- `action.js` takes `getActionInputs` from `./utils`, which does not export it. As written the
  step fails at once with a `TypeError` and disposes of its HTTP client
  (`WorkflowRunAction.RunAsWritten`). The rest of the step takes the inputs of
  `acquireAccessToken` as the parameter `FlowInputs`.
- `generateCertificate()` returns no `x509` field, so `addCertificateKeyCredential` fails before
  any write (`SpUpdater.AddRejectsKeyPairAsWritten`). The rest of the step uses the key pair
  with its parsed certificate (`CertProvider.KeyPairOf`).

## Model

| member | source | states |
|---|---|---|
| JsStrings.Split | actions/ms-idp-workflow-run-auth/utils.js:8 | `split` on one character yields at least one piece and no piece holds the separator |
| JsStrings.JoinSplit | actions/ms-idp-workflow-run-auth/utils.js:8 | the pieces of a split joined with the separator give back the string: nothing is lost |
| JsStrings.SplitJoin | lib/gh-actions-msgraph-client/GhaHttpMessageHandler.js:42 | separator-free pieces joined then split give back the pieces |
| JsStrings.SplitFree | actions/ms-idp-workflow-run-auth/utils.js:8 | a separator-free string splits to itself alone |
| JsStrings.SplitCons | actions/ms-idp-workflow-run-auth/utils.js:8 | the first separator closes the first piece |
| JsStrings.TrimStartTrims | actions/gh-actions-setup/setup.js:20-22 | `trimStart` drops a whitespace prefix and nothing else, and leaves no leading whitespace |
| JsStrings.TrimEndTrims | actions/gh-actions-setup/setup.js:20-22 | `trimEnd` drops a whitespace suffix and nothing else, and leaves no trailing whitespace |
| JsStrings.TrimTrims | actions/gh-actions-prettier/action.js:29 | `trim` removes whitespace at both ends only, the result is a slice of the input and has no whitespace at either end |
| JsStrings.TrimIdempotent | actions/gh-actions-prettier/action.js:29 | trimming a trimmed string changes nothing |
| JsStrings.EncodeUriComponent | actions/ms-acs-temp-client-secret-auth/action.js:115-117 | the encoding holds only unreserved characters and `%` escapes, so it cannot introduce `&` or `=` into a form body |
| JsStrings.EncodeUnreserved | actions/ms-acs-temp-client-secret-auth/action.js:57-59 | a string of unreserved characters is encoded as itself |
| Msal.DefaultScope | actions/ms-idp-workflow-run-auth/GhaMsalAccessTokenProvider.js:79 | the client-credentials scope is the resource followed by `/.default` |
| HttpHeaders.SimplifyHeaders | actions/ms-idp-workflow-run-auth/GhaMsalNetworkModule.js:8-16 | the same header names in the same order; each value is the string itself, the array joined with line breaks, or "" |
| HttpHeaders.SimplifiedValues | actions/ms-idp-client-assertion-auth/GhaMsalNetworkModule.js:10-28 | a string header is kept as is, an undefined one becomes "", and an array of break-free values is recovered by splitting the flattened value on line breaks |
| ActionsCore.CoreGetInput | actions/gh-actions-core-helpers/index.js:5-9 | `core.getInput` fails exactly when a required input is empty before trimming; the value is the raw input, trimmed unless trimming is off, and an unset input reads as empty |
| ActionsCore.YamlBool | actions/gh-actions-core-helpers/index.js:22-32 | `true`, `True` and `TRUE` are true and only they; `false`, `False` and `FALSE` are false and only they |
| ActionsCore.CoreGetBooleanInput | actions/gh-actions-core-helpers/index.js:22-32 | `core.getBooleanInput` succeeds exactly when the value read is a YAML 1.2 core-schema boolean, and gives that boolean |
| ActionsCore.NonEmpty | actions/gh-actions-core-helpers/index.js:12-16 | the kept lines are non-empty lines of the input, and every non-empty line is kept |
| ActionsCore.TrimEach | actions/gh-actions-core-helpers/index.js:12-16 | one trimmed string per string, in order |
| ActionsCore.CoreGetMultilineInput | actions/gh-actions-core-helpers/index.js:12-16 | `core.getMultilineInput` fails exactly when `core.getInput` does |
| ActionsCore.Recorded | actions/gh-actions-core-helpers/index.js:65-69 | a run-state value is the one saved under the name, and empty when none was saved |
| ActionsCore.Host.SaveState | actions/ms-acs-temp-client-secret-auth/action.js:43 | `core.saveState` records the value under its name and the call in the trace |
| ActionsCore.Host.GetIdToken | actions/ms-idp-workflow-run-auth/utils.js:33 | `core.getIDToken` yields the runner's answer for the audience and extends the trace by exactly `IdTokenEffects`: the debug line with the request URL, the request, and the masking of the token when one is received |
| ActionsCore.IdTokenContract | actions/ms-idp-workflow-run-auth/utils.mjs:51 | apart from logging and masking the identity-token step records only the one request; exactly the received token is masked (nothing on failure); the first event is the debug line naming the URL |
| ActionsCore.IdTokenUrlContract | actions/ms-idp-workflow-run-auth/utils.mjs:51 | the URL `getIDToken` requests extends the runner's base URL, by an `&audience=` parameter exactly when a non-empty audience is given, and the encoded audience adds no further `&` |
| ActionsCore.Host.AcquireToken | lib/gh-actions-msgraph-client/GhaMsalAuthenticationProvider.js:20 | a client-credential token request is recorded with the application's configuration and scopes, and yields the token service's answer |
| ActionsCore.Host.RunCommand | actions/git-user-config/action.js:12-14 | `exec` records the command with its arguments and directory; it rejects exactly when the exit code is non-zero and the caller did not ask to ignore it, and otherwise yields the process result |
| Graph.GraphService.GetByAppId | actions/ms-idp-workflow-run-auth/GhaServicePrincipalUpdater.js:49 | reading a service principal fails with the service's refusal when it refuses the read of what it holds; otherwise it gives the principal with status 200, or a null entity with status 404 when the tenant has none for the application |
| Graph.GraphService.PatchKeyCredentials | actions/ms-idp-workflow-run-auth/GhaServicePrincipalUpdater.js:120-122 | a refused PATCH fails with the refusal and changes nothing; an accepted one replaces the principal's key credentials with the list sent, entry by entry as the service stores them, and changes nothing else; the answer echoes the stored list exactly when the principal exists and the service echoes |
| CoreHelpers.BooleanInput | actions/gh-actions-core-helpers/index.js:22-32 | an empty input that is not required is `undefined` and nothing else is; a present value is the strict core parse; a failing read or strict parse fails |
| CoreHelpers.GetInput | actions/gh-actions-core-helpers/index.js:5-9 | returns the core value unchanged and adds exactly one debug line `INPUT <name>: <value>` (none on failure); state untouched |
| CoreHelpers.GetMultilineInput | actions/gh-actions-core-helpers/index.js:12-16 | returns the core lines unchanged and adds exactly one debug line carrying them as a JSON array |
| CoreHelpers.GetBooleanInput | actions/gh-actions-core-helpers/index.js:22-32 | returns the lenient boolean and adds one debug line with `true`, `false` or `undefined` |
| CoreHelpers.GetState | actions/gh-actions-core-helpers/index.js:65-69 | returns the saved state value unchanged and adds one debug line `STATE <name>: <value>` |
| CoreHelpers.PackageArgs | actions/gh-actions-core-helpers/index.js:45-47 | one `--package=<p>` per package, same length, same order |
| CoreHelpers.WorkspaceArgs | actions/gh-actions-core-helpers/index.js:51-52 | twice as long as the list; position 2i is `--workspace`, 2i+1 is the i-th workspace |
| CoreHelpers.NpmExecArgsPrefix | actions/gh-actions-core-helpers/index.js:35-47 | the arguments start with `exec`, then `--yes` exactly when installation is allowed, then one `--package=` per package in order |
| CoreHelpers.PackageArgIsNotAFlag | actions/gh-actions-core-helpers/index.js:46 | a package argument can never be mistaken for `--workspaces` or `--include-workspace-root` |
| CoreHelpers.NpmExecArgsWorkspaces | actions/gh-actions-core-helpers/index.js:48-58 | listed workspaces form the tail and exclude `--workspaces`; otherwise `--workspaces` appears iff `npm-workspaces` is true and `--include-workspace-root` is only ever the last argument right after it |
| CoreHelpers.ReadNpmExecInputsFrom | actions/gh-actions-core-helpers/index.js:36-58 | the inputs are read in the source's order (the workspace flags only when no workspace is listed); only debug lines are added |
| CoreHelpers.BuildNpmExecArgs | actions/gh-actions-core-helpers/index.js:35-59 | the pushes of the loop build exactly the argument list characterised by the two lemmas above |
| CoreHelpers.GetNpmExecArguments | actions/gh-actions-core-helpers/index.js:34-60 | succeeds iff the inputs read; the result is the argument list of the values read, the error is the failing read's; only debug lines are added |
| JwtMasking.JwtBody | actions/ms-idp-workflow-run-auth/utils.js:8 | the body segment never contains a dot |
| JwtMasking.JwtSignature | actions/ms-idp-workflow-run-auth/utils.js:8 | the signature is the third dot-free segment only, and "" for a token without dots |
| JwtMasking.JwtSegments | actions/ms-idp-workflow-run-auth/utils.js:8 | a `header.body.signature` token yields exactly its body and its signature |
| JwtMasking.MaskEvents | actions/ms-idp-workflow-run-auth/utils.js:6-11 | nothing is masked for an empty token; otherwise the whole token is masked first, and exactly the token and its non-empty signature are masked |
| JwtMasking.BodyDebugLines | actions/ms-idp-workflow-run-auth/utils.js:12-23 | nothing outside debug mode; in debug mode exactly one debug line |
| JwtMasking.OnJwtToken | actions/ms-idp-workflow-run-auth/utils.js:5-24 | masking calls only, then debug lines only in debug mode; the token is masked before anything is logged; the masked set is that of `MaskEvents` |
| JwtMasking.DebugLinesIgnoreSignature | actions/ms-idp-workflow-run-auth/GhaMsalAccessTokenProvider.js:14-33 | what is logged depends on the body alone, never on the signature |
| WorkflowRunUtils.ParseAuthMethod | actions/ms-idp-workflow-run-auth/types.d.ts:1-5 | a text is an unlisted method exactly when it is none of the four literals |
| WorkflowRunUtils.AuthMethodRoundTrip | actions/ms-idp-workflow-run-auth/utils.mjs:29-35 | naming then parsing a method gives it back, and parsing then naming a text gives the text back: the cast loses nothing |
| WorkflowRunUtils.OrElse | actions/ms-idp-workflow-run-auth/utils.mjs:15-23 | `text || fallback`: the text when non-empty, else the fallback |
| WorkflowRunUtils.WithDefaults | actions/ms-idp-workflow-run-auth/utils.mjs:15-43 | the ids are kept; an empty instance is the public cloud, an empty resource the client id, an empty audience `undefined` (iff), an empty method the federated credential; present values are kept |
| WorkflowRunUtils.Optional | actions/ms-idp-workflow-run-auth/utils.mjs:17 | an optional input reads as its trimmed raw value |
| WorkflowRunUtils.ActionInputsContract | actions/ms-idp-workflow-run-auth/utils.mjs:6-44 | reading fails iff `client-id` or `tenant-id` is empty; the ids are the trimmed inputs, instance and resource take their defaults; only debug lines are logged |
| WorkflowRunUtils.GetActionInputs | actions/ms-idp-workflow-run-auth/utils.mjs:6-44 | the six reads, in order, logging one line each, with the result `ActionInputsContract` describes |
| WorkflowRunUtils.GetGithubActionsTokenEsm | actions/ms-idp-workflow-run-auth/utils.mjs:49-53 | the runner's token is returned unchanged and the trace grows by an informational line followed by `IdTokenEffects` (the core's debug line, the request, the masking of the token) |
| WorkflowRunUtils.EsmTokenContract | actions/ms-idp-workflow-run-auth/utils.mjs:49-53 | the step records only the one request apart from logging and masking; exactly the received token is masked; every event is a log line, a mask or the request |
| WorkflowRunUtils.CjsTokenEvents | actions/ms-idp-workflow-run-auth/utils.js:29-36 | a debug line, then `IdTokenEffects` (the core's debug line, the request, the masking of the token), then `onJwtToken` of the token received; exactly three events on failure |
| WorkflowRunUtils.CjsTokenMasked | actions/ms-idp-workflow-run-auth/utils.js:33-34 | the identity token and its signature are masked, nothing else |
| WorkflowRunUtils.CjsTokenMilestones | actions/ms-idp-workflow-run-auth/utils.js:29-36 | apart from logging and masking, the step records only the one request |
| WorkflowRunUtils.GetGithubActionsTokenCjs | actions/ms-idp-workflow-run-auth/utils.js:29-36 | the runner's token is returned unchanged and the trace grows by `CjsTokenEvents` |
| MsalProvider.NodeSystemOptions | lib/gh-actions-msal-client/index.js:18-25 | the logger is always configured; the network client wraps the given HTTP client, or a fresh one when none is given |
| MsalProvider.BaseConfig | actions/ms-idp-workflow-run-auth/GhaMsalAccessTokenProvider.js:46-55 | client id and tenant as given, the instance or the public cloud for a falsy one, and no credential yet |
| MsalProvider.NewCjsProvider | actions/ms-idp-workflow-run-auth/GhaMsalAccessTokenProvider.js:43-63 | the provider remembers the client id and holds the configuration `CjsConfigSelection` describes |
| MsalProvider.CjsConfigSelection | actions/ms-idp-workflow-run-auth/GhaMsalAccessTokenProvider.js:56-59 | a string argument sets exactly the assertion, an object with a private key and a thumbprint exactly that certificate (iff), never a secret; the rest is the base |
| MsalProvider.NewEsmProvider | actions/ms-idp-workflow-run-auth/GhaMsalAccessTokenProvider.mjs:23-45 | the provider of `EsmConfig`, or its error |
| MsalProvider.EsmConfigSelection | actions/ms-idp-workflow-run-auth/GhaMsalAccessTokenProvider.mjs:36-41 | fails iff the argument is `undefined` (the `in` test throws); a `clientSecret` key sets exactly the secret and suppresses the certificate; otherwise as the CommonJS selection |
| MsalProvider.VariantsAgree | actions/ms-idp-workflow-run-auth/GhaMsalAccessTokenProvider.mjs:36-41 | on every argument the CommonJS form accepts without a `clientSecret` key, the two forms build the same configuration |
| MsalProvider.EffectiveResource | actions/ms-idp-workflow-run-auth/GhaMsalAccessTokenProvider.js:70-76 | a falsy resource stands for the client id; any other is used as given |
| MsalProvider.ScopeLines | actions/ms-idp-workflow-run-auth/GhaMsalAccessTokenProvider.js:86-88 | one debug line per granted scope, in order |
| MsalProvider.AcquireContract | actions/ms-idp-workflow-run-auth/GhaMsalAccessTokenProvider.js:68-90 | exactly one token request, for the single scope `<resource>/.default`; a null answer is an `AuthError`; success iff a grant, returned unchanged; exactly the access token and its signature are masked, nothing when no grant |
| MsalProvider.AcquireMilestones | actions/ms-idp-workflow-run-auth/GhaMsalAccessTokenProvider.mjs:50-72 | apart from logging and masking, acquiring records only the one request |
| MsalProvider.SuccessEventsFacts | actions/ms-idp-workflow-run-auth/GhaMsalAccessTokenProvider.js:83-88 | after a grant only log lines and masking calls follow, masking what `onJwtToken` masks |
| MsalProvider.AcquireAccessToken | actions/ms-idp-workflow-run-auth/GhaMsalAccessTokenProvider.js:68-90 | the trace and result are those of `AcquireEffects` for the service's answer to the one request |
| MsalProvider.ReportSuccess | actions/ms-idp-workflow-run-auth/GhaMsalAccessTokenProvider.js:83-88 | the success line, `onJwtToken`, and the scope lines in debug mode |
| MsalProvider.LogScopes | actions/ms-idp-workflow-run-auth/GhaMsalAccessTokenProvider.mjs:68-70 | the loop logs exactly `ScopeLines` of the granted scopes |
| MsalAppProvider.ConfigTemplate | actions/ms-idp-workflow-run-auth/GhaMsalAppProvider.js:18-39 | the template names the client and the tenant, the cloud instance defaults to `AzurePublic`, carries no credential yet, and logs through the action's logger options |
| MsalAppProvider.CreateMsalAppFromIdToken | actions/ms-idp-workflow-run-auth/GhaMsalAppProvider.js:49-67 | the application authenticates with the identity token as its client assertion and otherwise is the template |
| MsalAppProvider.CreateMsalAppFromCertificate | actions/ms-idp-workflow-run-auth/GhaMsalAppProvider.js:77-101 | fails exactly when the certificate does not parse; else the application authenticates with the certificate's SHA-256 fingerprint, the private key and the certificate as `x5c`, and otherwise is the template |
| MsGraphClient.EncodedKeys | actions/ms-idp-workflow-run-auth/GhaMsGraphClient.js:82-84 | one encoded name per selected key, in order |
| MsGraphClient.ClientContract | actions/ms-idp-workflow-run-auth/GhaMsGraphClient.js:16-23 | exactly one token request, for the Graph `.default` scope; the client holds the granted token, a null result is an `AuthError`, a rejection passes through |
| MsGraphClient.RequestUrlContract | actions/ms-idp-workflow-run-auth/GhaMsGraphClient.js:80-85 | with `$select` the address is the base, `?$select=`, then the encoded keys, and splitting that list on `,` gives the encoded keys back; without it the address is the base |
| MsGraphClient.NoCommaEncoded | actions/ms-idp-workflow-run-auth/GhaMsGraphClient.js:83 | an encoded key contains no `,`, so the joined list can be taken apart again |
| MsGraphClient.GetContract | actions/ms-idp-workflow-run-auth/GhaMsGraphClient.js:78-94 | no GET when the client failed to authenticate, else one GET of the computed address; the payload is returned as is, a null payload is an error naming the address with the status; the id is cached exactly when the payload has one |
| MsGraphClient.AddKeyRequestContract | actions/ms-idp-workflow-run-auth/GhaMsGraphClient.js:106-127 | the `addKey` request goes to `<base>/addKey` with an `AsymmetricX509Cert` key for `Verify`: uuid as key id, common name, thumbprint as identifier, base64 of the certificate text; the proof is signed for the entity id and the AAD Graph audience |
| MsGraphClient.AddContract | actions/ms-idp-workflow-run-auth/GhaMsGraphClient.js:99-135 | with a non-empty cached id one POST signed for it and no read; otherwise `?$select=id` is read first and the POST signed for the id read; a failed read stops; a null answer to the POST is an error |
| MsGraphClient.CachedIdSkipsRead | actions/ms-idp-workflow-run-auth/GhaMsGraphClient.js:92-105 | once a read cached a non-empty id, adding a certificate reads nothing and signs for that id |
| MsGraphClient.DisposeAsWrittenRejects | actions/ms-idp-workflow-run-auth/GhaMsGraphClient.js:53-60 | as written, `dispose()` rejects when the token request had a null result, since `finally` does not catch |
| MsGraphClient.DisposeContract | actions/ms-idp-workflow-run-auth/GhaMsGraphClient.js:53-60 | disposal as intended never fails and disposes exactly the client that exists; it agrees with the written code whenever the client was built, and the written code rejects otherwise |
| MsGraphClient.ServicePrincipalEntity.constructor | actions/ms-idp-workflow-run-auth/GhaMsGraphClient.js:67-70 | the entity keeps its address and client, and no id is cached |
| MsGraphClient.ServicePrincipalEntity.Get | actions/ms-idp-workflow-run-auth/GhaMsGraphClient.js:78-94 | the trace and the result are those of `GetEffects`; the cached id becomes the payload's `id` when it has one |
| MsGraphClient.ServicePrincipalEntity.AddClientAssertionCertificate | actions/ms-idp-workflow-run-auth/GhaMsGraphClient.js:99-135 | the trace, the result and the cached id are those of `AddEffects` |
| MsGraphClient.GraphClient.constructor | actions/ms-idp-workflow-run-auth/GhaMsGraphClient.js:31-33 | the client holds the outcome of its token request |
| MsGraphClient.GraphClient.ById | actions/ms-idp-workflow-run-auth/GhaMsGraphClient.js:37-42 | a fresh entity at `servicePrincipals('<id>')` on the same client, with no cached id |
| MsGraphClient.GraphClient.ByAppId | actions/ms-idp-workflow-run-auth/GhaMsGraphClient.js:44-49 | a fresh entity at `servicePrincipals(appId='<appId>')` on the same client, with no cached id |
| MsGraphClient.GraphClient.DisposeUncaught | actions/ms-idp-workflow-run-auth/GhaMsGraphClient.js:53-60 | as written: disposes of the client when it exists, and otherwise rejects with the token request's error, as `DisposeAsWritten` gives |
| MsGraphClient.GraphClient.Dispose | actions/ms-idp-workflow-run-auth/GhaMsGraphClient.js:53-60 | as intended (see Findings): the trace gains what `DisposeEffects` gives and the result is always success |
| MsGraphClient.Connect | actions/ms-idp-workflow-run-auth/GhaMsGraphClient.js:16-33 | a fresh client whose token is the outcome of one Graph token request, recorded in the trace |
| SpUpdater.BearerOf | actions/ms-idp-workflow-run-auth/GhaServicePrincipalUpdater.js:15-20 | the updater's client exists iff the token was granted, and carries exactly its access token; otherwise it holds the token's error |
| SpUpdater.FindKeyId | actions/ms-idp-workflow-run-auth/GhaServicePrincipalUpdater.js:74 | the index found is the first entry with the key id; none iff no entry has it |
| SpUpdater.NewKeyCredential | actions/ms-idp-workflow-run-auth/GhaServicePrincipalUpdater.js:101-110 | fails with a `TypeError` iff the key pair has no parsed certificate; otherwise the entry is built from the certificate, the uuid and the thumbprint |
| SpUpdater.FindThumbprint | actions/ms-idp-workflow-run-auth/GhaServicePrincipalUpdater.js:129-131 | an entry found is the FIRST one carrying the thumbprint (no earlier entry carries it); none iff no entry does |
| SpUpdater.FindsAppended | actions/ms-idp-workflow-run-auth/GhaServicePrincipalUpdater.js:101-131 | when the service keeps thumbprints and key ids and no listed entry carries the new thumbprint, the search finds the stored form of the appended entry, whose key id is the one sent |
| SpUpdater.ReadRefusal | actions/ms-idp-workflow-run-auth/GhaServicePrincipalUpdater.js:49-55 | `getKeyCredentials` yields a principal iff the tenant holds one for the application and the service grants the read |
| SpUpdater.RemoveFailures | actions/ms-idp-workflow-run-auth/GhaServicePrincipalUpdater.js:49-55 | without a token nothing is sent and nothing changes; a refused read fails the removal with the refusal and nothing is written; an absent principal that the service does not refuse is the 404 `HttpClientError` |
| SpUpdater.SpliceKeeps | actions/ms-idp-workflow-run-auth/GhaServicePrincipalUpdater.js:76 | splicing keeps every other entry in order and removes exactly that one (multiset) |
| SpUpdater.RemoveContract | actions/ms-idp-workflow-run-auth/GhaServicePrincipalUpdater.js:62-86 | a refused read fails with the refusal and writes nothing; with no entry of that key id removal succeeds and nothing is written; otherwise exactly one PATCH carries the list spliced at the first match, and either the service refuses it (the removal fails, nothing changes) or that list, as stored, becomes the principal's and removal succeeds; it succeeds iff `RemoveRefusal` finds nothing |
| SpUpdater.RemoveRepeatable | actions/ms-idp-workflow-run-auth/GhaServicePrincipalUpdater.js:74-76 | with unique key ids kept by the service, after a removal that succeeded a second removal of the same key id writes nothing, changes nothing, and succeeds iff the service grants its read |
| SpUpdater.ConfirmPatches | actions/ms-idp-workflow-run-auth/GhaServicePrincipalUpdater.js:120-122 | the write part sends exactly one PATCH, first, with the list it was given, whether or not the service accepts it |
| SpUpdater.AddContract | actions/ms-idp-workflow-run-auth/GhaServicePrincipalUpdater.js:91-140 | a refused read fails with the refusal and writes nothing; a key pair without a parsed certificate fails with a `TypeError` and writes nothing; otherwise exactly one PATCH carries the listed entries in order plus the new entry, a refused PATCH fails with the refusal and changes nothing, an accepted one makes that list, as stored, the principal's; a returned entry is a stored one with the key pair's thumbprint, and when the service keeps identifiers and no listed entry already carried that thumbprint it is the stored form of the appended entry, with the key pair's uuid as its key id |
| SpUpdater.ConfirmMilestones | actions/ms-idp-workflow-run-auth/GhaServicePrincipalUpdater.js:120-127 | apart from logging, the write and, only when the service accepts it without echoing the list, one second read |
| SpUpdater.AddMilestones | actions/ms-idp-workflow-run-auth/GhaServicePrincipalUpdater.js:95-127 | apart from logging, an addition of a parsed key pair records the read; when the read is granted, the write; when the write is accepted and not echoed, the re-read |
| SpUpdater.AddEventKinds | actions/ms-idp-workflow-run-auth/GhaServicePrincipalUpdater.js:91-140 | an addition only logs and sends HTTP requests |
| SpUpdater.AddSucceeds | actions/ms-idp-workflow-run-auth/GhaServicePrincipalUpdater.js:129-139 | when the service keeps thumbprints, an addition succeeds iff the key pair has a parsed certificate and the service grants the read, accepts the write and, without an echo, grants the re-read; the entry returned carries the key pair's thumbprint |
| SpUpdater.AddRejectsKeyPairAsWritten | actions/ms-idp-workflow-run-auth/GhaServicePrincipalUpdater.js:101-102 | the key pair as `generateCertificate()` returns it never reaches a write and changes nothing; once the read is granted it fails with a `TypeError` |
| SpUpdater.AddAcceptsKeyPairOf | actions/ms-idp-workflow-run-auth/GhaServicePrincipalUpdater.js:101-122 | once the read is granted, the key pair with its parsed certificate is written as the listed entries plus its entry built from the certificate |
| SpUpdater.ServicePrincipalUpdater.GetKeyCredentials | actions/ms-idp-workflow-run-auth/GhaServicePrincipalUpdater.js:38-57 | one debug line and, with a token, one GET of the selected properties; the result is `ReadEffects`': the service's refusal, an `HttpClientError` with the status code for a null entity, or the principal |
| SpUpdater.ServicePrincipalUpdater.RemoveKeyCredentialByKeyId | actions/ms-idp-workflow-run-auth/GhaServicePrincipalUpdater.js:62-86 | the trace, the result and the service's new principals are those of `RemoveEffects`, whose refusal and success cases `RemoveContract` states |
| SpUpdater.ServicePrincipalUpdater.AddCertificateKeyCredential | actions/ms-idp-workflow-run-auth/GhaServicePrincipalUpdater.js:91-140 | the trace, the result and the service's new principals are those of `AddEffects`, whose refusal and success cases `AddContract` and `AddSucceeds` state |
| SpUpdater.ServicePrincipalUpdater.PatchAndConfirm | actions/ms-idp-workflow-run-auth/GhaServicePrincipalUpdater.js:112-139 | the write and the confirmation as `ConfirmEffects` describes: a refused write fails and changes nothing; without an echo a refused re-read fails with the list already stored; otherwise the entry with the thumbprint, or the not-found error |
| SpUpdater.ServicePrincipalUpdater.Dispose | actions/ms-idp-workflow-run-auth/GhaServicePrincipalUpdater.js:142-145 | disposes of the client once, or rejects with the token's error and disposes of nothing |
| SpUpdater.ServicePrincipalUpdater.constructor | actions/ms-idp-workflow-run-auth/GhaServicePrincipalUpdater.js:27-36 | one Graph token request through the provider; the client is the bearer of that token |
| CertProvider.SpecialCount | actions/ms-idp-workflow-run-auth/GhaOpenSslCertProvider.js:15 | the count of `/` and `+` characters never exceeds the length |
| CertProvider.EscapeDnLength | actions/ms-idp-workflow-run-auth/GhaOpenSslCertProvider.js:18-20 | escaping adds exactly one character per `/` or `+` |
| CertProvider.EscapeDnHead | actions/ms-idp-workflow-run-auth/GhaOpenSslCertProvider.js:18-20 | an escaped value never begins with `/` or `+` |
| CertProvider.EscapeDnEscapes | actions/ms-idp-workflow-run-auth/GhaOpenSslCertProvider.js:18-20 | every `/` and `+` of an escaped value is preceded by a backslash, so none can start a new subject component |
| CertProvider.EscapeDnRoundTrip | actions/ms-idp-workflow-run-auth/GhaOpenSslCertProvider.js:18-20 | removing the escapes gives back the value |
| CertProvider.CertSubjectParts | actions/ms-idp-workflow-run-auth/GhaOpenSslCertProvider.js:22-24 | the subject is the run id, then the owner and the repository escaped; unescaping them recovers the environment values exactly ("" when unset) |
| CertProvider.KeyPairAsWritten | actions/ms-idp-workflow-run-auth/GhaOpenSslCertProvider.js:51-57 | the object literal as written carries no parsed certificate |
| CertProvider.KeyPairOf | actions/ms-idp-workflow-run-auth/GhaOpenSslCertProvider.js:50-57 | the literal of the source with the parsed certificate added, and nothing else changed |
| CertProvider.FileStore.Read | actions/ms-idp-workflow-run-auth/GhaOpenSslCertProvider.js:46 | a present file reads as its contents; a missing one fails with `ENOENT` |
| CertProvider.Without | actions/ms-idp-workflow-run-auth/GhaOpenSslCertProvider.js:47 | the path is gone and every other file is kept unchanged, and no file is added |
| CertProvider.OpensslArgs | actions/ms-idp-workflow-run-auth/GhaOpenSslCertProvider.js:31-45 | thirteen arguments carrying the subject, the certificate path for `-out` and the key path for `-keyout` |
| CertProvider.ReadAndRemove | actions/ms-idp-workflow-run-auth/GhaOpenSslCertProvider.js:46-49 | each file is removed right after it is read; a missing key file fails with the store unchanged; on success neither path remains |
| CertProvider.GenerateCertificate | actions/ms-idp-workflow-run-auth/GhaOpenSslCertProvider.js:27-58 | one `openssl` command; a failing one leaves the files unchanged; on success both temporary files are gone and every other file is as before; the uuid is the one of the file names and the thumbprint and common name are the parsed certificate's |
| CertProvider.WithoutWritten | actions/ms-idp-workflow-run-auth/GhaOpenSslCertProvider.js:46-49 | writing the two files then removing both leaves the store as it was without those paths |
| CertProvider.FileStore.Write | actions/ms-idp-workflow-run-auth/GhaOpenSslCertProvider.js:31-45 | the written path holds the given contents and every other file is kept |
| CertProvider.FileStore.Remove | actions/ms-idp-workflow-run-auth/GhaOpenSslCertProvider.js:47 | the path is gone afterwards and every other file is kept with its contents, whether or not the path was present |
| WorkflowRunAction.FinishContract | actions/ms-idp-workflow-run-auth/action.js:59-63 | apart from logging, the token request and, only when a token is granted, the two outputs with the access token first; success iff a grant |
| WorkflowRunAction.RegisterMilestones | actions/ms-idp-workflow-run-auth/action.js:33-40 | the registration records the `openssl` run, the updater's Graph token request, the updater's requests, and the updater's disposal whenever it obtained a client |
| WorkflowRunAction.RunWithoutCertificate | actions/ms-idp-workflow-run-auth/action.js:14-32 | without the certificate option: the identity-token request, the one token request and the outputs, the client disposed last; nothing saved and no principal touched |
| WorkflowRunAction.RegisteredMilestones | actions/ms-idp-workflow-run-auth/action.js:33-40 | a successful registration settles with the key pair and the entry, the entry is on the principal, nothing is saved yet |
| WorkflowRunAction.CertificateFlow | actions/ms-idp-workflow-run-auth/action.js:23-63 | the certificate branch is the identity-token step, then provisioning, then the final stage only when provisioning yields a provider |
| WorkflowRunAction.ProvisionAfterRegister | actions/ms-idp-workflow-run-auth/action.js:41-56 | after a registration, `saveState` of `@actions/core` saves the key id and yields the certificate provider, while the helpers' missing export throws with nothing saved |
| WorkflowRunAction.RegisterFailure | actions/ms-idp-workflow-run-auth/action.js:36-40 | an addition that throws ends provisioning with that error, whatever `saveState` is bound to |
| WorkflowRunAction.RunWithCertificate | actions/ms-idp-workflow-run-auth/action.js:14-73 | as intended, with the inputs and key pair corrected and `saveState` of `@actions/core`: identity token, certificate, Graph token, read and write, updater disposal, the key id saved, then the certificate token request and outputs, the MSAL client last; the saved key id names an entry on the principal |
| WorkflowRunAction.SavedKeyIdIsNewCredential | actions/ms-idp-workflow-run-auth/action.js:36-41 | when the service keeps identifiers and the principal held no entry with the new thumbprint, the key id saved under `key-credential-id` is the key pair's uuid, so it names the credential this run appended |
| WorkflowRunAction.SaveAsWrittenLeaks | actions/ms-idp-workflow-run-auth/action.js:3 | with the inputs and key pair corrected but `saveState` imported as written: once the credential is registered the call to the missing `saveState` throws; the entry stays on the principal, no key id is saved and no second token is requested |
| WorkflowRunAction.AddFailureSavesNothing | actions/ms-idp-workflow-run-auth/action.js:36-41 | when the addition throws, the updater is still disposed, nothing is saved, no second token is requested and nothing is output |
| WorkflowRunAction.CertificateProviderConfig | actions/ms-idp-workflow-run-auth/action.js:46-56 | the replacement provider authenticates with the generated certificate alone (key, thumbprint, PEM as `x5c`) through the MSAL client |
| WorkflowRunAction.SaveKeyCredentialId | actions/ms-idp-workflow-run-auth/action.js:41 | under `@actions/core` one state entry is saved; under the helpers' missing export a `TypeError` with nothing saved |
| WorkflowRunAction.Register | actions/ms-idp-workflow-run-auth/action.js:33-40 | the trace, result, principals and state are those of `RegisterEffects` |
| WorkflowRunAction.Provision | actions/ms-idp-workflow-run-auth/action.js:32-57 | the trace, result, principals and state are those of `ProvisionEffects` |
| WorkflowRunAction.Finish | actions/ms-idp-workflow-run-auth/action.js:59-63 | the token request then two `setOutput`s, as `FinishEffects` |
| WorkflowRunAction.AcquireAccessTokenFlow | actions/ms-idp-workflow-run-auth/action.js:14-64 | the trace, result, principals and state are those of `FlowEffects` |
| WorkflowRunAction.Run | actions/ms-idp-workflow-run-auth/action.js:66-73 | with the inputs supplied: the trace, result, principals and state are those of `RunEffects`, the flow followed by the MSAL HTTP client's disposal whatever the flow's outcome |
| WorkflowRunAction.RunBracketed | actions/ms-idp-workflow-run-auth/action.js:23-71 | with the inputs supplied, apart from logging and masking every run starts with the identity-token request and ends with the MSAL HTTP client's disposal, whatever fails in between |
| WorkflowRunAction.RunAsWritten | actions/ms-idp-workflow-run-auth/action.js:6-22 | as written: `run()` fails with the `TypeError` of calling the missing `getActionInputs`, and its only effect is the MSAL HTTP client's disposal; nothing is saved |
| WorkflowRunCleanup.CleanupAfterRead | actions/ms-idp-workflow-run-auth/cleanup.js:21-29 | once the state is read, the post step is the read followed by the rest |
| WorkflowRunCleanup.RecordedAfterToken | actions/ms-idp-workflow-run-auth/cleanup.js:36-37 | once an id is recorded and the identity token has come, the identity-token step (`EsmTokenEvents`) is followed by the client phase |
| WorkflowRunCleanup.StateContract | actions/ms-idp-workflow-run-auth/cleanup.js:10-19 | the ids come from the two run-state keys and the inputs as read; the read fails iff the inputs cannot be read; only debug lines |
| WorkflowRunCleanup.QuietUnlessRecorded | actions/ms-idp-workflow-run-auth/cleanup.js:30-34 | with neither id recorded: no identity token, no client, no request, no disposal, principals unchanged |
| WorkflowRunCleanup.KeyRemovalKinds | actions/ms-idp-workflow-run-auth/cleanup.js:51-56 | the key removal only logs and sends HTTP requests |
| WorkflowRunCleanup.RemovalsMilestones | actions/ms-idp-workflow-run-auth/cleanup.js:50-64 | the key removal's effects, then the password removal request only when one is recorded and the key removal did not throw; success iff both parts succeeded |
| WorkflowRunCleanup.ClientPhaseMilestones | actions/ms-idp-workflow-run-auth/cleanup.js:38-70 | the Graph token request, the removals, the updater's disposal when it has a client and the MSAL client's disposal, in that order; a thrown removal or disposal is the phase's error |
| WorkflowRunCleanup.CleanupProviderConfig | actions/ms-idp-workflow-run-auth/cleanup.js:42-48 | the post step authenticates with the fresh identity token as its assertion, never with a certificate or secret |
| WorkflowRunCleanup.CleanupOrder | actions/ms-idp-workflow-run-auth/cleanup.js:36-70 | once an id is recorded: the identity token for the configured audience, then the Graph token, the removals and both disposals, in that order |
| WorkflowRunCleanup.KeyRemovalPatches | actions/ms-idp-workflow-run-auth/cleanup.js:51-56 | the key removal succeeds iff no key id is recorded or the updater's removal is not refused; it writes once, the list without the first entry carrying the recorded key id, exactly when that id is recorded, the read is granted and an entry carries it; the principals change only when that write is accepted |
| WorkflowRunCleanup.PasswordRemovalCounts | actions/ms-idp-workflow-run-auth/cleanup.js:57-64 | the password removal writes no key list and is requested iff a password id is recorded |
| WorkflowRunCleanup.RemovalsNarrowed | actions/ms-idp-workflow-run-auth/cleanup.js:50-64 | the removals write at most once, exactly the write `KeyWrite` describes, and the principals end as `AfterKeyWrite` |
| WorkflowRunCleanup.RemovalsRequestPassword | actions/ms-idp-workflow-run-auth/cleanup.js:57-64 | the removals request the password removal iff the key removal did not fail and a password id is recorded, and succeed iff the key removal did and, with a password id, the service's answer is a success |
| WorkflowRunCleanup.ConnectHasNoRemoval | actions/ms-idp-workflow-run-auth/cleanup.js:49 | obtaining the updater's Graph token removes nothing |
| WorkflowRunCleanup.PhaseNarrowed | actions/ms-idp-workflow-run-auth/cleanup.js:38-70 | the removal events of the client phase are exactly those of the removals |
| WorkflowRunCleanup.CleanupNarrowed | actions/ms-idp-workflow-run-auth/cleanup.js:21-71 | the removal events of the post step are those of its client phase, and the MSAL client's disposal is its last effect |
| WorkflowRunCleanup.CleanupRemovesKeyOnce | actions/ms-idp-workflow-run-auth/cleanup.js:51-56 | exactly the first entry carrying the recorded key id is removed, by one write; nothing is written when no key id is recorded, the read is refused or no entry carries it; the principals change only when the write is accepted |
| WorkflowRunCleanup.PhaseRemovesKeyOnce | actions/ms-idp-workflow-run-auth/cleanup.js:49-56 | once the Graph client is granted, the client phase's key-list writes are `KeyWrite`'s and its principals end as `AfterKeyWrite` |
| WorkflowRunCleanup.PhaseRemovesPasswordOnce | actions/ms-idp-workflow-run-auth/cleanup.js:57-64 | once the Graph client is granted, the client phase requests the password removal iff the key removal did not fail and a password id is recorded, and succeeds iff the key removal did and the password answer, when asked for, is a success |
| WorkflowRunCleanup.CleanupRemovesPasswordOnce | actions/ms-idp-workflow-run-auth/cleanup.js:57-64 | the password removal is requested exactly once when a password id is recorded and the key removal did not fail, and never otherwise; the post step succeeds iff the key removal did and the password answer, when asked for, is a success |
| WorkflowRunCleanup.KeyFailureSkipsPassword | actions/ms-idp-workflow-run-auth/cleanup.js:50-70 | a key removal that throws skips the password removal and fails the post step; the MSAL client is still disposed last |
| WorkflowRunCleanup.GetCleanupState | actions/ms-idp-workflow-run-auth/cleanup.js:10-19 | the trace and result are those of `StateEffects` |
| WorkflowRunCleanup.RemovePasswordCredentialByKeyId | actions/ms-idp-workflow-run-auth/cleanup.js:61-63 | one removal request for the updater's application, settling as the service answers |
| WorkflowRunCleanup.RemoveRecorded | actions/ms-idp-workflow-run-auth/cleanup.js:50-64 | the trace, result and principals are those of `RemovalsEffects` |
| WorkflowRunCleanup.ClientPhase | actions/ms-idp-workflow-run-auth/cleanup.js:38-70 | the trace, result and principals are those of `ClientPhaseEffects` |
| WorkflowRunCleanup.CleanupRecorded | actions/ms-idp-workflow-run-auth/cleanup.js:30-70 | the trace, result and principals are those of `RecordedEffects` |
| WorkflowRunCleanup.Cleanup | actions/ms-idp-workflow-run-auth/cleanup.js:21-71 | the trace, result and principals are those of `CleanupEffects` |
| AcsClientSecret.Issuance | actions/ms-acs-temp-client-secret-auth/action.js:188-191 | the filtered endpoints are no more than the metadata lists and every one of them is for `issuance` over `OAuth2` |
| AcsClientSecret.TokenEndpoint | actions/ms-acs-temp-client-secret-auth/action.js:187-192 | the token endpoint is never empty |
| AcsClientSecret.InputsContract | actions/ms-acs-temp-client-secret-auth/action.js:152-176 | the read succeeds exactly when client id, tenant id and Graph token are non-empty; values are trimmed; the instance defaults to the public cloud, the resource id to the client id; the resource is `<id>[/<path>]@<tenant>`; reading only logs |
| AcsClientSecret.IssuanceFirst | actions/ms-acs-temp-client-secret-auth/action.js:188-191 | the first endpoint that is for OAuth2 issuance heads the filtered list |
| AcsClientSecret.IssuanceNone | actions/ms-acs-temp-client-secret-auth/action.js:188-191 | with no endpoint for OAuth2 issuance the filtered list is empty |
| AcsClientSecret.TokenEndpointFirstMatch | actions/ms-acs-temp-client-secret-auth/action.js:187-192 | the endpoint used is the location of the first OAuth2 issuance endpoint, or the tenant's default when that location is empty |
| AcsClientSecret.TokenEndpointNoMatch | actions/ms-acs-temp-client-secret-auth/action.js:187-192 | with no OAuth2 issuance endpoint the tenant's default endpoint `https://accounts.accesscontrol.windows.net/<tenant>/tokens/OAuth/2` is used |
| AcsClientSecret.IssuanceIgnoresCase | actions/ms-acs-temp-client-secret-auth/action.js:190 | usage and protocol must match whole words, case ignored: `Issuance`/`OAUTH2` matches, a trailing space or `OAuth` does not |
| AcsClientSecret.FieldHasNoAmpersand | actions/ms-acs-temp-client-secret-auth/action.js:115-117 | an encoded form field contains no `&` when its name has none |
| AcsClientSecret.FormBodySplits | actions/ms-acs-temp-client-secret-auth/action.js:114-117 | the request body splits on `&` into exactly the grant type, `client_id=<client>@<realm>`, the secret and the resource, each value encoded |
| AcsClientSecret.MetadataContract | actions/ms-acs-temp-client-secret-auth/action.js:53-93 | the metadata is one GET of `<instance>/metadata/json/1?realm=<tenant>`; it succeeds exactly on status 200 with a body, which it returns; any other answer fails with the tenant in the message and the status |
| AcsClientSecret.SecretOutcome | actions/ms-acs-temp-client-secret-auth/action.js:15-46 | the secret succeeds exactly on status 200 with a body; then the key id is saved for the post step and only then the secret masked; on failure the run-state is unchanged |
| AcsClientSecret.SecretShape | actions/ms-acs-temp-client-secret-auth/action.js:17-44 | the creation logs two debug lines and sends the POST, and only after a successful answer logs, saves the key id and masks the secret |
| AcsClientSecret.SecretMilestones | actions/ms-acs-temp-client-secret-auth/action.js:27-43 | apart from logs and masking, the creation is the `addPassword` POST, then the key id saved when it succeeded |
| AcsClientSecret.SecretMasking | actions/ms-acs-temp-client-secret-auth/action.js:44 | the secret text is the only value masked, and only when the creation succeeded |
| AcsClientSecret.TokenOutcome | actions/ms-acs-temp-client-secret-auth/action.js:103-149 | the token request succeeds exactly when the answer has status 200 (500 when absent), the body parses and has an `access_token`; the token and then its signature segment are masked last; another status fails with that status and the re-printed body |
| AcsClientSecret.TokenMilestones | actions/ms-acs-temp-client-secret-auth/action.js:118-120 | apart from logs and masking the token request is its one form POST |
| AcsClientSecret.TokenMasking | actions/ms-acs-temp-client-secret-auth/action.js:145-147 | a granted token masks exactly itself and its signature segment |
| AcsClientSecret.MainAfterRead | actions/ms-acs-temp-client-secret-auth/action.js:178-207 | once the inputs are read, the step saves client id and Graph token, runs the `try` block and disposes both clients whatever its outcome |
| AcsClientSecret.TryAfterMetadata | actions/ms-acs-temp-client-secret-auth/action.js:186-203 | after the metadata: a refused secret ends the block; otherwise the token request follows and the output is set exactly when the token is granted; the run-state is the creation's |
| AcsClientSecret.MainFrame | actions/ms-acs-temp-client-secret-auth/action.js:178-206 | the step's effects apart from logs and masking are the two saves, those of the `try` block, then the two disposals |
| AcsClientSecret.MainWithoutMetadata | actions/ms-acs-temp-client-secret-auth/action.js:185-207 | when the metadata cannot be had no secret is created: the saves, the GET, the disposals, and the step fails |
| AcsClientSecret.MainSecretRefused | actions/ms-acs-temp-client-secret-auth/action.js:193-207 | when `addPassword` is refused no key id is saved and no token is requested; the clients are disposed and the step fails |
| AcsClientSecret.TryTokenRequested | actions/ms-acs-temp-client-secret-auth/action.js:186-203 | once the secret is created: GET, POST, key id saved, token request, and the output exactly when the token is granted; the key id is in the run-state |
| AcsClientSecret.MainTokenRequested | actions/ms-acs-temp-client-secret-auth/action.js:178-207 | once the secret is created its key id is saved before the token request; the output is set exactly when the token is granted; both clients are disposed last |
| AcsClientSecret.TryMasksBeforeOutput | actions/ms-acs-temp-client-secret-auth/action.js:144-203 | a granted token is masked, then its signature, then the output is set; the secret was masked already |
| AcsClientSecret.MainMasksBeforeOutput | actions/ms-acs-temp-client-secret-auth/action.js:195-207 | on success the last five effects are the two masks, the output, and the two disposals |
| AcsClientSecret.MainMasksSecrets | actions/ms-acs-temp-client-secret-auth/action.js:44-147 | a successful step has masked the secret, the token and the token's signature |
| AcsClientSecret.TryStops | actions/ms-acs-temp-client-secret-auth/action.js:186 | a metadata failure ends the `try` block with that error and the run-state as it was |
| AcsClientSecret.MainStops | actions/ms-acs-temp-client-secret-auth/action.js:152-176 | a missing required input ends the step before anything is saved or requested |
| AcsClientSecret.ReadAcsInputs | actions/ms-acs-temp-client-secret-auth/action.js:152-176 | the result and the trace are those of `InputsEffects`; the run-state is unchanged |
| AcsClientSecret.GetAcsMetadata | actions/ms-acs-temp-client-secret-auth/action.js:53-93 | the result and the trace are those of `MetadataEffects`; the run-state is unchanged |
| AcsClientSecret.CreateServicePrincipalClientSecret | actions/ms-acs-temp-client-secret-auth/action.js:15-46 | the result, the trace and the run-state are those of `SecretEffects` |
| AcsClientSecret.GetAcsAccessToken | actions/ms-acs-temp-client-secret-auth/action.js:103-149 | the result and the trace are those of `TokenEffects`; the run-state is unchanged |
| AcsClientSecret.TryBlock | actions/ms-acs-temp-client-secret-auth/action.js:185-203 | the result, the trace and the run-state are those of `TryEffects` |
| AcsClientSecret.RunMain | actions/ms-acs-temp-client-secret-auth/action.js:151-208 | the result, the trace and the run-state are those of `MainEffects` |
| AcsCleanup.PostContract | actions/ms-acs-temp-client-secret-auth/cleanup.js:9-33 | one removal request for the recorded key id, client id and Graph token, then the disposal; success exactly on status 204, the rejection or an assertion error otherwise; nothing masked, output or saved |
| AcsCleanup.MainRecords | actions/ms-acs-temp-client-secret-auth/action.js:43-179 | the main step leaves client id and Graph token in the run-state once the inputs are read, and the key id as well once the secret was created |
| AcsCleanup.PostRemovesCreatedSecret | actions/ms-acs-temp-client-secret-auth/cleanup.js:10-22 | the post step removes exactly the secret the main step created, from the same service principal, with the same Graph token |
| AcsCleanup.PostAfterNoSecret | actions/ms-acs-temp-client-secret-auth/cleanup.js:12-17 | when no secret was created the main step has failed and the post step still asks to remove the empty key id |
| AcsCleanup.Post | actions/ms-acs-temp-client-secret-auth/cleanup.js:26-33 | the trace and the result are those of `PostEffects` for the run-state; the run-state is unchanged |
| ConfidentialHandler.BearerValue | lib/gh-actions-msal-client/GhaConfidentialClientCredentialHandler.js:25-28 | the value `prepareRequest` puts in `options.auth`: `Bearer <token>` once a token is stored, and `Bearer ` with nothing after it before that |
| ConfidentialHandler.LastGranted | lib/gh-actions-msal-client/GhaConfidentialClientCredentialHandler.js:42-54 | the token found is one that some authentication in the run was granted, and none is found exactly when no authentication was granted |
| ConfidentialHandler.StoredIsLastGranted | lib/gh-actions-msal-client/GhaConfidentialClientCredentialHandler.js:45-51 | after any run of authentications the handler holds the last token granted, or its earlier token when none was granted |
| ConfidentialHandler.FreshHandlerSendsLastGranted | lib/gh-actions-msal-client/GhaConfidentialClientCredentialHandler.js:17-54 | a fresh handler sends `Bearer ` until a token is granted, and after that the last token granted |
| ConfidentialHandler.RequestOptions.constructor | lib/gh-actions-msal-client/GhaConfidentialClientCredentialHandler.js:25-28 | the options hold the given authorization value |
| ConfidentialHandler.Handler.constructor | lib/gh-actions-msal-client/GhaConfidentialClientCredentialHandler.js:17-21 | the handler keeps the application and the resource and holds no token |
| ConfidentialHandler.Handler.PrepareRequest | lib/gh-actions-msal-client/GhaConfidentialClientCredentialHandler.js:25-28 | the request's authorization becomes the bearer value of the stored token |
| ConfidentialHandler.Handler.CanHandleAuthentication | lib/gh-actions-msal-client/GhaConfidentialClientCredentialHandler.js:32-34 | the handler takes on every refused request |
| ConfidentialHandler.Handler.HandleAuthentication | lib/gh-actions-msal-client/GhaConfidentialClientCredentialHandler.js:42-54 | one token request for `<resource>/.default`; a granted token is stored, set on the request, which is sent again once and settles as that resend does; otherwise the token and the request stay as they were and the call fails, a null result with an `AuthError` |
| MsalAuthProvider.AccessTokenContract | lib/gh-actions-msgraph-client/GhaMsalAuthenticationProvider.js:17-28 | one token request for the given scopes, or for Microsoft Graph when there are none; the token comes back unchanged exactly when one was granted; a null result is an `AuthError`; exactly the non-empty token and its non-empty signature segment are masked, and after the request |
| MsalAuthProvider.GetAccessToken | lib/gh-actions-msgraph-client/GhaMsalAuthenticationProvider.js:17-28 | the trace and the result are those of `AccessTokenEffects` for the token outcome of the configured application |
| HttpMessageHandler.BodyInitToDataContract | lib/gh-actions-msgraph-client/GhaHttpMessageHandler.js:12-31 | no body is sent as `null` and only then; text and search parameters as their text; every binary body as a stream of its bytes, for a view exactly its `byteLength` bytes from its offset; any other body as itself |
| HttpMessageHandler.LaterDuplicatesWin | lib/gh-actions-msgraph-client/GhaHttpMessageHandler.js:41-43 | `Object.fromEntries` holds exactly the names of its entries, each with the value of the last entry of that name |
| HttpMessageHandler.ArrayEntries | lib/gh-actions-msgraph-client/GhaHttpMessageHandler.js:39-45 | one entry per array element, in order: its key with the remaining values joined by `\n` |
| HttpMessageHandler.NamedEntriesContract | lib/gh-actions-msgraph-client/GhaHttpMessageHandler.js:58-77 | the iterable branch keeps at most one entry per input entry, in order, each one an input entry's non-empty name with its remaining parts, and keeps all of them when every entry has a name |
| HttpMessageHandler.OutgoingHeadersContract | lib/gh-actions-msgraph-client/GhaHttpMessageHandler.js:37-81 | undefined headers stay undefined; with array headers every key is present and holds the joined values of its last entry; with iterable headers a non-empty name is present exactly when some entry starts with it, and holds one remaining part as a string and several or none as an array, from the last such entry; an empty name is never present |
| HttpMessageHandler.IterableHeaderEntries | lib/gh-actions-msgraph-client/GhaHttpMessageHandler.js:58-77 | the nested loops collect exactly the entries `NamedEntries` describes |
| HttpMessageHandler.HeadersInitToOutgoingHeaders | lib/gh-actions-msgraph-client/GhaHttpMessageHandler.js:37-81 | the outgoing headers are `OutgoingHeaders` of the input, whose properties the lemmas above state |
| HttpMessageHandler.TaggedValues | lib/gh-actions-msgraph-client/GhaHttpMessageHandler.js:95-96 | each array value becomes one pair with the header's name, in order |
| HttpMessageHandler.PairValues | lib/gh-actions-msgraph-client/GhaHttpMessageHandler.js:92-98 | the values of the pairs, one per pair, in order |
| HttpMessageHandler.HeaderPairsContract | lib/gh-actions-msgraph-client/GhaHttpMessageHandler.js:94-98 | a response header gives pairs of its own name only, one per array element or one for any other value `value \|\| ''`; its values joined with `\n` are what the MSAL network module makes of the same header |
| HttpMessageHandler.FetchHeadersAt | lib/gh-actions-msgraph-client/GhaHttpMessageHandler.js:94-98 | each header's pairs sit after those of the headers before it and before those after it |
| HttpMessageHandler.HttpClientResponseToFetchResponse | lib/gh-actions-msgraph-client/GhaHttpMessageHandler.js:87-106 | the response carries the message as body, the headers as `FetchHeaders` lists them, and the status code and status message unchanged |
| HttpMessageHandler.Context.constructor | lib/gh-actions-msgraph-client/GhaHttpMessageHandler.js:127 | a context with the request and options and no response yet |
| HttpMessageHandler.MethodOf | lib/gh-actions-msgraph-client/GhaHttpMessageHandler.js:128 | the method is the options' method when there is one, `GET` otherwise |
| HttpMessageHandler.Handler.constructor | lib/gh-actions-msgraph-client/GhaHttpMessageHandler.js:114-116 | the handler keeps the HTTP client it is given |
| HttpMessageHandler.Handler.Execute | lib/gh-actions-msgraph-client/GhaHttpMessageHandler.js:119-137 | one request with the converted method, URL, body and headers; a rejection leaves the context as it was; otherwise the converted response is stored in the context |
| MsalNetwork.WorkflowRunGetContract | actions/ms-idp-workflow-run-auth/GhaMsalNetworkModule.js:29-39 | a GET with the caller's headers and no body; it fails exactly when the client rejects or the result is null, the latter with the status; otherwise status and body are the response's and every header keeps its name and position, flattened |
| MsalNetwork.WorkflowRunPostContract | actions/ms-idp-workflow-run-auth/GhaMsalNetworkModule.js:44-57 | a POST always sends a body, the caller's or `""`; it fails exactly when the client rejects or the body text does not parse; the body is the parsed text, the status is the message's, or 200 when absent or zero; the header names are kept |
| MsalNetwork.ToNetworkResponseContract | actions/ms-idp-client-assertion-auth/GhaMsalNetworkModule.js:10-28 | fails exactly on a null result, with that status; otherwise status and body are the response's own and every header keeps its name and position, flattened |
| MsalNetwork.AssertionRequestsContract | actions/ms-idp-client-assertion-auth/GhaMsalNetworkModule.js:41-60 | the POST forwards the caller's body and headers as they are, an absent body staying absent; the GET sends the same without a body; both hand the answer to `toNetworkResponse`, so the same answer gives the same response |
| MsalNetwork.GetConversionsAgree | actions/ms-idp-workflow-run-auth/GhaMsalNetworkModule.js:29-39 | the two actions' GET conversions agree on every answer except a null result, which both reject with the status, in their own words |
| ClientAssertionAction.ReadInputsContract | actions/ms-idp-client-assertion-auth/action.js:13-33 | the read fails exactly when client id, tenant id or assertion is empty, the missing client id first; values are trimmed; the instance defaults to the public cloud and the audience to the client id; reading only logs at debug level and masks nothing |
| ClientAssertionAction.EntryContract | actions/ms-idp-client-assertion-auth/action.js:68-78 | a null result fails the step with no output and no mask; a rejection settles the run with no effect; a granted token is masked first, then published whole as `result`, and alone as `access-token` last; only the token is masked |
| ClientAssertionAction.RunEvents | actions/ms-idp-client-assertion-auth/action.js:64-78 | a run is the input lines, the token request, then the entry's effects; only the entry can output or mask |
| ClientAssertionAction.RunContract | actions/ms-idp-client-assertion-auth/action.js:36-78 | one token request, with the assertion as the only credential and `<audience>/.default` as the only scope; a null result, a rejection or a missing input sets no output; a granted token is masked before both outputs, and is the only value masked |
| MsalLogging.LoggerCallback | actions/ms-idp-workflow-run-auth/GhaMsalLogging.js:5-10 | a line goes to at most one sink: errors, warnings and information to theirs (each iff its level), verbose and trace to debug only in debug mode |
| MsalLogging.AssertionLoggerCallback | actions/ms-idp-client-assertion-auth/action.js:48-53 | each level goes to exactly its sink (iff), the verbose levels always to debug, the message unchanged |
| MsalLogging.Options | lib/gh-actions-msal-client/GhaMsalLogging.js:13-17 | verbose exactly in debug mode, informational otherwise, never personal data |
| MsalLogging.CallbackMatchesOptions | lib/gh-actions-msal-client/GhaMsalLogging.js:5-17 | a line is dropped iff debug is off and its level is more verbose than informational; the callback never masks anything |
| RatelimitCheck.DigitPrefix | actions/gh-actions-ratelimit-check/action.js:16 | the result is the longest prefix of the text made only of decimal digits: it is a prefix, all digits, and the next character is not a digit |
| RatelimitCheck.NatTextDigits | actions/gh-actions-ratelimit-check/action.js:16 | a number's decimal text is non-empty, all digits, and reads back as the number |
| RatelimitCheck.AllDigitsPrefix | actions/gh-actions-ratelimit-check/action.js:16 | a text made only of digits is read whole |
| RatelimitCheck.ParseIntRoundTrip | actions/gh-actions-ratelimit-check/action.js:16 | `parseInt(…, 10)` reads the decimal text of every integer back as that integer |
| RatelimitCheck.NotWhitespace | actions/gh-actions-ratelimit-check/action.js:16 | a text that starts with a digit or a minus sign has no leading white space to skip |
| RatelimitCheck.ParseIntNoDigits | actions/gh-actions-ratelimit-check/action.js:16 | a threshold text with no digit after the leading white space and sign is NaN |
| RatelimitCheck.RatelimitContract | actions/gh-actions-ratelimit-check/action.js:11-63 | the run reports remaining and limit first; at or above the threshold it only reports; below it, and always when the threshold is NaN, `warning` warns, `failure` fails the step and only then, `wait` gives notice, any other action is reported as an error; the run waits exactly in the last two cases, for the reset time in milliseconds minus now; nothing is masked |
| PrettierAction.InvocationArgsContract | actions/gh-actions-prettier/action.js:14-17 | the `npm exec` arguments come first, unchanged, then `-- prettier --list-different`, then exactly the user's arguments, or `.` when there are none |
| PrettierAction.PrettierArguments | actions/gh-actions-prettier/action.js:14-17 | the pushes build exactly `InvocationArgs` |
| PrettierAction.FirstBreak | actions/gh-actions-prettier/action.js:28 | the index of the first CR or LF: nothing before it is a line break, and it is one unless it is the end |
| PrettierAction.SkipBreaks | actions/gh-actions-prettier/action.js:28 | a suffix of the text that does not start with a line break |
| PrettierAction.SplitLineBreaks | actions/gh-actions-prettier/action.js:28 | at least one piece, and no piece holds a CR or LF |
| PrettierAction.ListedFilesContract | actions/gh-actions-prettier/action.js:27-30 | every listed file is non-empty, has no white space at either end and holds no line break |
| PrettierAction.SplitJoinedLines | actions/gh-actions-prettier/action.js:28 | non-empty lines without line breaks joined by `\n` split back into the same lines |
| PrettierAction.NonEmptyKeepsAll | actions/gh-actions-prettier/action.js:30 | the filter keeps a list none of whose strings is empty as it is |
| PrettierAction.ListedFilesRoundTrip | actions/gh-actions-prettier/action.js:27-30 | file names printed one per line, non-empty, without white space at either end or line breaks, are listed back as they are, in order; an empty output lists nothing |
| PrettierAction.WarningsContract | actions/gh-actions-prettier/action.js:31-35 | exactly one warning per listed file, the `i`-th for the `i`-th file |
| PrettierAction.SummaryContract | actions/gh-actions-prettier/action.js:36-47 | a notice for exit codes 0 and 2, an error for 1, nothing for any other code; never on a file |
| PrettierAction.ReportContract | actions/gh-actions-prettier/action.js:31-49 | one warning per listed file, in order, on that file's path joined to the prefix, titled with it; then the exit code's summary; last the exit code as the `prettier-exitcode` output and as the process exit code |
| PrettierAction.ReportWarnsOnlyFiles | actions/gh-actions-prettier/action.js:31-49 | the report has no warning other than the files' |
| PrettierAction.Report | actions/gh-actions-prettier/action.js:26-50 | the trace gains exactly `ReportEvents` for the exit code and the files listed in the output |
| PrettierAction.WarnFiles | actions/gh-actions-prettier/action.js:31-35 | the loop adds exactly one warning per file, in order |
| PrettierAction.Summarize | actions/gh-actions-prettier/action.js:36-47 | the trace gains exactly the exit code's summary |
| PrettierAction.PrettierInputsOf | actions/gh-actions-prettier/action.js:11-14 | the read fails exactly when the `npm exec` inputs cannot be read, with that error; otherwise arguments, working directory and workspace are the getters' values and the `npm exec` arguments are built from the inputs |
| PrettierAction.ReadPrettierInputs | actions/gh-actions-prettier/action.js:11-14 | the result is `PrettierInputsOf` of the inputs and the trace gains only debug lines |
| PrettierAction.Run | actions/gh-actions-prettier/action.js:11-50 | the action succeeds exactly when its inputs can be read; a failure adds only debug lines; on success the trace ends with the command run in the working directory and its report, after only debug lines |
| PrettierAction.RunWith | actions/gh-actions-prettier/action.js:13-50 | the trace gains the `npm` command run in the working directory, then the report of its exit code and output, with the prefix relative to the workspace (or the current directory) |
| RebasePrBranch.ExistsRef | actions/create-rebase-pr-branch/action.js:6-23 | the ref exists exactly when `getRef` resolves, is missing exactly when it rejects with a 404 `HttpError`, and any other rejection is thrown on unchanged |
| RebasePrBranch.RebaseRunContract | actions/create-rebase-pr-branch/action.js:36-56 | `heads/<branch>` is looked up, and a lookup failing other than with a 404 runs nothing; an existing branch is fetched as `<b>:<b>` and, only after that succeeded, rebased with `--strategy-option=ours` onto the base; a missing one is created at the base by `checkout -B`; the base is the upstream sha when given, else the event's sha; the script succeeds exactly when every command it ran exited with 0 |
| RebasePrBranch.RebaseOrCheckout | actions/create-rebase-pr-branch/action.js:44-55 | a run either fetches (and perhaps rebases) or checks out, never both; at most two commands, all `git` in the current directory; a rebase always follows a successful fetch |
| GitUserConfig.WorkingDirectory | actions/git-user-config/readInputs.js:4-6 | an empty `working-directory` is no working directory at all; any other value is used as given |
| GitUserConfig.ConfigArgs | actions/git-user-config/action.js:7-10 | the prefix starts with `config` and holds `--global` exactly when `config-global` is true |
| GitUserConfig.GitUserConfigCommands | actions/git-user-config/action.js:12-14 | at most two commands run; the first is `git config … user.name <user-name>`, the second `… user.email <user-email>`, both with the same prefix and working directory; a successful run ran both |
| GitUserConfig.Run | actions/git-user-config/action.js:5-15 | the trace and the outcome are those of `GitUserConfigRun` for the inputs: the reads through the getters, then the two awaited commands, a failing one ending the run |
| ActionSetup.LookupConcat | actions/gh-actions-setup/setup.js:16-19 | a name is looked up in the first part of a list of entries before the second |
| ActionSetup.LookupOverridden | actions/gh-actions-setup/setup.js:16-19 | a name of `dependencies` takes the value `devDependencies` gives it, else keeps its own; other names are absent |
| ActionSetup.LookupAdded | actions/gh-actions-setup/setup.js:16-19 | the names added from `devDependencies` are exactly those `dependencies` lacks, with their values |
| ActionSetup.SpreadLookup | actions/gh-actions-setup/setup.js:16-19 | in `{ ...dependencies, ...devDependencies }` a name has the value `devDependencies` gives it, else the one `dependencies` gives it, and no name that neither has |
| ActionSetup.LocalDepsContract | actions/gh-actions-setup/setup.js:16-22 | exactly the entries whose version is a `file:` string are kept, at most one per entry, each with the trimmed text after `file:` |
| ActionSetup.EnsureAllKeeps | actions/gh-actions-setup/setup.js:25-34 | a readable `package.json` is left untouched, as is every other file, and no directory is removed |
| ActionSetup.EnsureAllCreates | actions/gh-actions-setup/setup.js:23-34 | afterwards every local dependency has a `package.json` |
| ActionSetup.EnsureAllWritesPlaceholders | actions/gh-actions-setup/setup.js:28-33 | every new file is some local dependency's `package.json` holding `{"name":<name>,"version":"0.0.0"}`, and every new directory is some local dependency's directory |
| ActionSetup.Runner.constructor | actions/gh-actions-setup/setup.js:10 | the runner starts with the given files and directories, an empty console and no command run |
| ActionSetup.Runner.Access | actions/gh-actions-setup/setup.js:26 | a `package.json` is readable exactly when the file exists |
| ActionSetup.Runner.Mkdir | actions/gh-actions-setup/setup.js:28 | the directory is added; nothing else changes |
| ActionSetup.Runner.WriteFile | actions/gh-actions-setup/setup.js:33 | the file holds the contents; nothing else changes |
| ActionSetup.Runner.Log | actions/gh-actions-setup/setup.js:38 | the line is appended to the console; nothing else changes |
| ActionSetup.Runner.ExecSync | actions/gh-actions-setup/setup.js:39-42 | the command is recorded with its working directory; it fails exactly when the command exits non-zero |
| ActionSetup.EnsurePackageJson | actions/gh-actions-setup/setup.js:23-34 | the files and directories become those of `Ensure` for the dependency; console and commands are unchanged |
| ActionSetup.Setup | actions/gh-actions-setup/setup.js:10-43 | the files and directories end as `EnsureAll` over the local dependencies of the spread, in order; then exactly one `npm install --workspace "<path>" --no-audit --no-fund --install-links` is logged and run in the root, and the setup fails exactly when it exits non-zero |

## Left out

- Concurrency. Every `await` is taken in program order. No interleaving of promises, no timers and no process exit codes beyond `process.exitCode` are modelled.
- External libraries and services are parameters, not implementations. This covers `@actions/http-client`, `@azure/msal-node` (`acquireTokenByClientCredential`, `buildAppConfiguration`), the Microsoft Graph SDK, `getIDToken`, `openssl`, `crypto.X509Certificate`, `fingerprint256`, `randomUUID`, base64url decoding, `JSON.parse`, `URLSearchParams` serialisation, `Headers.raw()`, `path.join`, `path.relative` and `path.resolve`. Each is a function that answers, or gives an error. `@actions/http-client`'s rejections of Graph requests are the Graph service's `readRejects` and `patchRejects`.
- `@actions/core` and the Graph service are not part of this model as source. `ActionsCore.Host` and `Graph.GraphService` follow their documented behaviour: inputs read as trimmed strings, YAML 1.2 booleans, masking, outputs and state as maps, and a service principal replaced by each accepted PATCH.
- Retry, backoff, optimistic concurrency and propagation waits do not exist in the code, so they are not modelled.
- CertProvider.GenerateCertificate, WorkflowRunAction.Register, WorkflowRunAction.Provision, WorkflowRunAction.AcquireAccessTokenFlow, WorkflowRunAction.Run: these model the main step with its two defects corrected. The key pair carries its parsed certificate (`x509`), which `generateCertificate()` as written does not return. The inputs of `acquireAccessToken`, `useClientCertificate` among them, are the parameter `FlowInputs`, since `./utils` exports no `getActionInputs`. What the step does as written is stated by `WorkflowRunAction.RunAsWritten` and `SpUpdater.AddRejectsKeyPairAsWritten`.
- MsGraphClient.GraphClient.Dispose: states `dispose()` as its comment intends, never rejecting. The code as written rejects when the token request failed; that form is `MsGraphClient.GraphClient.DisposeUncaught` (see Findings).
- WorkflowRunAction.RunAsWritten: the rejection of the promise `run()` returns is its error result. Node's handling of the unhandled rejection at `action.js:75` (the warning and the exit code) is not modelled.
- ActionsCore.Host.GetIdToken: the runner's answer `ext.idTokens` folds in every failure of `getIDToken`: a missing `ACTIONS_ID_TOKEN_REQUEST_URL` or request token, a failing HTTP request, and the rewrapping of the error as `Error message: …`. The base URL is the field `idTokenUrl` of the externals.
- WorkflowRunCleanup.ClientPhase: `actions/ms-idp-workflow-run-auth/GhaServicePrincipalUpdater.mjs`, whose updater the post step builds (`cleanup.js`:8, 49, 55, 66), is not part of this model. Its constructor, `removeKeyCredentialByKeyId` and `dispose` are assumed to behave like those of `GhaServicePrincipalUpdater.js`, so the post step uses `SpUpdater.ServicePrincipalUpdater` (`ConnectEffects`, `RemoveEffects`, `Dispose`). Its `removePasswordCredentialByKeyId`, which the `.js` updater lacks, is modelled as one Graph request that answers or fails (`WorkflowRunCleanup.RemovePasswordCredentialByKeyId`).
- `actions/ms-idp-workflow-run-auth/GhaMsGraphHttpMessageHandler.js` is unfinished. It refers to variables it never defines, so there is nothing coherent to model.
- The pure logging wrappers are not modelled, since they have no logic: both `GhaHttpClient.js` files, `lib/gh-actions-msgraph-client/GhaMsGraphClient.js` and `lib/gh-actions-msal-client/index.js`.
- The thin command wrappers are not modelled: `gh-actions-eslint`, `get-workflow-id`, `add-matcher-npm`, `gh-actions-dotnet-info` and the `gh-actions-sleep-until` timer.
- The network module of `ms-idp-workflow-run-auth` ignores the HTTP client it is given and makes its own. The model therefore does not let the MSAL configuration template wrap the supplied client.
- JSON values are modelled as string-valued objects, and only the fields the scripts read or write appear. Key order in serialised JSON and in header objects is not modelled.
- MsGraphClient.RequestUrlContract: `$select` is either absent or an object with keys; other values are not modelled. In the source `get(null)` throws a `TypeError`, because `typeof null` is `'object'` and `Object.keys(null)` fails. The model has no such case, and no caller in the repository passes `null` (the one call, `GhaMsGraphClient.js:103`, passes `{ id: '' }`). The keys are encoded by `JsStrings.EncodeUriComponent`.
- RatelimitCheck.RatelimitContract: the informational text about the wait uses a floating-point `delaySeconds` and a plural suffix, and is not modelled. Only the integer wait in milliseconds is stated. The delay `setTimeout` clamps to is not modelled either.
- PrettierAction.RunWith: `getExecOutput` echoes stdout to the log, and that echo is not in the trace. The reported files are computed from the captured stdout.
- RebasePrBranch.RebaseRun: the `getRef` call to the GitHub API is an input to the run and is not recorded as an event.
- ActionSetup.Setup: the file system is reduced to readable, present and absent paths. It does not model:
  - JavaScript's ordering of integer-like object keys;
  - `mkdir` of ancestor directories;
  - failures of `require`;
  - the stdio inheritance of `execSync`.
- The local `getInput` helpers of the ACS and client-assertion actions log every input in a debug line. This logs the Graph token and the client assertion before they are masked. The model records those lines as written and proves nothing stronger about them.
- Floating point is not modelled anywhere. All arithmetic is on unbounded integers, which suffices for the status codes, rate-limit counters and millisecond timestamps the scripts compare.

## Findings

| source | as written | input that shows it | evidently intended | confidence | as-written member | corrected member |
|---|---|---|---|---|---|---|
| actions/ms-idp-workflow-run-auth/GhaServicePrincipalUpdater.js:101-102 | `addCertificateKeyCredential` reads `keyPair.x509.raw`, but `generateCertificate()` (`GhaOpenSslCertProvider.js`:51-57) returns no `x509` field, so the read throws a `TypeError` | any key pair as `generateCertificate()` returns it | the certificate's raw bytes become the key credential's `key` | not executed | SpUpdater.AddRejectsKeyPairAsWritten | SpUpdater.AddAcceptsKeyPairOf |
| actions/ms-idp-workflow-run-auth/action.js:3 | `saveState` is imported from `@thnetii/gh-actions-core-helpers`, which does not export it, so the call throws once the certificate is registered; the key id is never saved and the post step cannot remove the credential | `useClientCertificate` true, with the inputs of `acquireAccessToken` supplied and a key pair carrying its parsed certificate (the corrections of the `getActionInputs` row and the `x509` row), and every service answering | the key id is saved in the run-state before the second token request | not executed | WorkflowRunAction.SaveAsWrittenLeaks | WorkflowRunAction.RunWithCertificate |
| actions/ms-idp-workflow-run-auth/action.js:6-22 | `acquireAccessToken` calls `getActionInputs()`, imported from `./utils`, which exports only `onJwtToken` and `getGithubActionsToken`; the call throws a `TypeError` before any input is read or any token requested, and `run()` only disposes of its HTTP client | any run of the main step | the inputs are read, the identity token is requested first and the MSAL HTTP client is disposed last | not executed | WorkflowRunAction.RunAsWritten | WorkflowRunAction.RunBracketed |
| actions/ms-idp-workflow-run-auth/GhaMsGraphClient.js:53-60 | `dispose()` awaits the token promise inside `try`/`finally` with no `catch`, so a failed token request makes `dispose()` reject, although the comment says failures are ignored | a token request whose result is `null` | `dispose()` never fails, and disposes the client when one was built | not executed | MsGraphClient.DisposeAsWrittenRejects | MsGraphClient.DisposeContract |
