/** The part of `@azure/msal-node` the scripts configure and call: the application
    configuration, the authentication result and the token service behind
    `acquireTokenByClientCredential`. */
module Msal {
  import opened Wrappers

  /** `AzureCloudInstance.AzurePublic`. */
  const AzurePublic := "https://login.microsoftonline.com"

  /** `auth.clientCertificate` of an MSAL configuration. */
  datatype ClientCertificate = ClientCertificate(thumbprint: string, privateKey: string, x5c: Option<string>)

  /** Which HTTP client the MSAL network module sends through. */
  datatype NetworkClient =
    | SuppliedClient(name: string)  // built from the HTTP client the caller passed in
    | FreshClient                   // a `new HttpClient()` of its own

  /** The `system` options: where MSAL's requests go and whether its logger is configured. */
  datatype SystemOptions = SystemOptions(networkClient: NetworkClient, loggerConfigured: bool)

  /** The configuration handed to `buildAppConfiguration`. At most one client credential is set
      by the scripts; `None` is an absent property. */
  datatype AuthConfig = AuthConfig(
    clientId: string,
    tenant: string,
    azureCloudInstance: string,
    clientAssertion: Option<string>,
    clientSecret: Option<string>,
    clientCertificate: Option<ClientCertificate>,
    system: SystemOptions)

  /** The fields of an MSAL `AuthenticationResult` the scripts read. */
  datatype AuthResult = AuthResult(accessToken: string, scopes: seq<string>)

  /** What `acquireTokenByClientCredential` settles to. */
  datatype TokenOutcome =
    | Acquired(result: AuthResult)
    | NullResult
    | Rejected(error: Error)

  /** The token service: the outcome of asking, with a configuration, for a set of scopes. */
  type TokenService = (AuthConfig, seq<string>) -> TokenOutcome

  /** The one scope of a client-credentials request for `resource`: `<resource>/.default`. */
  function DefaultScope(resource: string): (scope: string)
    ensures |scope| == |resource| + 9 && scope[..|resource|] == resource && scope[|resource|..] == "/.default"
  {
    resource + "/.default"
  }

  /** The scope of Microsoft Graph. */
  const GraphScope := DefaultScope("https://graph.microsoft.com")
}
