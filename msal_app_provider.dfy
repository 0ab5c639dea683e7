/** `GhaMsalAppProvider` of the `ms-idp-workflow-run-auth` action (`GhaMsalAppProvider.js`): the
    MSAL configuration template and the two confidential client applications built from it, one
    authenticating with the workflow's identity token, one with a certificate. An application is
    modelled by the configuration it is built from. */
module MsalAppProvider {
  import opened Wrappers
  import opened Msal
  import opened CertProvider

  /** `createMsalConfigurationTemplate(httpClient, clientId, tenantId, instance)`. The network
      module of this action ignores its constructor argument and sends through an HTTP client of
      its own, so the supplied client never carries MSAL's requests. */
  function ConfigTemplate(clientId: string, tenantId: string, instance: string): (config: AuthConfig)
    ensures config.clientId == clientId && config.tenant == tenantId
    ensures config.azureCloudInstance == (if instance == "" then AzurePublic else instance)
    ensures config.clientAssertion.None? && config.clientSecret.None? && config.clientCertificate.None?
    ensures config.system == SystemOptions(FreshClient, true)
  {
    AuthConfig(clientId, tenantId, if instance != "" then instance else AzurePublic, None, None, None,
      SystemOptions(FreshClient, true))
  }

  /** `createMsalAppFromIdToken(...)`: the template, then `auth.clientAssertion` assigned. */
  method CreateMsalAppFromIdToken(clientId: string, idToken: string, tenantId: string, instance: string)
    returns (config: AuthConfig)
    ensures config.clientAssertion == Some(idToken)
    ensures config.clientSecret.None? && config.clientCertificate.None?
    ensures config.(clientAssertion := None) == ConfigTemplate(clientId, tenantId, instance)
  {
    config := ConfigTemplate(clientId, tenantId, instance);
    config := config.(clientAssertion := Some(idToken));
  }

  /** `createMsalAppFromCertificate(...)`: the template, then `auth.clientCertificate` assigned
      from the parsed certificate; `parse` is `new crypto.X509Certificate(pem)`, which throws on a
      malformed certificate. */
  method CreateMsalAppFromCertificate(clientId: string, certificatePem: string, privateKeyPem: string, tenantId: string,
                                      instance: string, parse: string -> Result<X509Info>)
    returns (r: Result<AuthConfig>)
    ensures r.Ok? <==> parse(certificatePem).Ok?
    ensures r.Err? ==> r.error == parse(certificatePem).error
    ensures r.Ok? ==>
              && r.value.clientCertificate
                 == Some(ClientCertificate(parse(certificatePem).value.fingerprint256, privateKeyPem, Some(certificatePem)))
              && r.value.clientAssertion.None? && r.value.clientSecret.None?
              && r.value.(clientCertificate := None) == ConfigTemplate(clientId, tenantId, instance)
  {
    var config := ConfigTemplate(clientId, tenantId, instance);
    var x509 := parse(certificatePem);
    if x509.Err? {
      return Err(x509.error);
    }
    config := config.(clientCertificate := Some(ClientCertificate(x509.value.fingerprint256, privateKeyPem, Some(certificatePem))));
    r := Ok(config);
  }
}
