/** `GhaMsGraphClient` of the `ms-idp-workflow-run-auth` action (`GhaMsGraphClient.js`): a
    Microsoft Graph client that authenticates with an MSAL application's token, and the service
    principal entities it addresses, which cache the entity id a read returned. */
module MsGraphClient {
  import opened Wrappers
  import opened JsStrings
  import opened Msal
  import opened Graph
  import opened ActionsCore
  import opened CertProvider
  import SpUpdater

  const NullAuthResult := "Authentication result is null"

  /** The audience of the proof-of-possession token `addKey` demands: the AAD Graph application. */
  const AadGraphAudience := "00000002-0000-0000-c000-000000000000"

  /** The HTTP client built around the Graph token. */
  const GraphHttpClient := "msgraph http client"

  /** A JSON object the service answers with, as its string-valued properties. */
  type JsonObject = map<string, string>

  /** The remote side and the foreign computations: what `getJson` and `postJson` resolve to (an
      `Err` when the client rejects), `Buffer.from(…).toString('base64')`, and the signed JWT
      `ClientAssertion.fromCertificate(…).getJwt(…, issuer, audience)` yields. */
  datatype GraphApi = GraphApi(
    getJson: string -> Result<TypedResponse<JsonObject>>,
    postJson: HttpCall -> Result<TypedResponse<KeyCredential>>,
    base64: string -> string,
    sign: (KeyPair, Option<string>, string) -> string)

  /** `createMsGraphHttpClient(msalApp)`: one token request for Microsoft Graph; a null result is
      an `AuthError`, and the token becomes the client's bearer credential. */
  function ClientEffects(config: AuthConfig, outcome: TokenOutcome): Effects<string>
  {
    Effects([TokenRequested(config, [GraphScope])],
      match outcome
      case Acquired(result) => Ok(result.accessToken)
      case NullResult => Err(AuthError(NullAuthResult))
      case Rejected(e) => Err(e))
  }

  /** The `$select` argument of `get`: absent, or an object whose keys are selected. */
  datatype Select = NoSelect | SelectKeys(keys: seq<string>)

  /** The selected property names, each encoded. */
  function EncodedKeys(keys: seq<string>): (r: seq<string>)
    ensures |r| == |keys| && forall i :: 0 <= i < |keys| ==> r[i] == EncodeUriComponent(keys[i])
  {
    seq(|keys|, i requires 0 <= i < |keys| => EncodeUriComponent(keys[i]))
  }

  /** The address `get` reads. */
  function RequestUrl(baseUrl: string, select: Select): string
  {
    match select
    case NoSelect => baseUrl
    case SelectKeys(keys) => baseUrl + "?$select=" + Join(EncodedKeys(keys), ",")
  }

  /** `get($select)`: a rejected client promise rejects again; otherwise one GET, and a null
      payload is an `HttpClientError` naming the address and carrying the status. */
  function GetEffects(client: Result<string>, api: GraphApi, baseUrl: string, select: Select): Effects<JsonObject>
  {
    match client
    case Err(e) => Effects([], Err(e))
    case Ok(_) =>
      var url := RequestUrl(baseUrl, select);
      match api.getJson(url)
      case Err(e) => Effects([HttpRequest(GetJson(url))], Err(e))
      case Ok(resp) =>
        Effects([HttpRequest(GetJson(url))],
          match resp.result
          case None => Err(HttpClientError("Response payload from '" + url + "' is null", Some(resp.statusCode)))
          case Some(entity) => Ok(entity))
  }

  /** The cached entity id after a read: the payload's `id` when it has one. */
  function CachedAfter(cached: Option<string>, r: Result<JsonObject>): Option<string>
  {
    if r.Ok? && "id" in r.value then Some(r.value["id"]) else cached
  }

  /** The `keyCredential` of the `addKey` request for a certificate. */
  function NewKeyCredential(api: GraphApi, cert: KeyPair): KeyCredential
  {
    KeyCredential(api.base64(cert.certificate), cert.uuid, cert.thumbprint, None, None, cert.commonName,
      SpUpdater.CertificateType, SpUpdater.VerifyUsage)
  }

  /** The `addKey` request, with the proof signed for the entity id. */
  function AddKeyRequest(api: GraphApi, baseUrl: string, cert: KeyPair, spnId: Option<string>): HttpCall
  {
    PostAddKey(baseUrl + "/addKey", NewKeyCredential(api, cert), api.sign(cert, spnId, AadGraphAudience))
  }

  /** The POST of `addClientAssertionCertificate`; a null payload is an `HttpClientError`. */
  function PostKeyEffects(api: GraphApi, baseUrl: string, cert: KeyPair, spnId: Option<string>): Effects<KeyCredential>
  {
    var call := AddKeyRequest(api, baseUrl, cert, spnId);
    match api.postJson(call)
    case Err(e) => Effects([HttpRequest(call)], Err(e))
    case Ok(resp) =>
      Effects([HttpRequest(call)],
        match resp.result
        case None => Err(HttpClientError("Response from '" + call.url + "' is null", Some(resp.statusCode)))
        case Some(created) => Ok(created))
  }

  /** What an entity call does: its effects, how it settles, and the cached id afterwards. */
  datatype EntityStep<T> = EntityStep(events: seq<Event>, result: Result<T>, cachedId: Option<string>)

  /** `addClientAssertionCertificate(certificate)`: without a (non-empty) cached id, the id is read
      first with `get({ id: '' })`; an entity without `id` signs for `undefined`. */
  function AddEffects(client: Result<string>, api: GraphApi, baseUrl: string, cached: Option<string>, cert: KeyPair)
    : EntityStep<KeyCredential>
  {
    match client
    case Err(e) => EntityStep([], Err(e), cached)
    case Ok(_) =>
      if cached.Some? && cached.value != "" then
        var post := PostKeyEffects(api, baseUrl, cert, cached);
        EntityStep(post.events, post.result, cached)
      else
        var lookup := GetEffects(client, api, baseUrl, SelectKeys(["id"]));
        match lookup.result
        case Err(e) => EntityStep(lookup.events, Err(e), cached)
        case Ok(entity) =>
          var spnId := if "id" in entity then Some(entity["id"]) else None;
          var post := PostKeyEffects(api, baseUrl, cert, spnId);
          EntityStep(lookup.events + post.events, post.result, CachedAfter(cached, lookup.result))
  }

  // ---------------------------------------------------------------------------------------------
  // Properties

  /** The client asks for exactly the Graph scope once, and holds the token exactly when one was
      granted; a null result is an `AuthError`, a rejection passes through. */
  lemma ClientContract(config: AuthConfig, outcome: TokenOutcome)
    ensures var c := ClientEffects(config, outcome);
            && c.events == [TokenRequested(config, ["https://graph.microsoft.com/.default"])]
            && (c.result.Ok? <==> outcome.Acquired?)
            && (outcome.Acquired? ==> c.result.value == outcome.result.accessToken)
            && (outcome.NullResult? ==> c.result == Err(AuthError(NullAuthResult)))
            && (outcome.Rejected? ==> c.result == Err(outcome.error))
  {
    assert GraphScope == "https://graph.microsoft.com/.default";
  }

  /** With an object `$select` the address is the base, `?$select=`, then the encoded keys
      separated by ','; splitting that list on ',' gives back the encoded keys, since no encoded
      key holds a ','. Without one the address is the base. */
  lemma RequestUrlContract(baseUrl: string, select: Select)
    ensures select.NoSelect? ==> RequestUrl(baseUrl, select) == baseUrl
    ensures select.SelectKeys? ==>
              var url := RequestUrl(baseUrl, select);
              var prefix := baseUrl + "?$select=";
              && |url| >= |prefix| && url[..|prefix|] == prefix
              && (|select.keys| >= 1 ==> Split(url[|prefix|..], ',') == EncodedKeys(select.keys))
  {
    if select.SelectKeys? {
      var keys := EncodedKeys(select.keys);
      var prefix := baseUrl + "?$select=";
      var url := RequestUrl(baseUrl, select);
      assert url == prefix + Join(keys, ",");
      assert url[|prefix|..] == Join(keys, ",");
      if |select.keys| >= 1 {
        forall i | 0 <= i < |keys|
          ensures ',' !in keys[i]
        {
          NoCommaEncoded(select.keys[i]);
        }
        SplitJoin(keys, ',');
      }
    }
  }

  /** An encoded value holds no ','. */
  lemma NoCommaEncoded(s: string)
    ensures ',' !in EncodeUriComponent(s)
  {
    var e := EncodeUriComponent(s);
    forall k | 0 <= k < |e|
      ensures e[k] != ','
    {
      assert IsUriUnreserved(e[k]) || e[k] == '%';
    }
  }

  /** A read sends at most one GET, of the computed address, and none when the client could not
      authenticate; it yields the payload unchanged, or an error naming the address when the
      payload is null; the id is cached exactly when the payload has one. */
  lemma GetContract(client: Result<string>, api: GraphApi, baseUrl: string, select: Select, cached: Option<string>)
    ensures var get := GetEffects(client, api, baseUrl, select);
            var url := RequestUrl(baseUrl, select);
            && (client.Err? ==> get.events == [] && get.result == Err(client.error))
            && (client.Ok? ==> get.events == [HttpRequest(GetJson(url))])
            && (client.Ok? && api.getJson(url).Ok? ==>
                  var resp := api.getJson(url).value;
                  && (get.result.Ok? <==> resp.result.Some?)
                  && (resp.result.Some? ==> get.result.value == resp.result.value)
                  && (resp.result.None? ==> get.result == Err(HttpClientError("Response payload from '" + url + "' is null", Some(resp.statusCode)))))
            && (get.result.Ok? && "id" in get.result.value ==> CachedAfter(cached, get.result) == Some(get.result.value["id"]))
            && (get.result.Err? || "id" !in get.result.value ==> CachedAfter(cached, get.result) == cached)
  {
  }

  /** The `addKey` request carries the certificate as an `AsymmetricX509Cert` key that verifies:
      its id is the certificate's uuid, its name the common name, its identifier the thumbprint,
      the key the base64 of the certificate text; the proof is signed for the given id and the
      AAD Graph audience; it is sent to `<base>/addKey`. */
  lemma AddKeyRequestContract(api: GraphApi, baseUrl: string, cert: KeyPair, spnId: Option<string>)
    ensures var call := AddKeyRequest(api, baseUrl, cert, spnId);
            && call.PostAddKey?
            && call.url == baseUrl + "/addKey"
            && call.keyCredential.keyId == cert.uuid
            && call.keyCredential.displayName == cert.commonName
            && call.keyCredential.customKeyIdentifier == cert.thumbprint
            && call.keyCredential.key == api.base64(cert.certificate)
            && call.keyCredential.credentialType == "AsymmetricX509Cert"
            && call.keyCredential.usage == "Verify"
            && call.keyCredential.startDateTime.None? && call.keyCredential.endDateTime.None?
            && call.proof == api.sign(cert, spnId, AadGraphAudience)
  {
  }

  predicate IsGet(e: Event) { e.HttpRequest? && e.call.GetJson? }

  /** With a non-empty cached id the certificate is added with one POST signed for that id and no
      read; without one, the id is read first, and the POST is signed for the id read (or
      `undefined`); a null answer to the POST is an error. */
  lemma AddContract(client: Result<string>, api: GraphApi, baseUrl: string, cached: Option<string>, cert: KeyPair)
    requires client.Ok?
    ensures var add := AddEffects(client, api, baseUrl, cached, cert);
            && (cached.Some? && cached.value != "" ==>
                  && add.events == [HttpRequest(AddKeyRequest(api, baseUrl, cert, cached))]
                  && add.cachedId == cached)
            && (!(cached.Some? && cached.value != "") ==>
                  var lookup := GetEffects(client, api, baseUrl, SelectKeys(["id"]));
                  && add.events[0] == HttpRequest(GetJson(baseUrl + "?$select=id"))
                  && (lookup.result.Err? ==> add.events == lookup.events && add.result == Err(lookup.result.error))
                  && (lookup.result.Ok? ==>
                        var spnId := if "id" in lookup.result.value then Some(lookup.result.value["id"]) else None;
                        add.events == [HttpRequest(GetJson(baseUrl + "?$select=id")), HttpRequest(AddKeyRequest(api, baseUrl, cert, spnId))]))
            && var post := api.postJson(add.events[|add.events| - 1].call);
               (add.events[|add.events| - 1].call.PostAddKey? && post.Ok? && post.value.result.None? ==> add.result.Err?)
  {
    assert EncodeUriComponent("id") == "id" by {
      EncodeUnreserved("id");
    }
    assert EncodedKeys(["id"]) == ["id"];
    assert Join(["id"], ",") == "id";
    assert RequestUrl(baseUrl, SelectKeys(["id"])) == baseUrl + "?$select=id";
  }

  /** Once a read has cached a non-empty id, adding a certificate sends no further read and signs
      the proof for that id. */
  lemma CachedIdSkipsRead(client: Result<string>, api: GraphApi, baseUrl: string, select: Select, cached: Option<string>, cert: KeyPair)
    requires client.Ok?
    requires var get := GetEffects(client, api, baseUrl, select);
             get.result.Ok? && "id" in get.result.value && get.result.value["id"] != ""
    ensures var get := GetEffects(client, api, baseUrl, select);
            var add := AddEffects(client, api, baseUrl, CachedAfter(cached, get.result), cert);
            && Project(add.events, IsGet) == []
            && add.events == [HttpRequest(AddKeyRequest(api, baseUrl, cert, Some(get.result.value["id"])))]
  {
    var get := GetEffects(client, api, baseUrl, select);
    var add := AddEffects(client, api, baseUrl, CachedAfter(cached, get.result), cert);
    ProjectNone(add.events, IsGet);
  }

  // ---------------------------------------------------------------------------------------------
  // Disposal

  /** `dispose()` as written: `try { (await promise).dispose() } finally { }` has no `catch`, so a
      client whose token request failed makes `dispose()` reject with that error. */
  function DisposeAsWritten(client: Result<string>): Effects<()>
  {
    match client
    case Ok(_) => Effects([Disposed(GraphHttpClient)], Ok(()))
    case Err(e) => Effects([], Err(e))
  }

  /** A null token result makes the written `dispose()` reject. */
  lemma DisposeAsWrittenRejects()
    ensures DisposeAsWritten(ClientEffects(AuthConfig("", "", "", None, None, None, SystemOptions(FreshClient, true)), NullResult).result)
            == Effects([], Err(AuthError(NullAuthResult)))
  {
  }

  /** `dispose()` as its comment intends ("ignore errors"): the client is disposed when there is
      one, and disposal never rejects. */
  function DisposeEffects(client: Result<string>): Effects<()>
  {
    Effects(if client.Ok? then [Disposed(GraphHttpClient)] else [], Ok(()))
  }

  /** Disposal never fails, disposes exactly the client that exists, and agrees with the written
      form whenever the client was built. */
  lemma DisposeContract(client: Result<string>)
    ensures DisposeEffects(client).result.Ok?
    ensures DisposeEffects(client).events == (if client.Ok? then [Disposed(GraphHttpClient)] else [])
    ensures client.Ok? ==> DisposeEffects(client) == DisposeAsWritten(client)
    ensures client.Err? ==> DisposeAsWritten(client).result.Err?
  {
  }

  // ---------------------------------------------------------------------------------------------
  // The objects

  /** The entity object `servicePrincipalEntity(baseUrl)` returns; its id starts `undefined`. */
  class ServicePrincipalEntity {
    const baseUrl: string
    const client: Result<string>
    var cachedId: Option<string>

    constructor (baseUrl: string, client: Result<string>)
      ensures this.baseUrl == baseUrl && this.client == client && cachedId.None?
    {
      this.baseUrl := baseUrl;
      this.client := client;
      cachedId := None;
    }

    /** `get($select)`. */
    method Get(host: Host, api: GraphApi, select: Select) returns (r: Result<JsonObject>)
      modifies this, host
      ensures var spec := GetEffects(client, api, baseUrl, select);
              host.trace == old(host.trace) + spec.events && r == spec.result && host.state == old(host.state)
      ensures cachedId == CachedAfter(old(cachedId), r)
    {
      if client.Err? {
        return Err(client.error);
      }
      var url := RequestUrl(baseUrl, select);
      host.Emit(HttpRequest(GetJson(url)));
      var answer := api.getJson(url);
      if answer.Err? {
        return Err(answer.error);
      }
      var resp := answer.value;
      if resp.result.None? {
        return Err(HttpClientError("Response payload from '" + url + "' is null", Some(resp.statusCode)));
      }
      var entity := resp.result.value;
      if "id" in entity {
        cachedId := Some(entity["id"]);
      }
      r := Ok(entity);
    }

    /** `addClientAssertionCertificate(certificate)`. */
    method AddClientAssertionCertificate(host: Host, api: GraphApi, cert: KeyPair) returns (r: Result<KeyCredential>)
      modifies this, host
      ensures var spec := AddEffects(client, api, baseUrl, old(cachedId), cert);
              host.trace == old(host.trace) + spec.events && r == spec.result && cachedId == spec.cachedId
      ensures host.state == old(host.state)
    {
      if client.Err? {
        return Err(client.error);
      }
      ghost var t0 := host.trace;
      var spnId := cachedId;
      if !(spnId.Some? && spnId.value != "") {
        var entity := Get(host, api, SelectKeys(["id"]));
        if entity.Err? {
          return Err(entity.error);
        }
        spnId := if "id" in entity.value then Some(entity.value["id"]) else None;
      }
      ghost var t1 := host.trace;
      var call := AddKeyRequest(api, baseUrl, cert, spnId);
      host.Emit(HttpRequest(call));
      AppendStretches(t0, t1[|t0|..], [HttpRequest(call)]);
      var answer := api.postJson(call);
      if answer.Err? {
        return Err(answer.error);
      }
      var resp := answer.value;
      if resp.result.None? {
        return Err(HttpClientError("Response from '" + call.url + "' is null", Some(resp.statusCode)));
      }
      r := Ok(resp.result.value);
    }
  }

  /** `new GhaMsGraphClient(msalApp)`: the token is requested at construction. */
  class GraphClient {
    const client: Result<string>

    constructor (client: Result<string>)
      ensures this.client == client
    {
      this.client := client;
    }

    /** `servicePrincipals.byId(id)`. */
    method ById(id: string) returns (e: ServicePrincipalEntity)
      ensures fresh(e) && e.baseUrl == ByIdUrl(id) && e.client == client && e.cachedId.None?
    {
      e := new ServicePrincipalEntity(ByIdUrl(id), client);
    }

    /** `servicePrincipals.byAppId(appId)`. */
    method ByAppId(appId: string) returns (e: ServicePrincipalEntity)
      ensures fresh(e) && e.baseUrl == ByAppIdUrl(appId) && e.client == client && e.cachedId.None?
    {
      e := new ServicePrincipalEntity(ByAppIdUrl(appId), client);
    }

    /** `dispose()` as written: rejects with the token request's error when there is no client. */
    method DisposeUncaught(host: Host) returns (r: Result<()>)
      modifies host
      ensures host.trace == old(host.trace) + DisposeAsWritten(client).events && r == DisposeAsWritten(client).result
      ensures host.state == old(host.state)
    {
      if client.Err? {
        return Err(client.error);
      }
      host.Emit(Disposed(GraphHttpClient));
      r := Ok(());
    }

    /** `dispose()` as intended, with errors ignored. */
    method Dispose(host: Host) returns (r: Result<()>)
      modifies host
      ensures host.trace == old(host.trace) + DisposeEffects(client).events && r == Ok(())
      ensures host.state == old(host.state)
    {
      if client.Ok? {
        host.Emit(Disposed(GraphHttpClient));
      }
      r := Ok(());
    }
  }

  /** Building the client: the token request of `createMsGraphHttpClient`. */
  method Connect(host: Host, ext: Externals, config: AuthConfig) returns (g: GraphClient)
    modifies host
    ensures fresh(g)
    ensures var spec := ClientEffects(config, ext.tokens(config, [GraphScope]));
            host.trace == old(host.trace) + spec.events && g.client == spec.result && host.state == old(host.state)
  {
    var outcome := host.AcquireToken(ext, config, [GraphScope]);
    var client: Result<string>;
    match outcome {
      case Acquired(result) => client := Ok(result.accessToken);
      case NullResult => client := Err(AuthError(NullAuthResult));
      case Rejected(e) => client := Err(e);
    }
    g := new GraphClient(client);
  }
}
