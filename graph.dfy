/** The Microsoft Graph service principal resource the credential flows read and write:
    its entities, its addresses and a service holding the entities by application id. */
module Graph {
  import opened Wrappers
  import opened HttpHeaders

  /** One entry of a service principal's `keyCredentials` list. */
  datatype KeyCredential = KeyCredential(
    key: string,
    keyId: string,
    customKeyIdentifier: string,
    startDateTime: Option<string>,
    endDateTime: Option<string>,
    displayName: string,
    credentialType: string,
    usage: string)

  /** A service principal as `$select=id,appId,appDisplayName,keyCredentials` returns it;
      `keyCredentials` is `None` when the property is not an array. */
  datatype SpnEntity = SpnEntity(
    id: string,
    appId: string,
    appDisplayName: string,
    keyCredentials: Option<seq<KeyCredential>>)

  /** The `TypedResponse` of `getJson`/`patchJson`/`postJson`: a `null` result is `None`. */
  datatype TypedResponse<T> = TypedResponse(result: Option<T>, headers: Headers, statusCode: int)

  const GraphV1 := "https://graph.microsoft.com/v1.0"

  /** `servicePrincipals(appId='<appId>')` under Graph v1.0. */
  function ByAppIdUrl(appId: string): string
  {
    GraphV1 + "/servicePrincipals(appId='" + appId + "')"
  }

  /** `servicePrincipals('<id>')` under Graph v1.0. */
  function ByIdUrl(id: string): string
  {
    GraphV1 + "/servicePrincipals('" + id + "')"
  }

  /** What the service keeps of a patched list: each entry as the service stores it. */
  function StoredAs(normalize: KeyCredential -> KeyCredential, list: seq<KeyCredential>): (r: seq<KeyCredential>)
    ensures |r| == |list|
    ensures forall i :: 0 <= i < |list| ==> r[i] == normalize(list[i])
  {
    seq(|list|, i requires 0 <= i < |list| => normalize(list[i]))
  }

  /** What the service holds under an application id. */
  function Held(principals: map<string, SpnEntity>, appId: string): Option<SpnEntity>
  {
    if appId in principals then Some(principals[appId]) else None
  }

  /** The remote side: the service principals of a tenant, keyed by application id. A read of an
      absent one yields a `null` entity with status 404, which the HTTP client does not raise.
      The service may refuse a request (an error status other than 404, or a failed connection),
      which the HTTP client raises: `readRejects` says whether it refuses a read of an
      application id while it holds the given entity there, `patchRejects` whether it refuses a
      write of the given list. A refused write changes nothing. A patched list is stored entry by
      entry through `normalize` (the service may rewrite an entry, for instance re-encode its
      identifier). The service either echoes the stored `keyCredentials` list or answers 204
      with no body. */
  class GraphService {
    var principals: map<string, SpnEntity>
    const patchEchoesKeyCredentials: bool
    const responseHeaders: Headers
    const normalize: KeyCredential -> KeyCredential
    const readRejects: (string, Option<SpnEntity>) -> Option<Error>
    const patchRejects: (string, seq<KeyCredential>) -> Option<Error>

    constructor (principals: map<string, SpnEntity>, patchEchoesKeyCredentials: bool, responseHeaders: Headers,
                 normalize: KeyCredential -> KeyCredential, readRejects: (string, Option<SpnEntity>) -> Option<Error>,
                 patchRejects: (string, seq<KeyCredential>) -> Option<Error>)
      ensures this.principals == principals
      ensures this.patchEchoesKeyCredentials == patchEchoesKeyCredentials
      ensures this.responseHeaders == responseHeaders
      ensures this.normalize == normalize
      ensures this.readRejects == readRejects && this.patchRejects == patchRejects
    {
      this.principals := principals;
      this.patchEchoesKeyCredentials := patchEchoesKeyCredentials;
      this.responseHeaders := responseHeaders;
      this.normalize := normalize;
      this.readRejects := readRejects;
      this.patchRejects := patchRejects;
    }

    /** GET `servicePrincipals(appId='<appId>')`. */
    method GetByAppId(appId: string) returns (resp: Result<TypedResponse<SpnEntity>>)
      ensures var refusal := readRejects(appId, Held(principals, appId));
              && (refusal.Some? ==> resp == Err(refusal.value))
              && (refusal.None? && appId in principals ==> resp == Ok(TypedResponse(Some(principals[appId]), responseHeaders, 200)))
              && (refusal.None? && appId !in principals ==> resp == Ok(TypedResponse(None, responseHeaders, 404)))
    {
      var refusal := readRejects(appId, Held(principals, appId));
      if refusal.Some? {
        return Err(refusal.value);
      }
      if appId in principals {
        resp := Ok(TypedResponse(Some(principals[appId]), responseHeaders, 200));
      } else {
        resp := Ok(TypedResponse(None, responseHeaders, 404));
      }
    }

    /** PATCH `servicePrincipals(appId='<appId>')` with `{ keyCredentials }`: unless refused, the
        stored list is replaced unconditionally (no `If-Match`). The result, when echoed, is the
        entity's new `keyCredentials` property. */
    method PatchKeyCredentials(appId: string, keyCredentials: seq<KeyCredential>)
      returns (resp: Result<TypedResponse<Option<seq<KeyCredential>>>>)
      modifies this
      ensures var refusal := patchRejects(appId, keyCredentials);
              && (refusal.Some? ==> resp == Err(refusal.value) && principals == old(principals))
              && (refusal.None? ==> resp.Ok? && resp.value.headers == responseHeaders)
      ensures resp.Ok? && appId in old(principals) ==>
        principals == old(principals)[appId := old(principals)[appId].(keyCredentials := Some(StoredAs(normalize, keyCredentials)))]
      ensures resp.Ok? && appId !in old(principals) ==> principals == old(principals)
      ensures resp.Ok? ==> (resp.value.result.Some? <==> appId in old(principals) && patchEchoesKeyCredentials)
      ensures resp.Ok? && resp.value.result.Some? ==> resp.value.result.value == Some(StoredAs(normalize, keyCredentials))
    {
      var refusal := patchRejects(appId, keyCredentials);
      if refusal.Some? {
        return Err(refusal.value);
      }
      var stored := StoredAs(normalize, keyCredentials);
      if appId in principals {
        principals := principals[appId := principals[appId].(keyCredentials := Some(stored))];
        if patchEchoesKeyCredentials {
          resp := Ok(TypedResponse(Some(Some(stored)), responseHeaders, 200));
        } else {
          resp := Ok(TypedResponse(None, responseHeaders, 204));
        }
      } else {
        resp := Ok(TypedResponse(None, responseHeaders, 404));
      }
    }
  }
}
