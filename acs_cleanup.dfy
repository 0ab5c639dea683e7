/** The post step of the `ms-acs-temp-client-secret-auth` action (`cleanup.js`): remove the
    client secret the main step added, using the client id, Graph token and key id the main step
    left in the run-state. */
module AcsCleanup {
  import opened Wrappers
  import opened Graph
  import opened ActionsCore
  import opened AcsClientSecret

  /** The one HTTP client of the post step. */
  const PostHttpClient := "http client"

  /** The status `removePassword` must answer with. */
  const NoContent := 204

  /** The `removePassword` request built from the run-state. */
  function RemovalRequest(state: map<string, string>): HttpCall
  {
    PostRemovePassword(RemovePasswordUrl(Recorded(state, ClientIdState)), Recorded(state, ClientSecretKeyIdState),
      "Bearer " + Recorded(state, GraphTokenState))
  }

  /** `main()` of the post step: the request, `assert(statusCode === 204)`, and the client disposed
      in `finally`. `answer` is what `postJson` resolves to (the status), or the rejection. */
  function PostEffects(answer: HttpCall -> Result<int>, state: map<string, string>): Effects<()>
  {
    var call := RemovalRequest(state);
    var events := [HttpRequest(call), Disposed(PostHttpClient)];
    match answer(call)
    case Err(e) => Effects(events, Err(e))
    case Ok(status) => Effects(events, if status == NoContent then Ok(()) else Err(AssertionError))
  }

  /** The post step sends exactly one request, the removal of the recorded key id from the
      recorded client's service principal with the recorded Graph token, then disposes its
      client; it succeeds exactly when the answer is 204, fails with the rejection or an
      assertion error otherwise, and masks, outputs and saves nothing. */
  lemma PostContract(answer: HttpCall -> Result<int>, state: map<string, string>)
    ensures var post := PostEffects(answer, state);
            var call := post.events[0].call;
            && |post.events| == 2 && post.events[0].HttpRequest? && post.events[1] == Disposed(PostHttpClient)
            && call.PostRemovePassword?
            && call.url == ByAppIdUrl(Recorded(state, ClientIdState)) + "/removePassword"
            && call.keyId == Recorded(state, ClientSecretKeyIdState)
            && call.authorization == "Bearer " + Recorded(state, GraphTokenState)
            && (post.result.Ok? <==> answer(call) == Ok(NoContent))
            && (answer(call).Err? ==> post.result == Err(answer(call).error))
            && (answer(call).Ok? && answer(call).value != NoContent ==> post.result == Err(AssertionError))
            && Masked(post.events) == {}
            && forall i :: 0 <= i < |post.events| ==> !post.events[i].Output? && !post.events[i].StateSaved?
  {
    var post := PostEffects(answer, state);
    MaskedConcat([post.events[0]], [post.events[1]]);
    MaskedOne(post.events[0]);
    MaskedOne(post.events[1]);
    assert [post.events[0]] + [post.events[1]] == post.events;
  }

  /** The run-state the main step leaves: the client id and Graph token once the inputs were
      read, and the key id once the secret was created. */
  lemma MainRecords(w: AcsWorld)
    ensures var read := InputsEffects(w.inputs);
            var main := MainEffects(w);
            && (read.result.Err? ==> main.state == w.state)
            && (read.result.Ok? ==>
                  var v := read.result.value;
                  var saved := SavedState(w.state, v);
                  var secret := SecretEffects(w.svc, v.graphToken, v.clientId, saved);
                  if MetadataEffects(w.svc, v.instance, v.tenantId).result.Ok? && secret.result.Ok?
                  then main.state == saved[ClientSecretKeyIdState := secret.result.value.keyId]
                  else main.state == saved)
  {
    var read := InputsEffects(w.inputs);
    if read.result.Ok? {
      var v := read.result.value;
      var saved := SavedState(w.state, v);
      MainAfterRead(w, v);
      var metadata := MetadataEffects(w.svc, v.instance, v.tenantId);
      if metadata.result.Ok? {
        TryAfterMetadata(w.svc, v, saved, metadata.result.value);
      } else {
        TryStops(w.svc, v, saved);
      }
    }
  }

  /** Once the main step created the secret, its post step removes exactly that secret, from the
      service principal of the same client id, authorised with the same Graph token. */
  lemma PostRemovesCreatedSecret(w: AcsWorld, v: AcsInputs)
    requires InputsEffects(w.inputs).result == Ok(v)
    requires MetadataEffects(w.svc, v.instance, v.tenantId).result.Ok?
    requires SecretEffects(w.svc, v.graphToken, v.clientId, SavedState(w.state, v)).result.Ok?
    ensures var info := SecretEffects(w.svc, v.graphToken, v.clientId, SavedState(w.state, v)).result.value;
            var added := SecretEffects(w.svc, v.graphToken, v.clientId, SavedState(w.state, v)).events[2].call;
            var removal := RemovalRequest(MainEffects(w).state);
            && added.PostAddPassword? && removal.PostRemovePassword?
            && removal == PostRemovePassword(RemovePasswordUrl(v.clientId), info.keyId, "Bearer " + v.graphToken)
            && added.url == ByAppIdUrl(v.clientId) + "/addPassword"
            && removal.url == ByAppIdUrl(v.clientId) + "/removePassword"
            && removal.authorization == added.authorization
  {
    MainRecords(w);
  }

  /** When the main step stopped before a secret was created, and no key id was recorded
      before it, the post step still sends a removal, for the empty key id. */
  lemma PostAfterNoSecret(w: AcsWorld, v: AcsInputs)
    requires InputsEffects(w.inputs).result == Ok(v)
    requires ClientSecretKeyIdState !in w.state
    requires !MetadataEffects(w.svc, v.instance, v.tenantId).result.Ok?
             || !SecretEffects(w.svc, v.graphToken, v.clientId, SavedState(w.state, v)).result.Ok?
    ensures MainEffects(w).result.Err?
    ensures RemovalRequest(MainEffects(w).state) == PostRemovePassword(RemovePasswordUrl(v.clientId), "", "Bearer " + v.graphToken)
  {
    MainRecords(w);
    var saved := SavedState(w.state, v);
    MainAfterRead(w, v);
    var metadata := MetadataEffects(w.svc, v.instance, v.tenantId);
    if metadata.result.Ok? {
      TryAfterMetadata(w.svc, v, saved, metadata.result.value);
    } else {
      TryStops(w.svc, v, saved);
    }
  }

  /** The post step on the runner. */
  method Post(host: Host, answer: HttpCall -> Result<int>) returns (r: Result<()>)
    modifies host
    ensures var spec := PostEffects(answer, old(host.state));
            host.trace == old(host.trace) + spec.events && r == spec.result && host.state == old(host.state)
  {
    var clientId := host.GetState(ClientIdState);
    var accessToken := host.GetState(GraphTokenState);
    var keyId := host.GetState(ClientSecretKeyIdState);
    var call := PostRemovePassword(RemovePasswordUrl(clientId), keyId, "Bearer " + accessToken);
    host.Emit(HttpRequest(call));
    var status := answer(call);
    if status.Err? {
      r := Err(status.error);
    } else if status.value != NoContent {
      r := Err(AssertionError);
    } else {
      r := Ok(());
    }
    host.Emit(Disposed(PostHttpClient));
  }
}
