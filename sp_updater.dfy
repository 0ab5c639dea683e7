/** `GhaServicePrincipalUpdater` of the `ms-idp-workflow-run-auth` action: reads and rewrites the
    `keyCredentials` list of the Microsoft Graph service principal of one application, with a
    Graph token it requests when it is constructed. */
module SpUpdater {
  import opened Wrappers
  import opened Msal
  import opened HttpHeaders
  import opened Graph
  import opened ActionsCore
  import opened MsalProvider
  import opened CertProvider

  const GraphResource := "https://graph.microsoft.com"
  const SelectQuery := "?$select=id,appId,appDisplayName,keyCredentials"
  /** The name under which the updater's own HTTP client appears when it is disposed. */
  const UpdaterClient := "service principal updater"

  const RetrievingLine := "Retrieving all keyCredentials registered on Microsoft Graph service principal entity."
  const NullEntity := "Service Principal result entity is null"
  const RemovingLine := "Removing certificate from Microsoft Graph service principal entity"
  const UpdatingLine := "Updating Microsoft Graph service principal entity with modified keyCredentials list"
  const AddingLine := "Adding certificate to Microsoft Graph service principal entity"
  const AddingToListLine := "Adding certificate to list of registered keyCredentials"
  const RawOfUndefined := "Cannot read properties of undefined (reading 'raw')"
  const NotAdded := "Failed to update service principal with new key credential"
  const AddedLine := "Certificate added to service principal entity. keyId: "
  const CertificateType := "AsymmetricX509Cert"
  const VerifyUsage := "Verify"

  function RemovingKeyLine(keyId: string): string
  {
    "Removing keyCredential with keyId '" + keyId + "' from registered keyCredentials."
  }

  /** The address the updater reads from. */
  function SelectUrl(appId: string): string
  {
    ByAppIdUrl(appId) + SelectQuery
  }

  /** The Graph service at one moment: its principals and its fixed behaviour. */
  datatype Remote = Remote(
    principals: map<string, SpnEntity>,
    echoes: bool,
    headers: Headers,
    normalize: KeyCredential -> KeyCredential,
    readRejects: (string, Option<SpnEntity>) -> Option<Error>,
    patchRejects: (string, seq<KeyCredential>) -> Option<Error>)

  function Snapshot(graph: GraphService): Remote
    reads graph
  {
    Remote(graph.principals, graph.patchEchoesKeyCredentials, graph.responseHeaders, graph.normalize,
           graph.readRejects, graph.patchRejects)
  }

  /** What one updater call does: its effects, how it settles, and the principals afterwards. */
  datatype GraphStep<T> = GraphStep(events: seq<Event>, result: Result<T>, principals: map<string, SpnEntity>)

  /** A principal's list, with a property that is not an array read as empty. */
  function ListOf(entity: SpnEntity): seq<KeyCredential>
  {
    entity.keyCredentials.GetOr([])
  }

  /** The principals with one principal's list replaced. */
  function WithList(principals: map<string, SpnEntity>, appId: string, list: seq<KeyCredential>): map<string, SpnEntity>
    requires appId in principals
  {
    principals[appId := principals[appId].(keyCredentials := Some(list))]
  }

  predicate IsPatch(e: Event) { e.HttpRequest? && e.call.PatchKeyCredentials? }

  /** The bearer token of the updater's client, or why it could not be obtained. */
  function BearerOf(token: Result<AuthResult>): (client: Result<string>)
    ensures client.Ok? <==> token.Ok?
    ensures token.Ok? ==> client.value == token.value.accessToken
    ensures token.Err? ==> client.error == token.error
  {
    match token
    case Ok(result) => Ok(result.accessToken)
    case Err(e) => Err(e)
  }

  /** The Graph token request the updater makes when it is constructed. */
  function ConnectEffects(variant: Variant, msalApp: AccessTokenProvider, ext: Externals, debug: bool): Effects<AuthResult>
  {
    AcquireEffects(variant, msalApp, GraphResource, ext.tokens(msalApp.config, [GraphScope]), debug, ext.base64UrlDecode)
  }

  /** Why a read of `appId` fails, if it does: the service refuses it, or it holds no principal
      there and answers 404 with a null entity. */
  function ReadRefusal(appId: string, remote: Remote): (r: Option<Error>)
    ensures r.None? <==> appId in remote.principals && remote.readRejects(appId, Held(remote.principals, appId)).None?
  {
    var refusal := remote.readRejects(appId, Held(remote.principals, appId));
    if refusal.Some? then refusal
    else if appId in remote.principals then None
    else Some(HttpClientError(NullEntity, Some(404)))
  }

  /** `getKeyCredentials()`: a null entity (the 404 of an absent principal) is an
      `HttpClientError` carrying the status code; a refused request is the client's error. */
  function ReadEffects(client: Result<string>, appId: string, remote: Remote): (e: Effects<TypedResponse<SpnEntity>>)
    ensures e.result.Ok? ==> appId in remote.principals
  {
    match client
    case Err(e) => Effects([Log(Debug, RetrievingLine)], Err(e))
    case Ok(_) =>
      Effects([Log(Debug, RetrievingLine), HttpRequest(GetJson(SelectUrl(appId)))],
        match ReadRefusal(appId, remote)
        case Some(e) => Err(e)
        case None => Ok(TypedResponse(Some(remote.principals[appId]), remote.headers, 200)))
  }

  /** `findIndex(c => c.keyId === keyId)`. */
  function FindKeyId(list: seq<KeyCredential>, keyId: string): (r: Option<nat>)
    ensures r.Some? ==> r.value < |list| && list[r.value].keyId == keyId
    ensures r.Some? ==> forall j :: 0 <= j < r.value ==> list[j].keyId != keyId
    ensures r.None? <==> forall j :: 0 <= j < |list| ==> list[j].keyId != keyId
  {
    if list == [] then None
    else if list[0].keyId == keyId then Some(0)
    else match FindKeyId(list[1..], keyId)
      case None => None
      case Some(i) => Some(i + 1)
  }

  /** `splice(i, 1)`. */
  function Splice(list: seq<KeyCredential>, i: nat): seq<KeyCredential>
    requires i < |list|
  {
    list[..i] + list[i + 1..]
  }

  /** `removeKeyCredentialByKeyId(keyId)`: read the list, drop the first entry with that key id
      and write the rest back; nothing is written when no entry has it. */
  function RemoveEffects(client: Result<string>, appId: string, keyId: string, remote: Remote): GraphStep<()>
  {
    var head := [Log(Info, RemovingLine)];
    match client
    case Err(e) => GraphStep(head, Err(e), remote.principals)
    case Ok(_) =>
      var read := ReadEffects(client, appId, remote);
      match read.result
      case Err(e) => GraphStep(head + read.events, Err(e), remote.principals)
      case Ok(resp) =>
        var list := ListOf(remote.principals[appId]);
        var scanned := head + read.events + [Log(Debug, RemovingKeyLine(keyId))];
        match FindKeyId(list, keyId)
        case None => GraphStep(scanned, Ok(()), remote.principals)
        case Some(i) =>
          var kept := Splice(list, i);
          var written := scanned + [Log(Debug, UpdatingLine), HttpRequest(PatchKeyCredentials(ByAppIdUrl(appId), kept))];
          match remote.patchRejects(appId, kept)
          case Some(e) => GraphStep(written, Err(e), remote.principals)
          case None => GraphStep(written, Ok(()), WithList(remote.principals, appId, StoredAs(remote.normalize, kept)))
  }

  /** The entry an addition appends for a key pair with a parsed certificate. */
  function EntryOf(kp: KeyPair): KeyCredential
    requires kp.x509.Some?
  {
    var x509 := kp.x509.value;
    KeyCredential(x509.rawBase64, kp.uuid, kp.thumbprint, Some(x509.validFrom), Some(x509.validTo),
                  x509.subject, CertificateType, VerifyUsage)
  }

  /** The entry `addCertificateKeyCredential` pushes, read from the key pair's parsed
      certificate; reading it from a key pair without one is a `TypeError`. */
  function NewKeyCredential(kp: KeyPair): (r: Result<KeyCredential>)
    ensures r.Err? <==> kp.x509.None?
    ensures r.Err? ==> r.error == TypeError(RawOfUndefined)
  {
    match kp.x509
    case None => Err(TypeError(RawOfUndefined))
    case Some(_) => Ok(EntryOf(kp))
  }

  /** `find(k => k.customKeyIdentifier === thumbprint)`: the first entry carrying the thumbprint. */
  function FindThumbprint(list: seq<KeyCredential>, thumbprint: string): (r: Option<KeyCredential>)
    ensures r.Some? ==> r.value in list && r.value.customKeyIdentifier == thumbprint
    ensures r.Some? ==> exists i :: 0 <= i < |list| && list[i] == r.value
                                    && forall j :: 0 <= j < i ==> list[j].customKeyIdentifier != thumbprint
    ensures r.None? <==> forall j :: 0 <= j < |list| ==> list[j].customKeyIdentifier != thumbprint
  {
    if list == [] then None
    else if list[0].customKeyIdentifier == thumbprint then Some(list[0])
    else
      var r := FindThumbprint(list[1..], thumbprint);
      if r.Some? then
        var i :| 0 <= i < |list[1..]| && list[1..][i] == r.value
                 && forall j :: 0 <= j < i ==> list[1..][j].customKeyIdentifier != thumbprint;
        assert list[i + 1] == r.value;
        assert forall j :: 0 <= j < i + 1 ==> list[j].customKeyIdentifier != thumbprint by {
          forall j | 0 <= j < i + 1 ensures list[j].customKeyIdentifier != thumbprint {
            if j > 0 { assert list[j] == list[1..][j - 1]; }
          }
        }
        r
      else r
  }

  /** The service stores a patched entry under the same thumbprint and key id it was sent. */
  ghost predicate KeepsIdentifiers(normalize: KeyCredential -> KeyCredential)
  {
    forall k :: normalize(k).customKeyIdentifier == k.customKeyIdentifier && normalize(k).keyId == k.keyId
  }

  /** No entry of the list carries the thumbprint. */
  predicate ThumbprintFree(list: seq<KeyCredential>, thumbprint: string)
  {
    forall j :: 0 <= j < |list| ==> list[j].customKeyIdentifier != thumbprint
  }

  /** When the stored list keeps the identifiers and only the appended entry carries the
      thumbprint, the search finds exactly the stored form of that entry. */
  lemma FindsAppended(normalize: KeyCredential -> KeyCredential, list: seq<KeyCredential>, entry: KeyCredential)
    requires KeepsIdentifiers(normalize)
    requires ThumbprintFree(list, entry.customKeyIdentifier)
    ensures var stored := StoredAs(normalize, list + [entry]);
            && FindThumbprint(stored, entry.customKeyIdentifier) == Some(stored[|list|])
            && stored[|list|].keyId == entry.keyId
  {
    var stored := StoredAs(normalize, list + [entry]);
    var t := entry.customKeyIdentifier;
    assert stored[|list|] == normalize((list + [entry])[|list|]);
    assert stored[|list|].customKeyIdentifier == t;
    var r := FindThumbprint(stored, t);
    var i :| 0 <= i < |stored| && stored[i] == r.value && forall j :: 0 <= j < i ==> stored[j].customKeyIdentifier != t;
  }

  /** The part of `addCertificateKeyCredential` from the write on: the new list is patched in,
      the stored list is taken from the echo or, without one, from a fresh read, and the entry
      carrying the thumbprint is looked up in it. */
  function ConfirmEffects(client: Result<string>, appId: string, sent: seq<KeyCredential>, thumbprint: string, remote: Remote): GraphStep<KeyCredential>
    requires appId in remote.principals
  {
    var patched := [Log(Debug, UpdatingLine), HttpRequest(PatchKeyCredentials(ByAppIdUrl(appId), sent))];
    match remote.patchRejects(appId, sent)
    case Some(e) => GraphStep(patched, Err(e), remote.principals)
    case None =>
      var stored := StoredAs(remote.normalize, sent);
      var after := WithList(remote.principals, appId, stored);
      var reread := ReadEffects(client, appId, remote.(principals := after));
      if !remote.echoes && reread.result.Err? then GraphStep(patched + reread.events, Err(reread.result.error), after)
      else
        var confirmed := if remote.echoes then patched else patched + reread.events;
        match FindThumbprint(stored, thumbprint)
        case None => GraphStep(confirmed, Err(PlainError(NotAdded)), after)
        case Some(k) => GraphStep(confirmed + [Log(Info, AddedLine + k.keyId)], Ok(k), after)
  }

  /** `addCertificateKeyCredential(keyPair)`. */
  function AddEffects(client: Result<string>, appId: string, kp: KeyPair, remote: Remote): GraphStep<KeyCredential>
  {
    var head := [Log(Info, AddingLine)];
    match client
    case Err(e) => GraphStep(head, Err(e), remote.principals)
    case Ok(_) =>
      var read := ReadEffects(client, appId, remote);
      match read.result
      case Err(e) => GraphStep(head + read.events, Err(e), remote.principals)
      case Ok(resp) =>
        var listed := head + read.events + [Log(Debug, AddingToListLine)];
        match NewKeyCredential(kp)
        case Err(e) => GraphStep(listed, Err(e), remote.principals)
        case Ok(entry) =>
          var rest := ConfirmEffects(client, appId, ListOf(remote.principals[appId]) + [entry], kp.thumbprint, remote);
          GraphStep(listed + rest.events, rest.result, rest.principals)
  }

  /** Without a token no request is sent and nothing changes; a read that fails (an absent
      principal, the 404 `HttpClientError`, or a refused request) fails the removal and nothing
      is written. */
  lemma RemoveFailures(client: Result<string>, appId: string, keyId: string, remote: Remote)
    ensures var run := RemoveEffects(client, appId, keyId, remote);
            && (client.Err? ==> run == GraphStep([Log(Info, RemovingLine)], Err(client.error), remote.principals))
            && (client.Ok? && ReadRefusal(appId, remote).Some? ==>
                  && run.result == Err(ReadRefusal(appId, remote).value)
                  && run.principals == remote.principals
                  && Project(run.events, IsPatch) == [])
            && (client.Ok? && appId !in remote.principals && remote.readRejects(appId, None).None? ==>
                  run.result == Err(HttpClientError(NullEntity, Some(404))))
  {
    if client.Ok? && ReadRefusal(appId, remote).Some? {
      var run := RemoveEffects(client, appId, keyId, remote);
      ProjectNone(run.events, IsPatch);
    }
  }

  /** Splicing out one entry keeps every other entry, in order. */
  lemma SpliceKeeps(list: seq<KeyCredential>, i: nat)
    requires i < |list|
    ensures |Splice(list, i)| == |list| - 1
    ensures forall j :: 0 <= j < i ==> Splice(list, i)[j] == list[j]
    ensures forall j :: i < j < |list| ==> Splice(list, i)[j - 1] == list[j]
    ensures multiset(Splice(list, i)) + multiset{list[i]} == multiset(list)
  {
    assert list == list[..i] + [list[i]] + list[i + 1..];
  }

  /** Why removing `keyId` from a present principal fails, if it does: the service refuses the
      read or, when an entry carries the key id, the write. */
  function RemoveRefusal(appId: string, keyId: string, remote: Remote): Option<Error>
    requires appId in remote.principals
  {
    var list := ListOf(remote.principals[appId]);
    if ReadRefusal(appId, remote).Some? then ReadRefusal(appId, remote)
    else match FindKeyId(list, keyId)
      case None => None
      case Some(i) => remote.patchRejects(appId, Splice(list, i))
  }

  /** With a token and the principal present: a refused read fails the removal before anything
      is written. Otherwise, when no entry has the key id, nothing is written and the removal
      succeeds; when one has it, exactly one PATCH is sent, carrying the list spliced at the
      first entry with that key id, and that list (as the service stores it) becomes the
      principal's unless the service refuses the write, which fails the removal and changes
      nothing. */
  lemma RemoveContract(token: string, appId: string, keyId: string, remote: Remote)
    requires appId in remote.principals
    ensures var run := RemoveEffects(Ok(token), appId, keyId, remote);
            var list := ListOf(remote.principals[appId]);
            var found := FindKeyId(list, keyId);
            var read := remote.readRejects(appId, Some(remote.principals[appId]));
            && (read.Some? ==> run.result == Err(read.value) && run.principals == remote.principals
                               && Project(run.events, IsPatch) == [])
            && (read.None? && found.None? ==> run.result == Ok(()) && run.principals == remote.principals
                                               && Project(run.events, IsPatch) == [])
            && (read.None? && found.Some? ==>
                  var kept := Splice(list, found.value);
                  && Project(run.events, IsPatch) == [HttpRequest(PatchKeyCredentials(ByAppIdUrl(appId), kept))]
                  && (remote.patchRejects(appId, kept).Some? ==>
                        run.result == Err(remote.patchRejects(appId, kept).value) && run.principals == remote.principals)
                  && (remote.patchRejects(appId, kept).None? ==>
                        run.result == Ok(()) && run.principals == WithList(remote.principals, appId, StoredAs(remote.normalize, kept))))
            && (run.result.Ok? <==> RemoveRefusal(appId, keyId, remote).None?)
            && (run.result.Err? ==> run.result.error == RemoveRefusal(appId, keyId, remote).value)
  {
    var run := RemoveEffects(Ok(token), appId, keyId, remote);
    var list := ListOf(remote.principals[appId]);
    var read := remote.readRejects(appId, Some(remote.principals[appId]));
    if read.Some? {
      ProjectNone(run.events, IsPatch);
    } else {
      var scanned := [Log(Info, RemovingLine), Log(Debug, RetrievingLine), HttpRequest(GetJson(SelectUrl(appId))),
                      Log(Debug, RemovingKeyLine(keyId))];
      var found := FindKeyId(list, keyId);
      if found.None? {
        assert run.events == scanned;
        ProjectNone(scanned, IsPatch);
      } else {
        var prefix := scanned + [Log(Debug, UpdatingLine)];
        var patch := HttpRequest(PatchKeyCredentials(ByAppIdUrl(appId), Splice(list, found.value)));
        assert run.events == prefix + [patch];
        ProjectLast(prefix, patch, IsPatch);
      }
    }
  }

  /** With key ids unique and kept by the service, removing the same key id again after a
      removal that succeeded sends no PATCH, leaves the principals as the first removal left
      them, and succeeds unless the service refuses the second read. */
  lemma RemoveRepeatable(token: string, appId: string, keyId: string, remote: Remote)
    requires appId in remote.principals
    requires forall k :: remote.normalize(k).keyId == k.keyId
    requires var list := ListOf(remote.principals[appId]);
             forall i, j :: 0 <= i < j < |list| && list[i].keyId == keyId ==> list[j].keyId != keyId
    ensures var first := RemoveEffects(Ok(token), appId, keyId, remote);
            var second := RemoveEffects(Ok(token), appId, keyId, remote.(principals := first.principals));
            first.result.Ok? ==>
              && appId in first.principals
              && (second.result.Ok? <==> remote.readRejects(appId, Some(first.principals[appId])).None?)
              && second.principals == first.principals
              && Project(second.events, IsPatch) == []
  {
    var first := RemoveEffects(Ok(token), appId, keyId, remote);
    var list := ListOf(remote.principals[appId]);
    RemoveContract(token, appId, keyId, remote);
    if first.result.Ok? {
      var after := remote.(principals := first.principals);
      var found := FindKeyId(list, keyId);
      if found.Some? {
        var i := found.value;
        var kept := Splice(list, i);
        var stored := StoredAs(remote.normalize, kept);
        assert ListOf(after.principals[appId]) == stored;
        forall j | 0 <= j < |stored| ensures stored[j].keyId != keyId {
          assert stored[j].keyId == kept[j].keyId;
          if j < i {
            assert kept[j] == list[j];
          } else {
            assert kept[j] == list[j + 1];
          }
        }
      }
      RemoveContract(token, appId, keyId, after);
    }
  }

  /** The confirmation part sends one PATCH, first, with the list it was given. */
  lemma ConfirmPatches(client: Result<string>, appId: string, sent: seq<KeyCredential>, thumbprint: string, remote: Remote)
    requires appId in remote.principals
    ensures var rest := ConfirmEffects(client, appId, sent, thumbprint, remote);
            && |rest.events| >= 2 && rest.events[1] == HttpRequest(PatchKeyCredentials(ByAppIdUrl(appId), sent))
            && Project(rest.events, IsPatch) == [rest.events[1]]
  {
    var rest := ConfirmEffects(client, appId, sent, thumbprint, remote);
    var patch := HttpRequest(PatchKeyCredentials(ByAppIdUrl(appId), sent));
    var tail := rest.events[2..];
    assert rest.events == [Log(Debug, UpdatingLine)] + [patch] + tail;
    assert forall j :: 0 <= j < |tail| ==> !IsPatch(tail[j]);
    ProjectLast([Log(Debug, UpdatingLine)], patch, IsPatch);
    ProjectNone(tail, IsPatch);
    ProjectConcat([Log(Debug, UpdatingLine)] + [patch], tail, IsPatch);
  }

  /** With a token and the principal present: a refused read fails the addition before anything
      is written, and so does a key pair without a parsed certificate (a `TypeError`). Otherwise
      exactly one PATCH is sent, carrying the listed entries in order followed by one new entry
      built from the key pair; a refused write fails the addition and changes nothing, and an
      accepted one makes that list, as stored, the principal's; a returned entry is one of the
      stored ones and carries the key pair's thumbprint. When the service keeps identifiers and
      no listed entry already carries that thumbprint, the returned entry is the stored form of
      the appended one, so its key id is the key pair's uuid. */
  lemma AddContract(token: string, appId: string, kp: KeyPair, remote: Remote)
    requires appId in remote.principals
    ensures var run := AddEffects(Ok(token), appId, kp, remote);
            var list := ListOf(remote.principals[appId]);
            var read := remote.readRejects(appId, Some(remote.principals[appId]));
            && (read.Some? ==> run.result == Err(read.value) && run.principals == remote.principals
                               && Project(run.events, IsPatch) == [])
            && (read.None? && kp.x509.None? ==>
                  run.result == Err(TypeError(RawOfUndefined)) && run.principals == remote.principals
                  && Project(run.events, IsPatch) == [])
            && (read.None? && kp.x509.Some? ==>
                  var sent := list + [EntryOf(kp)];
                  && Project(run.events, IsPatch) == [HttpRequest(PatchKeyCredentials(ByAppIdUrl(appId), sent))]
                  && (remote.patchRejects(appId, sent).Some? ==>
                        run.result == Err(remote.patchRejects(appId, sent).value) && run.principals == remote.principals)
                  && (remote.patchRejects(appId, sent).None? ==>
                        run.principals == WithList(remote.principals, appId, StoredAs(remote.normalize, sent)))
                  && (run.result.Ok? ==> run.result.value in StoredAs(remote.normalize, sent)
                                         && run.result.value.customKeyIdentifier == kp.thumbprint)
                  && (run.result.Ok? && KeepsIdentifiers(remote.normalize) && ThumbprintFree(list, kp.thumbprint) ==>
                        run.result.value == StoredAs(remote.normalize, sent)[|list|] && run.result.value.keyId == kp.uuid))
  {
    var run := AddEffects(Ok(token), appId, kp, remote);
    var list := ListOf(remote.principals[appId]);
    var listed := [Log(Info, AddingLine), Log(Debug, RetrievingLine), HttpRequest(GetJson(SelectUrl(appId))),
                   Log(Debug, AddingToListLine)];
    if remote.readRejects(appId, Some(remote.principals[appId])).Some? {
      ProjectNone(run.events, IsPatch);
    } else if kp.x509.None? {
      assert run.events == listed;
      ProjectNone(listed, IsPatch);
    } else {
      var sent := list + [NewKeyCredential(kp).value];
      var rest := ConfirmEffects(Ok(token), appId, sent, kp.thumbprint, remote);
      assert run.events == listed + rest.events;
      ConfirmPatches(Ok(token), appId, sent, kp.thumbprint, remote);
      ProjectNone(listed, IsPatch);
      ProjectConcat(listed, rest.events, IsPatch);
      if KeepsIdentifiers(remote.normalize) && ThumbprintFree(list, kp.thumbprint) {
        FindsAppended(remote.normalize, list, NewKeyCredential(kp).value);
      }
    }
  }

  /** The HTTP requests of an addition with a parsed certificate: the read; unless it is refused,
      the write of the extended list; and, when the write is accepted and the service does not
      echo it, a second read. */
  function AddRequests(appId: string, kp: KeyPair, remote: Remote): seq<Event>
    requires appId in remote.principals && kp.x509.Some?
  {
    var sent := ListOf(remote.principals[appId]) + [EntryOf(kp)];
    [HttpRequest(GetJson(SelectUrl(appId)))]
      + (if remote.readRejects(appId, Some(remote.principals[appId])).Some? then []
         else [HttpRequest(PatchKeyCredentials(ByAppIdUrl(appId), sent))]
              + (if remote.echoes || remote.patchRejects(appId, sent).Some? then [] else [HttpRequest(GetJson(SelectUrl(appId)))]))
  }

  /** The shape of the confirmation's effects: the update line and the write; when the write is
      accepted and not echoed, the second read; then log lines only. */
  lemma ConfirmEventsSplit(token: string, appId: string, sent: seq<KeyCredential>, thumbprint: string, remote: Remote)
    requires appId in remote.principals
    ensures var events := ConfirmEffects(Ok(token), appId, sent, thumbprint, remote).events;
            var head := [Log(Debug, UpdatingLine), HttpRequest(PatchKeyCredentials(ByAppIdUrl(appId), sent))]
                        + (if remote.echoes || remote.patchRejects(appId, sent).Some? then []
                           else [Log(Debug, RetrievingLine), HttpRequest(GetJson(SelectUrl(appId)))]);
            && |head| <= |events| && events[..|head|] == head
            && forall i :: |head| <= i < |events| ==> events[i].Log?
  {
  }

  /** A stretch that continues with log lines only projects as its beginning does. */
  lemma ProjectThenLogs(events: seq<Event>, head: seq<Event>)
    requires |head| <= |events| && events[..|head|] == head
    requires forall i :: |head| <= i < |events| ==> events[i].Log?
    ensures Project(events, IsMilestone) == Project(head, IsMilestone)
  {
    var tail := events[|head|..];
    assert events == head + tail;
    ProjectNone(tail, IsMilestone);
    ProjectConcat(head, tail, IsMilestone);
  }

  /** The requests among the confirmation's first effects. */
  lemma ConfirmHeadMilestones(appId: string, sent: seq<KeyCredential>, reread: bool)
    ensures Project([Log(Debug, UpdatingLine), HttpRequest(PatchKeyCredentials(ByAppIdUrl(appId), sent))]
                    + (if reread then [Log(Debug, RetrievingLine), HttpRequest(GetJson(SelectUrl(appId)))] else []), IsMilestone)
            == [HttpRequest(PatchKeyCredentials(ByAppIdUrl(appId), sent))] + (if reread then [HttpRequest(GetJson(SelectUrl(appId)))] else [])
  {
    var get := HttpRequest(GetJson(SelectUrl(appId)));
    var patch := HttpRequest(PatchKeyCredentials(ByAppIdUrl(appId), sent));
    var second := if reread then [Log(Debug, RetrievingLine), get] else [];
    assert [Log(Debug, UpdatingLine), patch] == [Log(Debug, UpdatingLine)] + [patch];
    ProjectLast([Log(Debug, UpdatingLine)], patch, IsMilestone);
    ProjectConcat([Log(Debug, UpdatingLine), patch], second, IsMilestone);
    if reread {
      assert second == [Log(Debug, RetrievingLine)] + [get];
      ProjectLast([Log(Debug, RetrievingLine)], get, IsMilestone);
    } else {
      ProjectNone(second, IsMilestone);
    }
  }

  /** Apart from log lines, the confirmation part records the write and, when the write is
      accepted and not echoed, the second read. */
  lemma ConfirmMilestones(token: string, appId: string, sent: seq<KeyCredential>, thumbprint: string, remote: Remote)
    requires appId in remote.principals
    ensures Project(ConfirmEffects(Ok(token), appId, sent, thumbprint, remote).events, IsMilestone)
            == [HttpRequest(PatchKeyCredentials(ByAppIdUrl(appId), sent))]
               + (if remote.echoes || remote.patchRejects(appId, sent).Some? then [] else [HttpRequest(GetJson(SelectUrl(appId)))])
  {
    var reread := !(remote.echoes || remote.patchRejects(appId, sent).Some?);
    var head := [Log(Debug, UpdatingLine), HttpRequest(PatchKeyCredentials(ByAppIdUrl(appId), sent))]
                + (if reread then [Log(Debug, RetrievingLine), HttpRequest(GetJson(SelectUrl(appId)))] else []);
    ConfirmEventsSplit(token, appId, sent, thumbprint, remote);
    ProjectThenLogs(ConfirmEffects(Ok(token), appId, sent, thumbprint, remote).events, head);
    ConfirmHeadMilestones(appId, sent, reread);
  }

  /** The effects of adding a key pair with a parsed certificate, with a token: the read's, and
      when the read is granted the listing line and the confirmation's. */
  lemma AddEventsSplit(token: string, appId: string, kp: KeyPair, remote: Remote)
    requires appId in remote.principals && kp.x509.Some?
    ensures var head := [Log(Info, AddingLine), Log(Debug, RetrievingLine), HttpRequest(GetJson(SelectUrl(appId)))];
            var sent := ListOf(remote.principals[appId]) + [EntryOf(kp)];
            var events := AddEffects(Ok(token), appId, kp, remote).events;
            && (remote.readRejects(appId, Some(remote.principals[appId])).Some? ==> events == head)
            && (remote.readRejects(appId, Some(remote.principals[appId])).None? ==>
                  events == head + [Log(Debug, AddingToListLine)] + ConfirmEffects(Ok(token), appId, sent, kp.thumbprint, remote).events)
  {
  }

  /** Apart from log lines, adding a key pair with a parsed certificate records exactly those
      requests. */
  lemma AddMilestones(token: string, appId: string, kp: KeyPair, remote: Remote)
    requires appId in remote.principals && kp.x509.Some?
    ensures Project(AddEffects(Ok(token), appId, kp, remote).events, IsMilestone) == AddRequests(appId, kp, remote)
  {
    var get := HttpRequest(GetJson(SelectUrl(appId)));
    var head := [Log(Info, AddingLine), Log(Debug, RetrievingLine), get];
    assert head == [Log(Info, AddingLine), Log(Debug, RetrievingLine)] + [get];
    ProjectLast([Log(Info, AddingLine), Log(Debug, RetrievingLine)], get, IsMilestone);
    AddEventsSplit(token, appId, kp, remote);
    if remote.readRejects(appId, Some(remote.principals[appId])).None? {
      var sent := ListOf(remote.principals[appId]) + [EntryOf(kp)];
      var rest := ConfirmEffects(Ok(token), appId, sent, kp.thumbprint, remote);
      var listed := head + [Log(Debug, AddingToListLine)];
      ProjectThenLogs(listed, head);
      ConfirmMilestones(token, appId, sent, kp.thumbprint, remote);
      ProjectConcat(listed, rest.events, IsMilestone);
    }
  }

  /** Every effect of an addition is a log line or an HTTP request. */
  lemma AddEventKinds(client: Result<string>, appId: string, kp: KeyPair, remote: Remote)
    ensures var es := AddEffects(client, appId, kp, remote).events;
            forall i :: 0 <= i < |es| ==> es[i].Log? || es[i].HttpRequest?
  {
  }

  /** The service accepts each request of an addition that writes `sent`: the read, the write
      and, without an echo, the second read of the principal as it then stands. */
  predicate AcceptsAddition(appId: string, sent: seq<KeyCredential>, remote: Remote)
    requires appId in remote.principals
  {
    && remote.readRejects(appId, Some(remote.principals[appId])).None?
    && remote.patchRejects(appId, sent).None?
    && (remote.echoes
        || remote.readRejects(appId, Some(WithList(remote.principals, appId, StoredAs(remote.normalize, sent))[appId])).None?)
  }

  /** When the service keeps the thumbprint of what it stores, adding a key pair succeeds exactly
      when it has a parsed certificate and the service accepts the addition's requests; the
      entry returned carries the key pair's thumbprint. */
  lemma AddSucceeds(token: string, appId: string, kp: KeyPair, remote: Remote)
    requires appId in remote.principals
    requires forall k :: remote.normalize(k).customKeyIdentifier == k.customKeyIdentifier
    ensures var run := AddEffects(Ok(token), appId, kp, remote);
            && (run.result.Ok? <==>
                  kp.x509.Some? && AcceptsAddition(appId, ListOf(remote.principals[appId]) + [EntryOf(kp)], remote))
            && (run.result.Ok? ==> run.result.value.customKeyIdentifier == kp.thumbprint)
  {
    if kp.x509.Some? && remote.readRejects(appId, Some(remote.principals[appId])).None? {
      var list := ListOf(remote.principals[appId]);
      var entry := NewKeyCredential(kp).value;
      var stored := StoredAs(remote.normalize, list + [entry]);
      assert stored[|list|].customKeyIdentifier == kp.thumbprint;
    }
    AddContract(token, appId, kp, remote);
  }

  /** The key pair `generateCertificate()` returns carries no parsed certificate: adding it fails
      before anything is written, with a `TypeError` once the read is granted. */
  lemma AddRejectsKeyPairAsWritten(token: string, appId: string, uuid: string, privateKey: string, certificate: string,
                                   x509: X509Info, remote: Remote)
    requires appId in remote.principals
    ensures var run := AddEffects(Ok(token), appId, KeyPairAsWritten(uuid, privateKey, certificate, x509), remote);
            && run.principals == remote.principals
            && Project(run.events, IsPatch) == []
            && (remote.readRejects(appId, Some(remote.principals[appId])).None? ==> run.result == Err(TypeError(RawOfUndefined)))
  {
    AddContract(token, appId, KeyPairAsWritten(uuid, privateKey, certificate, x509), remote);
  }

  /** The key pair with its parsed certificate is accepted: once the read is granted, its entry
      is the one written. */
  lemma AddAcceptsKeyPairOf(token: string, appId: string, uuid: string, privateKey: string, certificate: string,
                            x509: X509Info, remote: Remote)
    requires appId in remote.principals
    ensures var run := AddEffects(Ok(token), appId, KeyPairOf(uuid, privateKey, certificate, x509), remote);
            var entry := KeyCredential(x509.rawBase64, uuid, x509.fingerprint256, Some(x509.validFrom), Some(x509.validTo),
                                       x509.subject, CertificateType, VerifyUsage);
            remote.readRejects(appId, Some(remote.principals[appId])).None? ==>
              Project(run.events, IsPatch) == [HttpRequest(PatchKeyCredentials(ByAppIdUrl(appId), ListOf(remote.principals[appId]) + [entry]))]
  {
    AddContract(token, appId, KeyPairOf(uuid, privateKey, certificate, x509), remote);
  }

  /** The updater: the application whose principal it edits and its HTTP client, which is ready
      once the Graph token has been granted. */
  class ServicePrincipalUpdater {
    const appId: string
    const client: Result<string>

    /** `new GhaServicePrincipalUpdater(msalApp, appId)`: requests a token for Microsoft Graph
        through the provider's `acquireAccessToken`. */
    constructor (host: Host, ext: Externals, variant: Variant, msalApp: AccessTokenProvider, appId: string)
      modifies host
      ensures this.appId == appId
      ensures var run := ConnectEffects(variant, msalApp, ext, host.debug);
              host.trace == old(host.trace) + run.events && client == BearerOf(run.result)
      ensures host.state == old(host.state)
    {
      var token := AcquireAccessToken(host, ext, variant, msalApp, GraphResource);
      this.appId := appId;
      client := BearerOf(token);
    }

    /** `getKeyCredentials()`. */
    method GetKeyCredentials(host: Host, graph: GraphService) returns (r: Result<TypedResponse<SpnEntity>>)
      modifies host
      ensures var run := ReadEffects(client, appId, Snapshot(graph));
              host.trace == old(host.trace) + run.events && r == run.result
      ensures host.state == old(host.state)
    {
      host.Emit(Log(Debug, RetrievingLine));
      if client.Err? {
        return Err(client.error);
      }
      host.Emit(HttpRequest(GetJson(SelectUrl(appId))));
      var resp := graph.GetByAppId(appId);
      if resp.Err? {
        return Err(resp.error);
      }
      if resp.value.result.None? {
        return Err(HttpClientError(NullEntity, Some(resp.value.statusCode)));
      }
      r := Ok(resp.value);
    }

    /** `removeKeyCredentialByKeyId(keyId)`. */
    method RemoveKeyCredentialByKeyId(host: Host, graph: GraphService, keyId: string) returns (r: Result<()>)
      modifies host, graph
      ensures var run := RemoveEffects(client, appId, keyId, old(Snapshot(graph)));
              host.trace == old(host.trace) + run.events && r == run.result && graph.principals == run.principals
      ensures host.state == old(host.state)
    {
      ghost var remote := Snapshot(graph);
      host.Emit(Log(Info, RemovingLine));
      if client.Err? {
        return Err(client.error);
      }
      var read := GetKeyCredentials(host, graph);
      if read.Err? {
        return Err(read.error);
      }
      var list := ListOf(read.value.result.value);
      host.Emit(Log(Debug, RemovingKeyLine(keyId)));
      var found := FindKeyId(list, keyId);
      if found.None? {
        return Ok(());
      }
      var kept := Splice(list, found.value);
      host.Emit(Log(Debug, UpdatingLine));
      host.Emit(HttpRequest(PatchKeyCredentials(ByAppIdUrl(appId), kept)));
      var patchResp := graph.PatchKeyCredentials(appId, kept);
      if patchResp.Err? {
        return Err(patchResp.error);
      }
      r := Ok(());
    }

    /** `addCertificateKeyCredential(keyPair)`. */
    method AddCertificateKeyCredential(host: Host, graph: GraphService, kp: KeyPair) returns (r: Result<KeyCredential>)
      modifies host, graph
      ensures var run := AddEffects(client, appId, kp, old(Snapshot(graph)));
              host.trace == old(host.trace) + run.events && r == run.result && graph.principals == run.principals
      ensures host.state == old(host.state)
    {
      ghost var t0 := host.trace;
      ghost var remote := Snapshot(graph);
      host.Emit(Log(Info, AddingLine));
      if client.Err? {
        return Err(client.error);
      }
      var read := GetKeyCredentials(host, graph);
      if read.Err? {
        return Err(read.error);
      }
      var list := ListOf(read.value.result.value);
      host.Emit(Log(Debug, AddingToListLine));
      ghost var listed := [Log(Info, AddingLine)] + ReadEffects(client, appId, remote).events + [Log(Debug, AddingToListLine)];
      assert host.trace == t0 + listed;
      var entry := NewKeyCredential(kp);
      if entry.Err? {
        assert AddEffects(client, appId, kp, remote) == GraphStep(listed, Err(entry.error), remote.principals);
        return Err(entry.error);
      }
      r := PatchAndConfirm(host, graph, list + [entry.value], kp.thumbprint);
      ghost var rest := ConfirmEffects(client, appId, list + [entry.value], kp.thumbprint, remote);
      AppendStretches(t0, listed, rest.events);
      assert AddEffects(client, appId, kp, remote) == GraphStep(listed + rest.events, rest.result, rest.principals);
    }

    /** The write and the confirmation of `addCertificateKeyCredential`. */
    method PatchAndConfirm(host: Host, graph: GraphService, sent: seq<KeyCredential>, thumbprint: string)
      returns (r: Result<KeyCredential>)
      requires client.Ok? && appId in graph.principals
      modifies host, graph
      ensures var run := ConfirmEffects(client, appId, sent, thumbprint, old(Snapshot(graph)));
              host.trace == old(host.trace) + run.events && r == run.result && graph.principals == run.principals
      ensures host.state == old(host.state)
    {
      host.Emit(Log(Debug, UpdatingLine));
      host.Emit(HttpRequest(PatchKeyCredentials(ByAppIdUrl(appId), sent)));
      var patchResp := graph.PatchKeyCredentials(appId, sent);
      if patchResp.Err? {
        return Err(patchResp.error);
      }
      var current: seq<KeyCredential>;
      if patchResp.value.result.Some? && patchResp.value.result.value.Some? {
        current := patchResp.value.result.value.value;
      } else {
        var again := GetKeyCredentials(host, graph);
        if again.Err? {
          return Err(again.error);
        }
        current := again.value.result.value.keyCredentials.value;
      }
      var found := FindThumbprint(current, thumbprint);
      if found.None? {
        return Err(PlainError(NotAdded));
      }
      host.Emit(Log(Info, AddedLine + found.value.keyId));
      r := Ok(found.value);
    }

    /** `dispose()`: waits for the client, then disposes of it. */
    method Dispose(host: Host) returns (r: Result<()>)
      modifies host
      ensures client.Err? ==> r == Err(client.error) && host.trace == old(host.trace)
      ensures client.Ok? ==> r == Ok(()) && host.trace == old(host.trace) + [Disposed(UpdaterClient)]
      ensures host.state == old(host.state)
    {
      if client.Err? {
        return Err(client.error);
      }
      host.Emit(Disposed(UpdaterClient));
      r := Ok(());
    }
  }
}
