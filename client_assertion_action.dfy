/** The `ms-idp-client-assertion-auth` action (`action.js`): read the client id, tenant and client
    assertion, ask MSAL for a client-credentials token for `<audience>/.default`, and publish the
    token, masked first. The action does its work at module load; a run is modelled as a function
    of the inputs, the debug flag and the token service. */
module ClientAssertionAction {
  import opened Wrappers
  import opened Msal
  import opened ActionsCore
  import opened CoreHelpers

  const ClientIdInput := "client-id"
  const TenantIdInput := "tenant-id"
  const AssertionInput := "assertion"
  const InstanceInput := "instance"
  const AudienceInput := "audience"
  const NullResultMessage := "MSAL authentication result is null"

  /** The five inputs after their defaults. */
  datatype AssertionInputs = AssertionInputs(clientId: string, tenantId: string, assertion: string, instance: string, audience: string)

  /** The helper's `getInput` calls of the module top level, in order: the three required inputs
      (the first missing one throws), then the instance and the audience, each logged as read. */
  function ReadInputs(inputs: map<string, string>): Effects<AssertionInputs>
  {
    match CoreGetInput(inputs, ClientIdInput, Required)
    case Err(e) => Effects([], Err(e))
    case Ok(clientId) =>
      var l1 := InputLine(ClientIdInput, clientId);
      match CoreGetInput(inputs, TenantIdInput, Required)
      case Err(e) => Effects([l1], Err(e))
      case Ok(tenantId) =>
        var l2 := InputLine(TenantIdInput, tenantId);
        match CoreGetInput(inputs, AssertionInput, Required)
        case Err(e) => Effects([l1, l2], Err(e))
        case Ok(assertion) =>
          var instance := CoreGetInput(inputs, InstanceInput, NoOptions).value;
          var audience := CoreGetInput(inputs, AudienceInput, NoOptions).value;
          Effects([l1, l2, InputLine(AssertionInput, assertion), InputLine(InstanceInput, instance), InputLine(AudienceInput, audience)],
            Ok(AssertionInputs(clientId, tenantId, assertion, if instance != "" then instance else AzurePublic,
              if audience != "" then audience else clientId)))
  }

  /** `msalConfiguration`: the client id, the assertion as client credential, the cloud instance
      and tenant, the action's own network module and the configured logger. */
  function AssertionConfig(v: AssertionInputs): AuthConfig
  {
    AuthConfig(v.clientId, v.tenantId, v.instance, Some(v.assertion), None, None, SystemOptions(FreshClient, true))
  }

  /** `msalTokenReq.scopes`. */
  function AssertionScopes(v: AssertionInputs): seq<string>
  {
    [DefaultScope(v.audience)]
  }

  /** What the async entry does with the token service's answer: a null result fails the step and
      returns; a granted token is masked, emitted as the `result` output, printed in debug mode
      (`stringify` is `JSON.stringify(result, undefined, 2)`), and emitted as `access-token`; a
      rejection is left unhandled. */
  function EntryEffects(outcome: TokenOutcome, debug: bool, stringify: AuthResult -> string): Effects<()>
  {
    match outcome
    case Rejected(e) => Effects([], Err(e))
    case NullResult => Effects([Failed(NullResultMessage)], Ok(()))
    case Acquired(result) =>
      Effects([Secret(result.accessToken), Output("result", AuthResultOutput(result))]
              + (if debug then [Log(Debug, stringify(result))] else [])
              + [Output("access-token", TextOutput(result.accessToken))], Ok(()))
  }

  /** A whole run of the action. */
  function RunEffects(inputs: map<string, string>, debug: bool, tokens: TokenService, stringify: AuthResult -> string): Effects<()>
  {
    var read := ReadInputs(inputs);
    match read.result
    case Err(e) => Effects(read.events, Err(e))
    case Ok(v) =>
      var entry := EntryEffects(tokens(AssertionConfig(v), AssertionScopes(v)), debug, stringify);
      Effects(read.events + [TokenRequested(AssertionConfig(v), AssertionScopes(v))] + entry.events, entry.result)
  }

  /** No event of a stretch is an output. */
  predicate NoOutputs(events: seq<Event>)
  {
    forall i :: 0 <= i < |events| ==> !events[i].Output?
  }

  /** The inputs are read in order and fail exactly when a required one is empty; the instance
      defaults to the public cloud and the audience to the client id; reading only logs, at debug
      level, and masks nothing. */
  lemma ReadInputsContract(inputs: map<string, string>)
    ensures var read := ReadInputs(inputs);
            && (read.result.Err? <==>
                  RawInput(inputs, ClientIdInput) == "" || RawInput(inputs, TenantIdInput) == "" || RawInput(inputs, AssertionInput) == "")
            && (RawInput(inputs, ClientIdInput) == "" ==> read.result == Err(PlainError(InputRequired + ClientIdInput)))
            && (read.result.Ok? ==>
                  var v := read.result.value;
                  && v.clientId == JsStrings.Trim(RawInput(inputs, ClientIdInput))
                  && v.tenantId == JsStrings.Trim(RawInput(inputs, TenantIdInput))
                  && v.assertion == JsStrings.Trim(RawInput(inputs, AssertionInput))
                  && v.instance == (if JsStrings.Trim(RawInput(inputs, InstanceInput)) == "" then AzurePublic
                                    else JsStrings.Trim(RawInput(inputs, InstanceInput)))
                  && v.audience == (if JsStrings.Trim(RawInput(inputs, AudienceInput)) == "" then v.clientId
                                    else JsStrings.Trim(RawInput(inputs, AudienceInput))))
            && (forall i :: 0 <= i < |read.events| ==> read.events[i].Log? && read.events[i].level == Debug)
            && Masked(read.events) == {}
  {
    var read := ReadInputs(inputs);
    assert forall i :: 0 <= i < |read.events| ==> !read.events[i].Secret?;
  }

  /** The async entry: a null result fails the step and a rejection settles the run, neither
      with an output or a mask; a granted token is masked first, then published whole as `result`
      and alone as `access-token`, last. */
  lemma EntryContract(outcome: TokenOutcome, debug: bool, stringify: AuthResult -> string)
    ensures var entry := EntryEffects(outcome, debug, stringify);
            && (outcome.NullResult? ==> entry.events == [Failed("MSAL authentication result is null")] && entry.result.Ok?)
            && (outcome.Rejected? ==> entry.events == [] && entry.result == Err(outcome.error))
            && (!outcome.Acquired? ==> NoOutputs(entry.events) && Masked(entry.events) == {})
            && (outcome.Acquired? ==>
                  var token := outcome.result.accessToken;
                  && entry.result.Ok?
                  && |entry.events| >= 3
                  && entry.events[0] == Secret(token)
                  && entry.events[1] == Output("result", AuthResultOutput(outcome.result))
                  && entry.events[|entry.events| - 1] == Output("access-token", TextOutput(token))
                  && Masked(entry.events) == {token})
  {
    var entry := EntryEffects(outcome, debug, stringify);
    if outcome.NullResult? {
      MaskedOne(entry.events[0]);
    }
    if outcome.Acquired? {
      var rest := entry.events[1..];
      assert entry.events == [entry.events[0]] + rest;
      MaskedConcat([entry.events[0]], rest);
      MaskedOne(entry.events[0]);
      assert forall i :: 0 <= i < |rest| ==> !rest[i].Secret?;
    }
  }

  /** A run's events: the input lines, the token request, the entry's events. */
  lemma RunEvents(read: seq<Event>, request: Event, entry: seq<Event>)
    requires NoOutputs(read) && Masked(read) == {} && !request.Output? && !request.Secret?
    ensures var all := read + [request] + entry;
            && |all| == |read| + 1 + |entry|
            && all[..|read|] == read && all[|read|] == request
            && NoOutputs(all[..|read| + 1])
            && (forall i :: 0 <= i < |entry| ==> all[|read| + 1 + i] == entry[i])
            && (NoOutputs(entry) ==> NoOutputs(all))
            && Masked(all) == Masked(entry)
  {
    var all := read + [request] + entry;
    assert all == read + ([request] + entry);
    MaskedConcat(read, [request] + entry);
    MaskedConcat([request], entry);
    MaskedOne(request);
    assert all[..|read| + 1] == read + [request];
  }

  /** The token is requested once, with the assertion as client credential and `<audience>/.default`
      as the only scope. A null result fails the step with no output; a rejection or a missing
      required input sets no output either; a granted token is masked before both outputs, which
      carry the whole result and the token. */
  lemma RunContract(inputs: map<string, string>, debug: bool, tokens: TokenService, stringify: AuthResult -> string)
    ensures var read := ReadInputs(inputs);
            var run := RunEffects(inputs, debug, tokens, stringify);
            && (read.result.Err? ==> run.result.Err? && NoOutputs(run.events) && Masked(run.events) == {})
            && (read.result.Ok? ==>
                  var v := read.result.value;
                  var n := |read.events|;
                  var outcome := tokens(AssertionConfig(v), AssertionScopes(v));
                  && run.events[..n] == read.events
                  && run.events[n] == TokenRequested(AssertionConfig(v), [v.audience + "/.default"])
                  && AssertionConfig(v).clientAssertion == Some(v.assertion)
                  && AssertionConfig(v).clientSecret.None? && AssertionConfig(v).clientCertificate.None?
                  && (outcome.NullResult? ==>
                        run.events == read.events + [run.events[n], Failed("MSAL authentication result is null")]
                        && run.result.Ok? && NoOutputs(run.events))
                  && (outcome.Rejected? ==> run.result == Err(outcome.error) && |run.events| == n + 1 && NoOutputs(run.events))
                  && (outcome.Acquired? ==>
                        var token := outcome.result.accessToken;
                        && run.result.Ok?
                        && NoOutputs(run.events[..n + 1])
                        && run.events[n + 1] == Secret(token)
                        && Masked(run.events) == {token}
                        && run.events[n + 2] == Output("result", AuthResultOutput(outcome.result))
                        && run.events[|run.events| - 1] == Output("access-token", TextOutput(token))))
  {
    var read := ReadInputs(inputs);
    ReadInputsContract(inputs);
    assert NoOutputs(read.events);
    if read.result.Ok? {
      var v := read.result.value;
      var outcome := tokens(AssertionConfig(v), AssertionScopes(v));
      EntryContract(outcome, debug, stringify);
      RunEvents(read.events, TokenRequested(AssertionConfig(v), AssertionScopes(v)), EntryEffects(outcome, debug, stringify).events);
    }
  }
}
