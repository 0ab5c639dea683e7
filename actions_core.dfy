/** The GitHub Actions runner as the scripts see it through `@actions/core`: action inputs, the
    run-state store that carries values from the main step to the post (cleanup) step, the
    secret-masking sink, step outputs, log annotations, and the ordered trace of every external
    effect (HTTP calls, token requests, disposals, commands). */
module ActionsCore {
  import opened Wrappers
  import opened JsStrings
  import opened Msal
  import opened Graph

  /** The log sinks of `@actions/core`. */
  datatype Level = Debug | Info | Notice | Warning | Error

  /** A value passed to `setOutput`. */
  datatype OutputValue = TextOutput(text: string) | AuthResultOutput(result: AuthResult) | NumberOutput(n: int)

  /** An HTTP request a script sends, with the body it sends. */
  datatype HttpCall =
    | GetJson(url: string)
    | PatchKeyCredentials(url: string, keyCredentials: seq<KeyCredential>)
    | PostAddPassword(url: string, displayName: string, authorization: string)
    | PostRemovePassword(url: string, keyId: string, authorization: string)
    | PostAddKey(url: string, keyCredential: KeyCredential, proof: string)
    | PostForm(url: string, body: string, contentType: string)

  /** One externally visible effect. */
  datatype Event =
    | Log(level: Level, message: string)
    | Failed(message: string)                          // setFailed
    | Secret(secret: string)                           // setSecret
    | Output(name: string, output: OutputValue)       // setOutput
    | StateSaved(name: string, value: string)          // saveState
    | IdTokenRequested(audience: Option<string>)       // getIDToken
    | TokenRequested(config: AuthConfig, scopes: seq<string>)  // acquireTokenByClientCredential
    | HttpRequest(call: HttpCall)
    | Disposed(client: string)                         // HttpClient.dispose
    | Exec(command: string, args: seq<string>, cwd: Option<string>)
    | Annotated(level: Level, message: string, title: string, file: Option<string>)  // with properties
    | Slept(milliseconds: int)                         // setTimeout
    | ExitCodeSet(code: int)                           // process.exitCode
    | PasswordRemovalRequested(spAppId: string, passwordKeyId: string)  // removePasswordCredentialByKeyId
    | Resent(authorization: string)                    // httpClient.requestRaw after authenticating

  /** Everything a trace handed to the masking sink. */
  function Masked(trace: seq<Event>): set<string>
  {
    set i | 0 <= i < |trace| && trace[i].Secret? :: trace[i].secret
  }

  /** Masking distributes over consecutive stretches of a trace. */
  lemma MaskedConcat(a: seq<Event>, b: seq<Event>)
    ensures Masked(a + b) == Masked(a) + Masked(b)
  {
    forall s | s in Masked(a + b) ensures s in Masked(a) + Masked(b) {
      var i :| 0 <= i < |a + b| && (a + b)[i].Secret? && (a + b)[i].secret == s;
      if i >= |a| {
        assert b[i - |a|] == (a + b)[i];
      }
    }
    forall s | s in Masked(a) ensures s in Masked(a + b) {
      var i :| 0 <= i < |a| && a[i].Secret? && a[i].secret == s;
      assert (a + b)[i] == a[i];
    }
    forall s | s in Masked(b) ensures s in Masked(a + b) {
      var i :| 0 <= i < |b| && b[i].Secret? && b[i].secret == s;
      assert (a + b)[|a| + i] == b[i];
    }
  }

  /** A single event masks its secret, if it is a `setSecret` call. */
  lemma MaskedOne(e: Event)
    ensures Masked([e]) == (if e.Secret? then {e.secret} else {})
  {
    if e.Secret? {
      assert [e][0] == e;
    }
  }

  /** `after` is `before` followed by debug lines only. */
  ghost predicate OnlyDebugAdded(before: seq<Event>, after: seq<Event>)
  {
    && |after| >= |before| && after[..|before|] == before
    && forall i :: |before| <= i < |after| ==> after[i].Log? && after[i].level == Debug
  }

  /** Adding debug lines twice adds debug lines. */
  lemma OnlyDebugAddedTrans(a: seq<Event>, b: seq<Event>, c: seq<Event>)
    requires OnlyDebugAdded(a, b) && OnlyDebugAdded(b, c)
    ensures OnlyDebugAdded(a, c)
  {
    assert c[..|a|] == b[..|b|][..|a|];
  }

  /** The events of a trace that satisfy `p`, in order. */
  function Project(trace: seq<Event>, p: Event -> bool): (r: seq<Event>)
    ensures |r| <= |trace|
    ensures forall i :: 0 <= i < |r| ==> p(r[i])
  {
    if trace == [] then [] else (if p(trace[0]) then [trace[0]] else []) + Project(trace[1..], p)
  }

  /** Projection distributes over consecutive stretches of a trace. */
  lemma {:induction false} ProjectConcat(a: seq<Event>, b: seq<Event>, p: Event -> bool)
    ensures Project(a + b, p) == Project(a, p) + Project(b, p)
  {
    if a != [] {
      assert (a + b)[0] == a[0] && (a + b)[1..] == a[1..] + b;
      ProjectConcat(a[1..], b, p);
      var h := if p(a[0]) then [a[0]] else [];
      assert Project(a + b, p) == h + Project(a[1..] + b, p);
      assert Project(a, p) == h + Project(a[1..], p);
    } else {
      assert a + b == b;
    }
  }

  /** A stretch with no event of interest projects to nothing. */
  lemma {:induction false} ProjectNone(trace: seq<Event>, p: Event -> bool)
    requires forall i :: 0 <= i < |trace| ==> !p(trace[i])
    ensures Project(trace, p) == []
  {
    if trace != [] {
      ProjectNone(trace[1..], p);
    }
  }

  /** A stretch followed by one event of interest projects to that event. */
  lemma ProjectLast(trace: seq<Event>, e: Event, p: Event -> bool)
    requires forall i :: 0 <= i < |trace| ==> !p(trace[i])
    requires p(e)
    ensures Project(trace + [e], p) == [e]
  {
    ProjectNone(trace, p);
    ProjectConcat(trace, [e], p);
    assert Project([e], p) == [e] by {
      assert [e][1..] == [];
    }
  }

  /** Every event of a projection comes from the trace projected. */
  lemma {:induction false} ProjectFrom(trace: seq<Event>, p: Event -> bool)
    ensures forall e :: e in Project(trace, p) ==> e in trace
  {
    if trace != [] {
      ProjectFrom(trace[1..], p);
      var h := if p(trace[0]) then [trace[0]] else [];
      assert Project(trace, p) == h + Project(trace[1..], p);
      forall e | e in Project(trace, p) ensures e in trace {
        if e !in h {
          assert e in Project(trace[1..], p);
          assert e in trace[1..];
        }
      }
    }
  }

  /** One event of interest projects to itself. */
  lemma ProjectSingle(e: Event, p: Event -> bool)
    requires p(e)
    ensures Project([e], p) == [e]
  {
    assert [e][1..] == [];
  }

  /** A stretch made only of events of interest projects to itself. */
  lemma {:induction false} ProjectAll(trace: seq<Event>, p: Event -> bool)
    requires forall i :: 0 <= i < |trace| ==> p(trace[i])
    ensures Project(trace, p) == trace
  {
    if trace != [] {
      ProjectAll(trace[1..], p);
      assert [trace[0]] + trace[1..] == trace;
    }
  }

  /** Projecting onto a narrower kind of event can go through a wider one first. */
  lemma {:induction false} ProjectRefine(trace: seq<Event>, p: Event -> bool, q: Event -> bool)
    requires forall e :: q(e) ==> p(e)
    ensures Project(Project(trace, p), q) == Project(trace, q)
  {
    if trace != [] {
      ProjectRefine(trace[1..], p, q);
      var h := if p(trace[0]) then [trace[0]] else [];
      ProjectConcat(h, Project(trace[1..], p), q);
      if p(trace[0]) {
        assert Project(h, q) == (if q(trace[0]) then [trace[0]] else []) by {
          assert h[1..] == [];
        }
      }
    }
  }

  /** Two effects recorded one after the other extend a trace by both. */
  lemma AppendTwo(t: seq<Event>, a: Event, b: Event)
    ensures t + [a] + [b] == t + [a, b]
  {
  }

  /** Recording two stretches one after the other records their concatenation. */
  lemma AppendStretches(t: seq<Event>, a: seq<Event>, b: seq<Event>)
    ensures t + a + b == t + (a + b)
  {
  }

  /** The commands run (`exec`, in order). */
  predicate IsCommand(e: Event) { e.Exec? }

  /** The HTTP requests sent. */
  predicate IsHttpRequest(e: Event) { e.HttpRequest? }

  /** The effects that matter for ordering: everything but log lines and masking calls. */
  predicate IsMilestone(e: Event) { !e.Log? && !e.Secret? }

  /** Whether the trace set any step output. */
  predicate SetsOutput(trace: seq<Event>)
  {
    exists i :: 0 <= i < |trace| && trace[i].Output?
  }

  /** The index of the first event at or after `from` that satisfies `p`, if any. */
  function IndexWhere(trace: seq<Event>, p: Event -> bool, from: nat): (r: Option<nat>)
    ensures r.Some? ==> from <= r.value < |trace| && p(trace[r.value])
    ensures r.Some? ==> forall j :: from <= j < r.value ==> !p(trace[j])
    ensures r.None? ==> forall j :: from <= j < |trace| ==> !p(trace[j])
    decreases |trace| - from
  {
    if from >= |trace| then None
    else if p(trace[from]) then Some(from)
    else IndexWhere(trace, p, from + 1)
  }

  /** How a child process ended: its exit code and what it wrote to standard output. */
  datatype ProcessResult = ProcessResult(exitCode: int, stdout: string)

  /** The external operations the runner and the libraries provide, as functions of their
      arguments: the runner's identity-token URL (`ACTIONS_ID_TOKEN_REQUEST_URL`) and the token
      it mints for an audience, the MSAL token service, base64url decoding, and running a
      command (`@actions/exec`) with arguments in a working directory. */
  datatype Externals = Externals(
    idTokenUrl: string,
    idTokens: Option<string> -> Result<string>,
    tokens: TokenService,
    base64UrlDecode: string -> Option<string>,
    processes: (string, seq<string>, Option<string>) -> ProcessResult)

  /** What a step of a script does: the effects it records, in order, and how it settles. */
  datatype Effects<T> = Effects(events: seq<Event>, result: Result<T>)

  const IdTokenUrlIs := "ID token url is "

  /** The URL `core.getIDToken(audience)` calls: the runner's token URL, with the audience
      appended URI-encoded when one is given and it is not empty. */
  function IdTokenUrl(base: string, audience: Option<string>): string
  {
    if audience.Some? && audience.value != "" then base + "&audience=" + EncodeUriComponent(audience.value) else base
  }

  /** `core.getIDToken(audience)`: a debug line with the URL, the request, and, when the runner
      answers, its token handed to the masking sink before it is returned. */
  function IdTokenEffects(ext: Externals, audience: Option<string>): Effects<string>
  {
    var token := ext.idTokens(audience);
    Effects([Log(Debug, IdTokenUrlIs + IdTokenUrl(ext.idTokenUrl, audience)), IdTokenRequested(audience)]
              + (if token.Ok? then [Secret(token.value)] else []),
            token)
  }

  /** The identity-token call settles as the runner answers, records only the request apart from
      logging and masking, masks exactly the token it returns, and logs the URL first. */
  lemma IdTokenContract(ext: Externals, audience: Option<string>)
    ensures var e := IdTokenEffects(ext, audience);
            && e.result == ext.idTokens(audience)
            && Project(e.events, IsMilestone) == [IdTokenRequested(audience)]
            && Masked(e.events) == (if e.result.Ok? then {e.result.value} else {})
            && e.events[0] == Log(Debug, IdTokenUrlIs + IdTokenUrl(ext.idTokenUrl, audience))
  {
    var e := IdTokenEffects(ext, audience);
    var first := Log(Debug, IdTokenUrlIs + IdTokenUrl(ext.idTokenUrl, audience));
    var tail := if e.result.Ok? then [Secret(e.result.value)] else [];
    assert e.events == [first] + [IdTokenRequested(audience)] + tail;
    ProjectLast([first], IdTokenRequested(audience), IsMilestone);
    ProjectNone(tail, IsMilestone);
    ProjectConcat([first] + [IdTokenRequested(audience)], tail, IsMilestone);
    MaskedConcat([first] + [IdTokenRequested(audience)], tail);
    MaskedConcat([first], [IdTokenRequested(audience)]);
    MaskedOne(first);
    MaskedOne(IdTokenRequested(audience));
    if e.result.Ok? {
      MaskedOne(Secret(e.result.value));
    }
  }

  /** The identity-token URL extends the runner's by an audience parameter exactly when a
      non-empty audience is given, and the audience, once encoded, cannot add another query
      parameter. */
  lemma IdTokenUrlContract(base: string, audience: Option<string>)
    ensures var url := IdTokenUrl(base, audience);
            && |url| >= |base| && url[..|base|] == base
            && (url == base <==> audience.None? || audience.value == "")
            && forall i :: |base| + 10 <= i < |url| ==> url[i] != '&'
  {
    var url := IdTokenUrl(base, audience);
    if audience.Some? && audience.value != "" {
      var enc := EncodeUriComponent(audience.value);
      assert |enc| > 0;
      assert url == base + "&audience=" + enc;
      forall i | |base| + 10 <= i < |url| ensures url[i] != '&' {
        assert url[i] == enc[i - |base| - 10];
      }
    }
  }

  /** `getInput` options; `trimWhitespace` is false only when given as `false`. */
  datatype InputOptions = InputOptions(required: bool, trimWhitespace: bool)

  const NoOptions := InputOptions(false, true)
  const InputRequired := "Input required and not supplied: "
  const Required := InputOptions(true, true)

  /** The raw value of an input (`process.env['INPUT_…'] || ''`). */
  function RawInput(inputs: map<string, string>, name: string): string
  {
    if name in inputs then inputs[name] else ""
  }

  /** `core.getInput`: a required input that is empty before trimming raises; the value is then
      trimmed unless trimming is switched off. */
  function CoreGetInput(inputs: map<string, string>, name: string, options: InputOptions): (r: Result<string>)
    ensures r.Err? <==> options.required && RawInput(inputs, name) == ""
    ensures r.Ok? && options.trimWhitespace ==> r.value == Trim(RawInput(inputs, name))
    ensures r.Ok? && !options.trimWhitespace ==> r.value == RawInput(inputs, name)
  {
    var raw := RawInput(inputs, name);
    if options.required && raw == "" then Err(PlainError(InputRequired + name))
    else if options.trimWhitespace then Ok(Trim(raw))
    else Ok(raw)
  }

  /** The YAML 1.2 core-schema spellings of the two booleans. */
  const TrueSpellings: set<string> := {"true", "True", "TRUE"}
  const FalseSpellings: set<string> := {"false", "False", "FALSE"}

  /** The boolean a YAML 1.2 core-schema spelling denotes, if any. */
  function YamlBool(v: string): (b: Option<bool>)
    ensures b == Some(true) <==> v in TrueSpellings
    ensures b == Some(false) <==> v in FalseSpellings
  {
    if v in TrueSpellings then Some(true)
    else if v in FalseSpellings then Some(false)
    else None
  }

  const NotCoreSchema := "Input does not meet YAML 1.2 \"Core Schema\" specification: "
  const SupportedBooleans := "\nSupport boolean input list: `true | True | TRUE | false | False | FALSE`"

  /** `core.getBooleanInput`: the value `getInput` reads, as a YAML 1.2 core-schema boolean;
      any other spelling is a TypeError. */
  function CoreGetBooleanInput(inputs: map<string, string>, name: string, options: InputOptions): (r: Result<bool>)
    ensures r.Ok? <==> CoreGetInput(inputs, name, options).Ok? && YamlBool(CoreGetInput(inputs, name, options).value).Some?
    ensures r.Ok? ==> Some(r.value) == YamlBool(CoreGetInput(inputs, name, options).value)
  {
    var v :- CoreGetInput(inputs, name, options);
    match YamlBool(v)
    case Some(b) => Ok(b)
    case None => Err(TypeError(NotCoreSchema + name + SupportedBooleans))
  }

  /** The strings of a list that are not "" (`filter((x) => x !== '')`), in order. */
  function NonEmpty(xs: seq<string>): (r: seq<string>)
    ensures forall i :: 0 <= i < |r| ==> r[i] != "" && r[i] in xs
    ensures forall x :: x in xs && x != "" ==> x in r
  {
    if xs == [] then []
    else (if xs[0] != "" then [xs[0]] else []) + NonEmpty(xs[1..])
  }

  /** Each string of a list trimmed, in order. */
  function TrimEach(xs: seq<string>): (r: seq<string>)
    ensures |r| == |xs| && forall i :: 0 <= i < |xs| ==> r[i] == Trim(xs[i])
  {
    if xs == [] then [] else [Trim(xs[0])] + TrimEach(xs[1..])
  }

  /** `core.getMultilineInput`: the input's lines that are not empty, each trimmed unless trimming
      is switched off (a line of blanks survives the filter and then trims to ""). */
  function CoreGetMultilineInput(inputs: map<string, string>, name: string, options: InputOptions): (r: Result<seq<string>>)
    ensures r.Err? <==> CoreGetInput(inputs, name, options).Err?
  {
    var v :- CoreGetInput(inputs, name, options);
    var lines := NonEmpty(Split(v, '\n'));
    if options.trimWhitespace then Ok(TrimEach(lines)) else Ok(lines)
  }

  /** `${value}` of a boolean or `undefined`. */
  function OptBoolText(b: Option<bool>): string
  {
    match b
    case None => "undefined"
    case Some(true) => "true"
    case Some(false) => "false"
  }

  /** `${value}` of a string or `undefined`. */
  function OptText(s: Option<string>): string
  {
    match s
    case None => "undefined"
    case Some(t) => t
  }

  /** Characters `JSON.stringify` escapes inside a string literal. */
  function JsonChar(ch: char): string
  {
    if ch == '"' then "\\\""
    else if ch == '\\' then "\\\\"
    else if ch == '\n' then "\\n"
    else if ch == '\r' then "\\r"
    else if ch == '\t' then "\\t"
    else if ch == '\U{8}' then "\\b"
    else if ch == '\U{C}' then "\\f"
    else if (ch as int) < 0x20 then
      var hex := "0123456789abcdef";
      "\\u00" + [hex[(ch as int) / 16], hex[(ch as int) % 16]]
    else [ch]
  }

  /** `JSON.stringify` of a string. */
  function JsonString(s: string): string
  {
    "\"" + JsonBody(s) + "\""
  }

  function JsonBody(s: string): string
  {
    if s == [] then "" else JsonChar(s[0]) + JsonBody(s[1..])
  }

  /** `JSON.stringify` of an array of strings. */
  function JsonStringArray(xs: seq<string>): string
  {
    "[" + Join(StringLiterals(xs), ",") + "]"
  }

  function StringLiterals(xs: seq<string>): seq<string>
  {
    if xs == [] then [] else [JsonString(xs[0])] + StringLiterals(xs[1..])
  }

  /** A value of the run-state; a name never saved reads as empty. */
  function Recorded(state: map<string, string>, name: string): (v: string)
    ensures name in state ==> v == state[name]
    ensures name !in state ==> v == ""
  {
    if name in state then state[name] else ""
  }

  /** The runner. Inputs and the debug flag (`isDebug()`) are fixed for a step; the run-state
      store is what the main step saved and the post step reads; the trace records effects. */
  class Host {
    const inputs: map<string, string>
    const debug: bool
    var state: map<string, string>
    var trace: seq<Event>

    constructor (inputs: map<string, string>, debug: bool, state: map<string, string>)
      ensures this.inputs == inputs && this.debug == debug && this.state == state && trace == []
    {
      this.inputs := inputs;
      this.debug := debug;
      this.state := state;
      trace := [];
    }

    /** Records one effect. */
    method Emit(e: Event)
      modifies this
      ensures trace == old(trace) + [e] && state == old(state)
    {
      trace := trace + [e];
    }

    /** Records effects in order. */
    method EmitAll(es: seq<Event>)
      modifies this
      ensures trace == old(trace) + es && state == old(state)
    {
      trace := trace + es;
    }

    /** `core.saveState(name, value)`. */
    method SaveState(name: string, value: string)
      modifies this
      ensures state == old(state)[name := value]
      ensures trace == old(trace) + [StateSaved(name, value)]
    {
      state := state[name := value];
      trace := trace + [StateSaved(name, value)];
    }

    /** `core.getState(name)`: the saved value, or "" when none was saved. */
    function GetState(name: string): string
      reads this
    {
      Recorded(state, name)
    }

    /** `core.getIDToken(audience)`: the URL is logged, the request is recorded, the runner
        answers, and a token received is masked before it is returned. */
    method GetIdToken(ext: Externals, audience: Option<string>) returns (r: Result<string>)
      modifies this
      ensures r == ext.idTokens(audience) && r == IdTokenEffects(ext, audience).result
      ensures trace == old(trace) + IdTokenEffects(ext, audience).events && state == old(state)
    {
      ghost var t0 := trace;
      Emit(Log(Debug, IdTokenUrlIs + IdTokenUrl(ext.idTokenUrl, audience)));
      Emit(IdTokenRequested(audience));
      AppendTwo(t0, Log(Debug, IdTokenUrlIs + IdTokenUrl(ext.idTokenUrl, audience)), IdTokenRequested(audience));
      r := ext.idTokens(audience);
      if r.Ok? {
        Emit(Secret(r.value));
      }
    }

    /** `acquireTokenByClientCredential({ scopes })` of an application built from `config`: the
        request is recorded, the token service answers. */
    method AcquireToken(ext: Externals, config: AuthConfig, scopes: seq<string>) returns (outcome: TokenOutcome)
      modifies this
      ensures outcome == ext.tokens(config, scopes)
      ensures trace == old(trace) + [TokenRequested(config, scopes)] && state == old(state)
    {
      Emit(TokenRequested(config, scopes));
      outcome := ext.tokens(config, scopes);
    }

    /** `exec(command, args, { cwd, ignoreReturnCode })`: a non-zero exit code rejects unless the
        caller asked to ignore it. */
    method RunCommand(ext: Externals, command: string, args: seq<string>, cwd: Option<string>, ignoreReturnCode: bool)
      returns (r: Result<ProcessResult>)
      modifies this
      ensures r.Ok? ==> r.value == ext.processes(command, args, cwd)
      ensures r.Err? <==> ext.processes(command, args, cwd).exitCode != 0 && !ignoreReturnCode
      ensures r.Err? ==> r.error == ExecError(command)
      ensures trace == old(trace) + [Exec(command, args, cwd)] && state == old(state)
    {
      Emit(Exec(command, args, cwd));
      var result := ext.processes(command, args, cwd);
      if result.exitCode != 0 && !ignoreReturnCode {
        r := Err(ExecError(command));
      } else {
        r := Ok(result);
      }
    }
  }
}
