/** `@thnetii/gh-actions-core-helpers`: input and state getters that log what they read at debug
    level, a lenient boolean getter, and the `npm exec` argument list built from the shared
    `npm-*` inputs. */
module CoreHelpers {
  import opened Wrappers
  import opened JsStrings
  import opened ActionsCore

  /** The lenient `getBooleanInput`: an empty input that is not required is `undefined` and the
      strict parser is not consulted; otherwise the strict parser decides. */
  function BooleanInput(inputs: map<string, string>, name: string, options: InputOptions): (r: Result<Option<bool>>)
    ensures r == Ok(None) <==> CoreGetInput(inputs, name, options) == Ok("") && !options.required
    ensures r.Ok? && r.value.Some? ==> CoreGetBooleanInput(inputs, name, options) == Ok(r.value.value)
    ensures CoreGetInput(inputs, name, options).Err? ==> r.Err?
    ensures r.Err? && CoreGetInput(inputs, name, options).Ok? ==> CoreGetBooleanInput(inputs, name, options).Err?
  {
    var valString :- CoreGetInput(inputs, name, options);
    if valString == "" && !options.required then Ok(None)
    else
      var b :- CoreGetBooleanInput(inputs, name, options);
      Ok(Some(b))
  }

  /** The debug line the getters log for an input. */
  function InputLine(name: string, text: string): Event
  {
    Log(Debug, "INPUT " + name + ": " + text)
  }

  /** `getInput`, logging `INPUT <name>: <value>`. */
  method GetInput(host: Host, name: string, options: InputOptions) returns (r: Result<string>)
    modifies host
    ensures r == CoreGetInput(host.inputs, name, options)
    ensures host.trace == old(host.trace) + (if r.Ok? then [InputLine(name, r.value)] else [])
    ensures OnlyDebugAdded(old(host.trace), host.trace)
    ensures host.state == old(host.state)
  {
    r := CoreGetInput(host.inputs, name, options);
    if r.Ok? {
      host.Emit(InputLine(name, r.value));
    }
  }

  /** `getMultilineInput`, logging the lines as a JSON array. */
  method GetMultilineInput(host: Host, name: string, options: InputOptions) returns (r: Result<seq<string>>)
    modifies host
    ensures r == CoreGetMultilineInput(host.inputs, name, options)
    ensures host.trace == old(host.trace) + (if r.Ok? then [InputLine(name, JsonStringArray(r.value))] else [])
    ensures OnlyDebugAdded(old(host.trace), host.trace)
    ensures host.state == old(host.state)
  {
    r := CoreGetMultilineInput(host.inputs, name, options);
    if r.Ok? {
      host.Emit(InputLine(name, JsonStringArray(r.value)));
    }
  }

  /** The lenient `getBooleanInput`, logging `INPUT <name>: <true|false|undefined>`. */
  method GetBooleanInput(host: Host, name: string, options: InputOptions) returns (r: Result<Option<bool>>)
    modifies host
    ensures r == BooleanInput(host.inputs, name, options)
    ensures host.trace == old(host.trace) + (if r.Ok? then [InputLine(name, OptBoolText(r.value))] else [])
    ensures OnlyDebugAdded(old(host.trace), host.trace)
    ensures host.state == old(host.state)
  {
    r := BooleanInput(host.inputs, name, options);
    if r.Ok? {
      host.Emit(InputLine(name, OptBoolText(r.value)));
    }
  }

  /** `getState`, logging `STATE <name>: <value>`; the value is the saved one, unchanged. */
  method GetState(host: Host, name: string) returns (value: string)
    modifies host
    ensures value == host.GetState(name)
    ensures host.trace == old(host.trace) + [Log(Debug, "STATE " + name + ": " + value)]
    ensures OnlyDebugAdded(old(host.trace), host.trace)
    ensures host.state == old(host.state)
  {
    value := host.GetState(name);
    host.Emit(Log(Debug, "STATE " + name + ": " + value));
  }

  /** `--package=<p>` for each package, in order. */
  function PackageArgs(packages: seq<string>): (args: seq<string>)
    ensures |args| == |packages|
    ensures forall i :: 0 <= i < |packages| ==> args[i] == "--package=" + packages[i]
  {
    seq(|packages|, i requires 0 <= i < |packages| => "--package=" + packages[i])
  }

  /** `--workspace`, `w` for each workspace, in order (`flatMap((w) => ['--workspace', w])`). */
  function WorkspaceArgs(workspaces: seq<string>): (args: seq<string>)
    ensures |args| == 2 * |workspaces|
    ensures forall i :: 0 <= i < |workspaces| ==> args[2 * i] == "--workspace" && args[2 * i + 1] == workspaces[i]
  {
    seq(2 * |workspaces|, k requires 0 <= k < 2 * |workspaces| => if k % 2 == 0 then "--workspace" else workspaces[k / 2])
  }

  const AllowInstallInput := "npm-exec-allow-package-install"
  const PackagesInput := "npm-exec-packages"
  const WorkspaceInput := "npm-workspace"
  const WorkspacesInput := "npm-workspaces"
  const IncludeRootInput := "npm-include-workspace-root"

  /** The values `getNpmExecArguments()` reads, in the order it reads them: `npm-workspaces` only
      when no workspace is listed, `npm-include-workspace-root` only when `npm-workspaces` is true
      (an input that is not read is `None`). */
  datatype NpmExecInputs = NpmExecInputs(
    allowInstall: Option<bool>,
    packages: seq<string>,
    workspace: seq<string>,
    workspaces: Option<bool>,
    includeRoot: Option<bool>)

  /** `npm-workspaces`, and `npm-include-workspace-root` only when that is true (read when no
      workspace is listed). */
  function WorkspaceFlags(inputs: map<string, string>): Result<(Option<bool>, Option<bool>)>
  {
    match BooleanInput(inputs, WorkspacesInput, NoOptions)
    case Err(e) => Err(e)
    case Ok(workspaces) =>
      if workspaces == Some(true) then
        match BooleanInput(inputs, IncludeRootInput, NoOptions)
        case Err(e) => Err(e)
        case Ok(includeRoot) => Ok((workspaces, includeRoot))
      else Ok((workspaces, None))
  }

  /** Reading the `npm-*` inputs; a boolean input that is not a core-schema spelling fails (the
      list inputs are not required, so reading them cannot fail). */
  function ReadNpmExecInputs(inputs: map<string, string>): Result<NpmExecInputs>
  {
    match BooleanInput(inputs, AllowInstallInput, NoOptions)
    case Err(e) => Err(e)
    case Ok(allowInstall) =>
      var packages := CoreGetMultilineInput(inputs, PackagesInput, NoOptions).value;
      var workspace := CoreGetMultilineInput(inputs, WorkspaceInput, NoOptions).value;
      if |workspace| > 0 then Ok(NpmExecInputs(allowInstall, packages, workspace, None, None))
      else
        match WorkspaceFlags(inputs)
        case Err(e) => Err(e)
        case Ok(flags) => Ok(NpmExecInputs(allowInstall, packages, workspace, flags.0, flags.1))
  }

  /** The `npm exec` arguments for the values read. */
  function NpmExecArgs(v: NpmExecInputs): seq<string>
  {
    var head := ["exec"] + (if v.allowInstall == Some(true) then ["--yes"] else []) + PackageArgs(v.packages);
    if |v.workspace| > 0 then head + WorkspaceArgs(v.workspace)
    else if v.workspaces == Some(true) then
      head + ["--workspaces"] + (if v.includeRoot == Some(true) then ["--include-workspace-root"] else [])
    else head
  }

  /** The arguments start with `exec`, then `--yes` exactly when package installation is allowed,
      then one `--package=<p>` per listed package in input order. */
  lemma NpmExecArgsPrefix(v: NpmExecInputs)
    ensures var args := NpmExecArgs(v);
            var k := if v.allowInstall == Some(true) then 2 else 1;
            && |args| >= k + |v.packages|
            && args[0] == "exec"
            && (v.allowInstall == Some(true) <==> args[1..k] == ["--yes"])
            && forall i :: 0 <= i < |v.packages| ==> args[k + i] == "--package=" + v.packages[i]
  {
    var args := NpmExecArgs(v);
    var allow := v.allowInstall == Some(true);
    var k := if allow then 2 else 1;
    var head := ["exec"] + (if allow then ["--yes"] else []) + PackageArgs(v.packages);
    assert args[..|head|] == head;
    if !allow {
      assert args[1..k] == [];
    }
  }

  /** A package argument is never one of the workspace flags. */
  lemma PackageArgIsNotAFlag(p: string)
    ensures "--package=" + p != "--workspaces" && "--package=" + p != "--include-workspace-root"
  {
    var a := "--package=" + p;
    assert a[2] == 'p';
  }

  /** With workspaces listed, the tail is `--workspace w` per entry and `--workspaces` is not
      added; without, `--include-workspace-root` can only be the last argument, right after
      `--workspaces`, and only when `npm-workspaces` is true. */
  lemma NpmExecArgsWorkspaces(v: NpmExecInputs)
    ensures var args := NpmExecArgs(v);
            && (|v.workspace| > 0 ==> (args[|args| - 2 * |v.workspace|..] == WorkspaceArgs(v.workspace)
                                       && "--workspaces" !in args[..|args| - 2 * |v.workspace|]))
            && (|v.workspace| == 0 ==> ("--workspaces" in args <==> v.workspaces == Some(true)))
            && (|v.workspace| == 0 ==> forall k :: 0 <= k < |args| && args[k] == "--include-workspace-root" ==>
                                     k == |args| - 1 && k >= 1 && args[k - 1] == "--workspaces")
  {
    var args := NpmExecArgs(v);
    var head := ["exec"] + (if v.allowInstall == Some(true) then ["--yes"] else []) + PackageArgs(v.packages);
    assert forall i :: 0 <= i < |head| ==> head[i] != "--workspaces" && head[i] != "--include-workspace-root" by {
      forall i | 0 <= i < |head| ensures head[i] != "--workspaces" && head[i] != "--include-workspace-root" {
        if i >= |head| - |v.packages| {
          PackageArgIsNotAFlag(v.packages[i - (|head| - |v.packages|)]);
        }
      }
    }
    if |v.workspace| > 0 {
      assert args[..|args| - 2 * |v.workspace|] == head;
    } else {
      assert args[..|head|] == head;
    }
  }

  /** The reads of `getNpmExecArguments()`, in its order, each logging its debug line. */
  method ReadNpmExecInputsFrom(host: Host) returns (r: Result<NpmExecInputs>)
    modifies host
    ensures r == ReadNpmExecInputs(host.inputs)
    ensures OnlyDebugAdded(old(host.trace), host.trace)
    ensures host.state == old(host.state)
  {
    ghost var t0 := host.trace;
    var allowInstall :- GetBooleanInput(host, AllowInstallInput, NoOptions);
    ghost var t1 := host.trace;
    var packages := GetMultilineInput(host, PackagesInput, NoOptions);
    OnlyDebugAddedTrans(t0, t1, host.trace);
    ghost var t2 := host.trace;
    var workspace := GetMultilineInput(host, WorkspaceInput, NoOptions);
    OnlyDebugAddedTrans(t0, t2, host.trace);
    if |workspace.value| > 0 {
      return Ok(NpmExecInputs(allowInstall, packages.value, workspace.value, None, None));
    }
    ghost var t3 := host.trace;
    var workspaces := GetBooleanInput(host, WorkspacesInput, NoOptions);
    OnlyDebugAddedTrans(t0, t3, host.trace);
    if workspaces.Err? {
      return Err(workspaces.error);
    }
    if workspaces.value != Some(true) {
      return Ok(NpmExecInputs(allowInstall, packages.value, workspace.value, workspaces.value, None));
    }
    ghost var t4 := host.trace;
    var includeRoot := GetBooleanInput(host, IncludeRootInput, NoOptions);
    OnlyDebugAddedTrans(t0, t4, host.trace);
    if includeRoot.Err? {
      return Err(includeRoot.error);
    }
    r := Ok(NpmExecInputs(allowInstall, packages.value, workspace.value, workspaces.value, includeRoot.value));
  }

  /** The appending of `getNpmExecArguments()`: `exec`, `--yes`, one push per package, then the
      workspace arguments. */
  method BuildNpmExecArgs(v: NpmExecInputs) returns (npmExecArgs: seq<string>)
    ensures npmExecArgs == NpmExecArgs(v)
  {
    npmExecArgs := ["exec"];
    if v.allowInstall == Some(true) {
      npmExecArgs := npmExecArgs + ["--yes"];
    }
    var base := npmExecArgs;
    for i := 0 to |v.packages|
      invariant npmExecArgs == base + PackageArgs(v.packages[..i])
    {
      assert PackageArgs(v.packages[..i + 1]) == PackageArgs(v.packages[..i]) + ["--package=" + v.packages[i]];
      npmExecArgs := npmExecArgs + ["--package=" + v.packages[i]];
    }
    assert v.packages[..|v.packages|] == v.packages;
    if |v.workspace| > 0 {
      npmExecArgs := npmExecArgs + WorkspaceArgs(v.workspace);
    } else if v.workspaces == Some(true) {
      npmExecArgs := npmExecArgs + ["--workspaces"];
      if v.includeRoot == Some(true) {
        npmExecArgs := npmExecArgs + ["--include-workspace-root"];
      }
    }
  }

  /** `getNpmExecArguments()`; it logs only the debug lines of the getters. */
  method GetNpmExecArguments(host: Host) returns (r: Result<seq<string>>)
    modifies host
    ensures r.Ok? <==> ReadNpmExecInputs(host.inputs).Ok?
    ensures r.Ok? ==> r.value == NpmExecArgs(ReadNpmExecInputs(host.inputs).value)
    ensures r.Err? ==> r.error == ReadNpmExecInputs(host.inputs).error
    ensures OnlyDebugAdded(old(host.trace), host.trace)
    ensures host.state == old(host.state)
  {
    var v :- ReadNpmExecInputsFrom(host);
    var args := BuildNpmExecArgs(v);
    r := Ok(args);
  }
}
