/** The `gh-actions-prettier` action (`action.js`): run `prettier --list-different` through
    `npm exec`, annotate every file it lists with a warning, summarise its exit code, and pass the
    exit code on. The path operations and the working directory of the process are parameters. */
module PrettierAction {
  import opened Wrappers
  import opened JsStrings
  import opened ActionsCore
  import opened CoreHelpers

  const ArgumentsInput := "arguments"
  const WorkingDirectoryInput := "working-directory"
  const WorkspaceInput := "github-workspace"
  const ExitCodeOutput := "prettier-exitcode"
  const MessagePrefix := "Prettier: "
  const IssuesPrefix := "Code style issues found in '"
  const FormattedTitle := "Everything formatted properly"
  const UnformattedTitle := "Something wasn't formatted properly"
  const BrokenTitle := "Something's wrong with Prettier"

  /** `path.relative`, `path.resolve`, `path.join` and `process.cwd()`. */
  datatype PathOps = PathOps(relative: (string, string) -> string, resolve: string -> string, join: (string, string) -> string,
                             cwd: string)

  /** The prettier invocation `npm exec` runs. */
  const PrettierCommand: seq<string> := ["--", "prettier", "--list-different"]

  /** What prettier checks when no argument is given. */
  const DefaultTarget: seq<string> := ["."]

  /** The arguments of `npm`: the `npm exec` arguments, the prettier invocation, then the user's
      arguments, or `.` when there are none. */
  function InvocationArgs(npmExecArgs: seq<string>, prettierArgs: seq<string>): seq<string>
  {
    npmExecArgs + PrettierCommand + (if |prettierArgs| > 0 then prettierArgs else DefaultTarget)
  }

  /** The `npm exec` arguments come first and are kept as they are, then `-- prettier
      --list-different`, then exactly the user's arguments, or `.` in their place when there are
      none. */
  lemma InvocationArgsContract(npmExecArgs: seq<string>, prettierArgs: seq<string>)
    ensures var args := InvocationArgs(npmExecArgs, prettierArgs);
            var n := |npmExecArgs|;
            && |args| >= n + 4 && args[..n] == npmExecArgs
            && args[n..n + 3] == ["--", "prettier", "--list-different"]
            && (|prettierArgs| > 0 ==> args[n + 3..] == prettierArgs)
            && (|prettierArgs| == 0 ==> args[n + 3..] == ["."])
  {
    var rest := if |prettierArgs| > 0 then prettierArgs else DefaultTarget;
    PartsOfThree(npmExecArgs, PrettierCommand, rest);
  }

  /** The pushes onto `npmExecArgs`. */
  method PrettierArguments(npmExecArgs: seq<string>, prettierArgs: seq<string>) returns (args: seq<string>)
    ensures args == InvocationArgs(npmExecArgs, prettierArgs)
  {
    args := npmExecArgs;
    args := args + PrettierCommand;
    if |prettierArgs| > 0 {
      args := args + prettierArgs;
    } else {
      args := args + DefaultTarget;
    }
  }

  // ---- the file list prettier prints ----

  predicate IsLineBreak(ch: char)
  {
    ch == '\r' || ch == '\n'
  }

  predicate BreakFree(s: string)
  {
    forall i :: 0 <= i < |s| ==> !IsLineBreak(s[i])
  }

  /** The index of the first CR or LF, or the length. */
  function FirstBreak(s: string): (k: nat)
    ensures k <= |s| && BreakFree(s[..k])
    ensures k < |s| ==> IsLineBreak(s[k])
  {
    if s == [] || IsLineBreak(s[0]) then 0
    else
      var k := 1 + FirstBreak(s[1..]);
      assert forall i :: 1 <= i < k ==> s[..k][i] == s[1..][..k - 1][i - 1];
      k
  }

  /** `s` without its leading CR and LF characters. */
  function SkipBreaks(s: string): (r: string)
    ensures |r| <= |s| && r == s[|s| - |r|..]
    ensures r != [] ==> !IsLineBreak(r[0])
  {
    if s != [] && IsLineBreak(s[0]) then SkipBreaks(s[1..]) else s
  }

  /** `s.split(/[\r\n]+/)`: the pieces between the maximal runs of CR and LF. */
  function SplitLineBreaks(s: string): (pieces: seq<string>)
    ensures |pieces| >= 1
    ensures forall i :: 0 <= i < |pieces| ==> BreakFree(pieces[i])
    decreases |s|
  {
    var k := FirstBreak(s);
    if k == |s| then
      assert s[..k] == s;
      [s]
    else [s[..k]] + SplitLineBreaks(SkipBreaks(s[k + 1..]))
  }

  /** `prettierOutput.split(/[\r\n]+/).map((l) => l.trim()).filter((l) => !!l)`. */
  function ListedFiles(stdout: string): seq<string>
  {
    NonEmpty(TrimEach(SplitLineBreaks(stdout)))
  }

  /** Every listed file is non-empty, has no white space at either end, and holds no line
      break. */
  lemma ListedFilesContract(stdout: string)
    ensures forall i :: 0 <= i < |ListedFiles(stdout)| ==>
              var f := ListedFiles(stdout)[i]; f != "" && Trim(f) == f && BreakFree(f)
  {
    var pieces := SplitLineBreaks(stdout);
    var trimmed := TrimEach(pieces);
    forall i | 0 <= i < |ListedFiles(stdout)|
      ensures var f := ListedFiles(stdout)[i]; f != "" && Trim(f) == f && BreakFree(f)
    {
      var f := ListedFiles(stdout)[i];
      var j :| 0 <= j < |trimmed| && trimmed[j] == f;
      TrimIdempotent(pieces[j]);
      TrimmedBreakFree(pieces[j]);
    }
  }

  /** Trimming keeps a piece free of line breaks. */
  lemma TrimmedBreakFree(s: string)
    requires BreakFree(s)
    ensures BreakFree(Trim(s))
  {
    TrimTrims(s);
    var r := Trim(s);
    var at := |s| - |TrimStart(s)|;
    forall k | 0 <= k < |r| ensures !IsLineBreak(r[k]) {
      assert r[k] == s[at..at + |r|][k] == s[at + k];
    }
  }

  /** The first line break of `a + b` when `a` has none and `b` starts with one. */
  lemma {:induction false} FirstBreakAfter(a: string, b: string)
    requires BreakFree(a) && b != [] && IsLineBreak(b[0])
    ensures FirstBreak(a + b) == |a|
  {
    if a != [] {
      assert (a + b)[1..] == a[1..] + b;
      FirstBreakAfter(a[1..], b);
    }
  }

  /** A '\n'-joined list of non-empty lines without line breaks splits back into those lines. */
  lemma {:induction false} SplitJoinedLines(lines: seq<string>)
    requires |lines| >= 1
    requires forall i :: 0 <= i < |lines| ==> lines[i] != "" && BreakFree(lines[i])
    ensures SplitLineBreaks(Join(lines, "\n")) == lines
  {
    var f := lines[0];
    if |lines| == 1 {
      assert BreakFree(f + []) by { assert f + [] == f; }
      FirstBreakAfterEnd(f);
    } else {
      var rest := Join(lines[1..], "\n");
      var s := Join(lines, "\n");
      assert s == f + ("\n" + rest);
      FirstBreakAfter(f, "\n" + rest);
      assert s[..|f|] == f;
      assert s[|f| + 1..] == rest;
      JoinStartsWith(lines[1..]);
      assert SkipBreaks(rest) == rest;
      SplitJoinedLines(lines[1..]);
      assert [f] + lines[1..] == lines;
    }
  }

  /** A string with no line break is one piece. */
  lemma {:induction false} FirstBreakAfterEnd(s: string)
    requires BreakFree(s)
    ensures FirstBreak(s) == |s|
  {
    if s != [] {
      FirstBreakAfterEnd(s[1..]);
    }
  }

  /** A join of lines starts with the first line. */
  lemma JoinStartsWith(lines: seq<string>)
    requires |lines| >= 1
    ensures |Join(lines, "\n")| >= |lines[0]| && Join(lines, "\n")[..|lines[0]|] == lines[0]
  {
  }

  /** The strings of a list none of which is empty are kept as they are. */
  lemma {:induction false} NonEmptyKeepsAll(xs: seq<string>)
    requires forall i :: 0 <= i < |xs| ==> xs[i] != ""
    ensures NonEmpty(xs) == xs
  {
    if xs != [] {
      NonEmptyKeepsAll(xs[1..]);
      assert [xs[0]] + xs[1..] == xs;
    }
  }

  /** Reading back a printed file list: file names that are non-empty, carry no white space at
      either end and hold no line break, printed one per line, are listed as they are, in order
      (and an empty output lists nothing). */
  lemma ListedFilesRoundTrip(files: seq<string>)
    requires forall i :: 0 <= i < |files| ==> files[i] != "" && Trim(files[i]) == files[i] && BreakFree(files[i])
    ensures ListedFiles(Join(files, "\n")) == files
  {
    if files == [] {
      ListedNothing();
    } else {
      SplitJoinedLines(files);
      TrimEachKeeps(files);
      NonEmptyKeepsAll(files);
    }
  }

  /** An empty output lists no file. */
  lemma ListedNothing()
    ensures ListedFiles("") == []
  {
    assert SplitLineBreaks("") == [""];
    assert Trim("") == "";
    assert TrimEach([""]) == [""];
  }

  /** Trimming leaves trimmed strings as they are. */
  lemma TrimEachKeeps(xs: seq<string>)
    requires forall i :: 0 <= i < |xs| ==> Trim(xs[i]) == xs[i]
    ensures TrimEach(xs) == xs
  {
  }

  // ---- the report ----

  /** The warning for one listed file: its path joined to the workspace-relative prefix. */
  function FileWarning(prefix: string, fileRel: string, join: (string, string) -> string): Event
  {
    var filePath := join(prefix, fileRel);
    var title := IssuesPrefix + filePath + "'";
    Annotated(Warning, MessagePrefix + title, title, Some(filePath))
  }

  /** The warnings for a list of files, in order. */
  function Warnings(prefix: string, files: seq<string>, join: (string, string) -> string): seq<Event>
  {
    if files == [] then []
    else Warnings(prefix, files[..|files| - 1], join) + [FileWarning(prefix, files[|files| - 1], join)]
  }

  /** One warning per file, the `i`-th for the `i`-th file. */
  lemma {:induction false} WarningsContract(prefix: string, files: seq<string>, join: (string, string) -> string)
    ensures |Warnings(prefix, files, join)| == |files|
    ensures forall i :: 0 <= i < |files| ==> Warnings(prefix, files, join)[i] == FileWarning(prefix, files[i], join)
  {
    if files != [] {
      WarningsContract(prefix, files[..|files| - 1], join);
    }
  }

  /** The summary annotation of an exit code. */
  function Summary(exitCode: int): seq<Event>
  {
    if exitCode == 0 then [Annotated(Notice, MessagePrefix + FormattedTitle, FormattedTitle, None)]
    else if exitCode == 1 then [Annotated(Level.Error, MessagePrefix + UnformattedTitle, UnformattedTitle, None)]
    else if exitCode == 2 then [Annotated(Notice, MessagePrefix + BrokenTitle, BrokenTitle, None)]
    else []
  }

  /** What the `.then` callback records for prettier's exit code and the files it listed. */
  function ReportEvents(exitCode: int, files: seq<string>, prefix: string, join: (string, string) -> string): seq<Event>
  {
    Warnings(prefix, files, join) + Summary(exitCode) + [Output(ExitCodeOutput, NumberOutput(exitCode)), ExitCodeSet(exitCode)]
  }

  /** A notice for exit codes 0 and 2, an error for 1, nothing for any other code; never a
      warning. */
  lemma SummaryContract(exitCode: int)
    ensures |Summary(exitCode)| <= 1
    ensures exitCode == 0 || exitCode == 2 <==> |Summary(exitCode)| == 1 && Summary(exitCode)[0].level == Notice
    ensures exitCode == 1 <==> |Summary(exitCode)| == 1 && Summary(exitCode)[0].level == Level.Error
    ensures forall i :: 0 <= i < |Summary(exitCode)| ==> Summary(exitCode)[i].Annotated? && Summary(exitCode)[i].file.None?
  {
  }

  /** Exactly one warning per listed file, in order, each on that file's path under the prefix;
      then the summary of the exit code; and last the exit code, both as the `prettier-exitcode`
      output and as the process exit code. */
  lemma {:induction false} ReportContract(exitCode: int, files: seq<string>, prefix: string, join: (string, string) -> string)
    ensures var report := ReportEvents(exitCode, files, prefix, join);
            var n := |files|;
            && |report| == n + |Summary(exitCode)| + 2
            && (forall i :: 0 <= i < n ==>
                  report[i] == Annotated(Warning, MessagePrefix + IssuesPrefix + join(prefix, files[i]) + "'",
                                         IssuesPrefix + join(prefix, files[i]) + "'", Some(join(prefix, files[i]))))
            && report[n..n + |Summary(exitCode)|] == Summary(exitCode)
            && report[|report| - 2] == Output(ExitCodeOutput, NumberOutput(exitCode))
            && report[|report| - 1] == ExitCodeSet(exitCode)
  {
    WarningsContract(prefix, files, join);
    var w := Warnings(prefix, files, join);
    var tail := [Output(ExitCodeOutput, NumberOutput(exitCode)), ExitCodeSet(exitCode)];
    PartsOfThree(w, Summary(exitCode), tail);
  }

  /** The three parts of a concatenation are found where they were put. */
  lemma PartsOfThree<T>(a: seq<T>, b: seq<T>, c: seq<T>)
    ensures var s := a + b + c;
            && |s| == |a| + |b| + |c|
            && s[..|a|] == a && s[|a|..|a| + |b|] == b && s[|a| + |b|..] == c
  {
    var s := a + b + c;
    assert s[..|a|] == a;
    assert s[|a|..|a| + |b|] == b;
    assert s[|a| + |b|..] == c;
  }

  /** The report holds one warning per listed file and no other warning: the summary and the
      exit code are not warnings. */
  lemma ReportWarnsOnlyFiles(exitCode: int, files: seq<string>, prefix: string, join: (string, string) -> string)
    ensures var report := ReportEvents(exitCode, files, prefix, join);
            forall i :: |files| <= i < |report| ==> !(report[i].Annotated? && report[i].level == Warning)
  {
    ReportContract(exitCode, files, prefix, join);
    SummaryContract(exitCode);
    var report := ReportEvents(exitCode, files, prefix, join);
    var n := |files|;
    forall i | n <= i < |report| ensures !(report[i].Annotated? && report[i].level == Warning) {
      if i < n + |Summary(exitCode)| {
        assert report[i] == report[n..n + |Summary(exitCode)|][i - n];
      }
    }
  }

  /** The `.then` callback: one warning per listed file, the summary, the output and the exit
      code. */
  method Report(host: Host, exitCode: int, stdout: string, prefix: string, join: (string, string) -> string)
    modifies host
    ensures host.trace == old(host.trace) + ReportEvents(exitCode, ListedFiles(stdout), prefix, join)
    ensures host.state == old(host.state)
  {
    ghost var t0 := host.trace;
    var prettierFiles := ListedFiles(stdout);
    WarnFiles(host, prettierFiles, prefix, join);
    Summarize(host, exitCode);
    host.Emit(Output(ExitCodeOutput, NumberOutput(exitCode)));
    host.Emit(ExitCodeSet(exitCode));
    Assoc3(t0, Warnings(prefix, prettierFiles, join), Summary(exitCode),
           [Output(ExitCodeOutput, NumberOutput(exitCode)), ExitCodeSet(exitCode)]);
  }

  /** The `for` loop over the listed files: one warning each, in order. */
  method WarnFiles(host: Host, prettierFiles: seq<string>, prefix: string, join: (string, string) -> string)
    modifies host
    ensures host.trace == old(host.trace) + Warnings(prefix, prettierFiles, join)
    ensures host.state == old(host.state)
  {
    ghost var t0 := host.trace;
    for i := 0 to |prettierFiles|
      invariant host.trace == t0 + Warnings(prefix, prettierFiles[..i], join)
      invariant host.state == old(host.state)
    {
      var filePath := join(prefix, prettierFiles[i]);
      var title := IssuesPrefix + filePath + "'";
      host.Emit(Annotated(Warning, MessagePrefix + title, title, Some(filePath)));
      assert prettierFiles[..i + 1][..i] == prettierFiles[..i];
    }
    assert prettierFiles[..|prettierFiles|] == prettierFiles;
  }

  /** The annotation of the exit code. */
  method Summarize(host: Host, exitCode: int)
    modifies host
    ensures host.trace == old(host.trace) + Summary(exitCode)
    ensures host.state == old(host.state)
  {
    if exitCode == 0 {
      var title := FormattedTitle;
      host.Emit(Annotated(Notice, MessagePrefix + title, title, None));
    }
    if exitCode == 1 {
      var title := UnformattedTitle;
      host.Emit(Annotated(Level.Error, MessagePrefix + title, title, None));
    }
    if exitCode == 2 {
      var title := BrokenTitle;
      host.Emit(Annotated(Notice, MessagePrefix + title, title, None));
    }
  }

  /** Regrouping a trace extended three times. */
  lemma Assoc3<T>(t: seq<T>, a: seq<T>, b: seq<T>, c: seq<T>)
    ensures t + a + b + c == t + (a + b + c)
  {
  }

  /** The inputs of the action, as read. */
  datatype PrettierInputs = PrettierInputs(prettierArgs: seq<string>, prettierCwd: string, workspace: string,
                                           npmExecArgs: seq<string>)

  /** The inputs read in order: `arguments`, `working-directory`, `github-workspace`, then the
      `npm exec` arguments, the only step that can fail. */
  function PrettierInputsOf(inputs: map<string, string>): (r: Result<PrettierInputs>)
    ensures r.Ok? <==> ReadNpmExecInputs(inputs).Ok?
    ensures r.Err? ==> r.error == ReadNpmExecInputs(inputs).error
    ensures r.Ok? ==> r.value.npmExecArgs == NpmExecArgs(ReadNpmExecInputs(inputs).value)
    ensures r.Ok? ==> Ok(r.value.prettierArgs) == CoreGetMultilineInput(inputs, ArgumentsInput, NoOptions)
    ensures r.Ok? ==> Ok(r.value.prettierCwd) == CoreGetInput(inputs, WorkingDirectoryInput, NoOptions)
    ensures r.Ok? ==> Ok(r.value.workspace) == CoreGetInput(inputs, WorkspaceInput, NoOptions)
  {
    match ReadNpmExecInputs(inputs)
    case Err(e) => Err(e)
    case Ok(v) =>
      Ok(PrettierInputs(CoreGetMultilineInput(inputs, ArgumentsInput, NoOptions).value,
                        CoreGetInput(inputs, WorkingDirectoryInput, NoOptions).value,
                        CoreGetInput(inputs, WorkspaceInput, NoOptions).value, NpmExecArgs(v)))
  }

  /** Reading the inputs, each logged at debug level. */
  method ReadPrettierInputs(host: Host) returns (r: Result<PrettierInputs>)
    modifies host
    ensures r == PrettierInputsOf(host.inputs)
    ensures OnlyDebugAdded(old(host.trace), host.trace)
    ensures host.state == old(host.state)
  {
    ghost var t0 := host.trace;
    var prettierArgs := GetMultilineInput(host, ArgumentsInput, NoOptions);
    ghost var t1 := host.trace;
    var prettierCwd := GetInput(host, WorkingDirectoryInput, NoOptions);
    OnlyDebugAddedTrans(t0, t1, host.trace);
    ghost var t2 := host.trace;
    var workspace := GetInput(host, WorkspaceInput, NoOptions);
    OnlyDebugAddedTrans(t0, t2, host.trace);
    ghost var t3 := host.trace;
    var npmExecArgs := GetNpmExecArguments(host);
    OnlyDebugAddedTrans(t0, t3, host.trace);
    if npmExecArgs.Err? {
      return Err(npmExecArgs.error);
    }
    r := Ok(PrettierInputs(prettierArgs.value, prettierCwd.value, workspace.value, npmExecArgs.value));
  }

  /** What the action records after reading its inputs: the `npm exec … prettier` command, run
      in the working directory, and the report of its exit code and output. */
  function RunTail(v: PrettierInputs, ext: Externals, paths: PathOps): seq<Event>
  {
    var githubWorkspace := if v.workspace != "" then v.workspace else paths.cwd;
    var prefix := paths.relative(githubWorkspace, paths.resolve(v.prettierCwd));
    var args := InvocationArgs(v.npmExecArgs, v.prettierArgs);
    var run := ext.processes("npm", args, Some(v.prettierCwd));
    [Exec("npm", args, Some(v.prettierCwd))] + ReportEvents(run.exitCode, ListedFiles(run.stdout), prefix, paths.join)
  }

  /** The whole action: the inputs (each logged at debug level), `npm exec … prettier` in the
      working directory with its exit code not raised, then the report. It fails only when an
      `npm-*` boolean input is not a core-schema boolean, before running anything. */
  method Run(host: Host, ext: Externals, paths: PathOps) returns (r: Result<()>)
    modifies host
    ensures r.Ok? <==> PrettierInputsOf(host.inputs).Ok?
    ensures r.Err? ==> r.error == PrettierInputsOf(host.inputs).error && OnlyDebugAdded(old(host.trace), host.trace)
    ensures r.Ok? ==>
              var tail := RunTail(PrettierInputsOf(host.inputs).value, ext, paths);
              && |host.trace| >= |old(host.trace)| + |tail|
              && host.trace[|host.trace| - |tail|..] == tail
              && OnlyDebugAdded(old(host.trace), host.trace[..|host.trace| - |tail|])
    ensures host.state == old(host.state)
  {
    var v :- ReadPrettierInputs(host);
    ghost var t := host.trace;
    RunWith(host, v, ext, paths);
    ExtendedBy(t, RunTail(v, ext, paths), host.trace);
    r := Ok(());
  }

  /** The action once its inputs are read: `npm exec … prettier`, then the report. */
  method RunWith(host: Host, v: PrettierInputs, ext: Externals, paths: PathOps)
    modifies host
    ensures host.trace == old(host.trace) + RunTail(v, ext, paths)
    ensures host.state == old(host.state)
  {
    var githubWorkspace := if v.workspace != "" then v.workspace else paths.cwd;
    var args := PrettierArguments(v.npmExecArgs, v.prettierArgs);
    var prettierFilePrefix := paths.relative(githubWorkspace, paths.resolve(v.prettierCwd));
    ghost var t0 := host.trace;
    var exec := host.RunCommand(ext, "npm", args, Some(v.prettierCwd), true);
    Report(host, exec.value.exitCode, exec.value.stdout, prettierFilePrefix, paths.join);
    Assoc2(t0, [Exec("npm", args, Some(v.prettierCwd))],
           ReportEvents(exec.value.exitCode, ListedFiles(exec.value.stdout), prettierFilePrefix, paths.join));
  }

  /** Regrouping a trace extended twice. */
  lemma Assoc2<T>(t: seq<T>, a: seq<T>, b: seq<T>)
    ensures t + a + b == t + (a + b)
  {
  }

  /** An extended trace ends in the extension and starts with what it was. */
  lemma ExtendedBy<T>(t: seq<T>, a: seq<T>, whole: seq<T>)
    requires whole == t + a
    ensures |whole| == |t| + |a|
    ensures whole[|whole| - |a|..] == a && whole[..|whole| - |a|] == t
  {
  }
}
