/** The `git-user-config` action: sets `user.name` and then `user.email` with `git config`,
    globally when asked, in the configured working directory. */
module GitUserConfig {
  import opened Wrappers
  import opened ActionsCore
  import opened CoreHelpers

  const WorkingDirectoryInput := "working-directory"
  const ConfigGlobalInput := "config-global"
  const UserNameInput := "user-name"
  const UserEmailInput := "user-email"
  const Git := "git"
  const UserNameKey := "user.name"
  const UserEmailKey := "user.email"

  /** What the input getters of `readInputs.js` return: `config-global` through the lenient
      boolean getter, `working-directory` as read (never required), and the two required
      inputs. */
  datatype GitUserInputs = GitUserInputs(
    configGlobal: Result<Option<bool>>,
    workingDirectory: string,
    userName: Result<string>,
    userEmail: Result<string>)

  function ReadGitUserInputs(inputs: map<string, string>): GitUserInputs
  {
    GitUserInputs(
      BooleanInput(inputs, ConfigGlobalInput, NoOptions),
      CoreGetInput(inputs, WorkingDirectoryInput, NoOptions).GetOr(""),
      CoreGetInput(inputs, UserNameInput, Required),
      CoreGetInput(inputs, UserEmailInput, Required))
  }

  /** `getInput('working-directory') || undefined`. */
  function WorkingDirectory(text: string): (cwd: Option<string>)
    ensures cwd.None? <==> text == ""
    ensures cwd.Some? ==> cwd.value == text
  {
    if text == "" then None else Some(text)
  }

  /** The `git config` prefix: `config`, then `--global` exactly when asked for. */
  function ConfigArgs(global: Option<bool>): (args: seq<string>)
    ensures |args| >= 1 && args[0] == "config"
    ensures ("--global" in args) <==> global == Some(true)
    ensures |args| == if global == Some(true) then 2 else 1
  {
    ["config"] + (if global == Some(true) then ["--global"] else [])
  }

  /** `git config [--global] <key> <value>` in `cwd`. */
  function UserConfigCommand(global: Option<bool>, cwd: Option<string>, key: string, value: string): Event
  {
    Exec(Git, ConfigArgs(global) + [key, value], cwd)
  }

  /** What `main()` does with the values the getters return and the command outcomes: the input
      reads (each logged), the `user.name` command, and — once that has succeeded — the
      `user.email` command. */
  function GitUserConfigRun(v: GitUserInputs, processes: (string, seq<string>, Option<string>) -> ProcessResult): Effects<()>
  {
    match v.configGlobal
    case Err(e) => Effects([], Err(e))
    case Ok(global) =>
      var cwd := WorkingDirectory(v.workingDirectory);
      var inputLines := [InputLine(ConfigGlobalInput, OptBoolText(global)), InputLine(WorkingDirectoryInput, v.workingDirectory)];
      match v.userName
      case Err(e) => Effects(inputLines, Err(e))
      case Ok(name) =>
        var nameCommand := UserConfigCommand(global, cwd, UserNameKey, name);
        var named := inputLines + [InputLine(UserNameInput, name), nameCommand];
        if processes(Git, nameCommand.args, cwd).exitCode != 0 then Effects(named, Err(ExecError(Git)))
        else match v.userEmail
          case Err(e) => Effects(named, Err(e))
          case Ok(email) =>
            var emailCommand := UserConfigCommand(global, cwd, UserEmailKey, email);
            var all := named + [InputLine(UserEmailInput, email), emailCommand];
            if processes(Git, emailCommand.args, cwd).exitCode != 0 then Effects(all, Err(ExecError(Git)))
            else Effects(all, Ok(()))
  }

  /** At most two commands run, both `git config` with the same prefix and working directory:
      `user.name` with the input value first, then `user.email` with the input value; a
      successful run ran both. */
  lemma GitUserConfigCommands(v: GitUserInputs, processes: (string, seq<string>, Option<string>) -> ProcessResult)
    ensures var run := GitUserConfigRun(v, processes);
            var commands := Project(run.events, IsCommand);
            var cwd := WorkingDirectory(v.workingDirectory);
            && |commands| <= 2
            && (run.result.Ok? ==> |commands| == 2)
            && (|commands| >= 1 ==>
                  && v.configGlobal.Ok? && v.userName.Ok?
                  && commands[0] == UserConfigCommand(v.configGlobal.value, cwd, UserNameKey, v.userName.value))
            && (|commands| == 2 ==>
                  && v.userEmail.Ok?
                  && commands[1] == UserConfigCommand(v.configGlobal.value, cwd, UserEmailKey, v.userEmail.value))
  {
    var run := GitUserConfigRun(v, processes);
    if v.configGlobal.Ok? {
      var global := v.configGlobal.value;
      var cwd := WorkingDirectory(v.workingDirectory);
      var inputLines := [InputLine(ConfigGlobalInput, OptBoolText(global)), InputLine(WorkingDirectoryInput, v.workingDirectory)];
      if v.userName.Err? {
        ProjectNone(inputLines, IsCommand);
      } else {
        var nameCommand := UserConfigCommand(global, cwd, UserNameKey, v.userName.value);
        var named := inputLines + [InputLine(UserNameInput, v.userName.value), nameCommand];
        assert named == (inputLines + [InputLine(UserNameInput, v.userName.value)]) + [nameCommand];
        ProjectLast(inputLines + [InputLine(UserNameInput, v.userName.value)], nameCommand, IsCommand);
        if processes(Git, nameCommand.args, cwd).exitCode == 0 && v.userEmail.Ok? {
          var emailCommand := UserConfigCommand(global, cwd, UserEmailKey, v.userEmail.value);
          assert run.events == named + ([InputLine(UserEmailInput, v.userEmail.value)] + [emailCommand]);
          ProjectLast([InputLine(UserEmailInput, v.userEmail.value)], emailCommand, IsCommand);
          ProjectConcat(named, [InputLine(UserEmailInput, v.userEmail.value)] + [emailCommand], IsCommand);
        } else {
          assert run.events == named;
        }
      }
    }
  }

  /** `main()`: reads the inputs through the getters as it goes and runs the two commands. */
  method Run(host: Host, ext: Externals) returns (r: Result<()>)
    modifies host
    ensures host.trace == old(host.trace) + GitUserConfigRun(ReadGitUserInputs(host.inputs), ext.processes).events
    ensures r == GitUserConfigRun(ReadGitUserInputs(host.inputs), ext.processes).result
    ensures host.state == old(host.state)
  {
    ghost var v := ReadGitUserInputs(host.inputs);
    ghost var t0 := host.trace;
    var useGlobal := GetBooleanInput(host, ConfigGlobalInput, NoOptions);
    if useGlobal.Err? {
      assert GitUserConfigRun(v, ext.processes) == Effects([], Err(useGlobal.error));
      return Err(useGlobal.error);
    }
    var configArgs := ["config"];
    if useGlobal.value == Some(true) {
      configArgs := configArgs + ["--global"];
    }
    assert configArgs == ConfigArgs(useGlobal.value);
    var workingDirectory := GetInput(host, WorkingDirectoryInput, NoOptions);
    assert workingDirectory == Ok(v.workingDirectory);
    ghost var inputLines := [InputLine(ConfigGlobalInput, OptBoolText(useGlobal.value)), InputLine(WorkingDirectoryInput, v.workingDirectory)];
    AppendTwo(t0, inputLines[0], inputLines[1]);
    var cwd := if workingDirectory.value == "" then None else Some(workingDirectory.value);
    assert cwd == WorkingDirectory(v.workingDirectory);
    ghost var t1 := host.trace;
    var userName := GetInput(host, UserNameInput, Required);
    if userName.Err? {
      assert GitUserConfigRun(v, ext.processes) == Effects(inputLines, Err(userName.error));
      return Err(userName.error);
    }
    ghost var nameCommand := UserConfigCommand(useGlobal.value, cwd, UserNameKey, userName.value);
    AppendTwo(t1, InputLine(UserNameInput, userName.value), nameCommand);
    ghost var named := inputLines + [InputLine(UserNameInput, userName.value), nameCommand];
    var nameResult := host.RunCommand(ext, Git, configArgs + [UserNameKey, userName.value], cwd, false);
    assert host.trace == t1 + [InputLine(UserNameInput, userName.value), nameCommand];
    AppendStretches(t0, inputLines, [InputLine(UserNameInput, userName.value), nameCommand]);
    if nameResult.Err? {
      assert GitUserConfigRun(v, ext.processes) == Effects(named, Err(ExecError(Git)));
      return Err(nameResult.error);
    }
    ghost var t2 := host.trace;
    var userEmail := GetInput(host, UserEmailInput, Required);
    if userEmail.Err? {
      assert GitUserConfigRun(v, ext.processes) == Effects(named, Err(userEmail.error));
      return Err(userEmail.error);
    }
    ghost var emailCommand := UserConfigCommand(useGlobal.value, cwd, UserEmailKey, userEmail.value);
    AppendTwo(t2, InputLine(UserEmailInput, userEmail.value), emailCommand);
    ghost var all := named + [InputLine(UserEmailInput, userEmail.value), emailCommand];
    var emailResult := host.RunCommand(ext, Git, configArgs + [UserEmailKey, userEmail.value], cwd, false);
    assert host.trace == t2 + [InputLine(UserEmailInput, userEmail.value), emailCommand];
    AppendStretches(t0, named, [InputLine(UserEmailInput, userEmail.value), emailCommand]);
    if emailResult.Err? {
      assert GitUserConfigRun(v, ext.processes) == Effects(all, Err(ExecError(Git)));
      return Err(emailResult.error);
    }
    assert GitUserConfigRun(v, ext.processes) == Effects(all, Ok(()));
    r := Ok(());
  }
}
