/** The `gh-actions-setup` script (`setup.js`): before an action of the repository installs its
    dependencies as an npm workspace, every local (`file:`) dependency of the repository root
    gets a `package.json` — a placeholder when none is readable — and then
    `npm install --workspace "<action>"` runs in the repository root. */
module ActionSetup {
  import opened Wrappers
  import opened JsStrings
  import opened ActionsCore

  /** The version of a dependency in `package.json`: a string, or any other JSON value. */
  datatype DepVersion = Text(text: string) | NotText

  /** The entries of a JSON object, in order. */
  type Entries = seq<(string, DepVersion)>

  /** The `package.json` of a package directory. */
  const PackageJson := "package.json"

  /** The version marking a local dependency. */
  const FilePrefix := "file:"

  /** The value of the first entry named `key`; a JSON object has no second one. */
  function Lookup(es: Entries, key: string): Option<DepVersion>
  {
    if es == [] then None else if es[0].0 == key then Some(es[0].1) else Lookup(es[1..], key)
  }

  /** No name occurs twice. */
  predicate DistinctKeys(es: Entries)
  {
    forall i, j :: 0 <= i < j < |es| ==> es[i].0 != es[j].0
  }

  // ---- `Object.entries({ ...dependencies, ...devDependencies })` ----

  /** The entries of `dependencies`, in their order, each with the value of `devDependencies`
      when that object has the same name. */
  function Overridden(deps: Entries, devDeps: Entries): Entries
  {
    if deps == [] then []
    else [(deps[0].0, Lookup(devDeps, deps[0].0).GetOr(deps[0].1))] + Overridden(deps[1..], devDeps)
  }

  /** The entries of `devDependencies` whose name `dependencies` does not have, in their order. */
  function Added(devDeps: Entries, deps: Entries): Entries
  {
    if devDeps == [] then []
    else (if Lookup(deps, devDeps[0].0).None? then [devDeps[0]] else []) + Added(devDeps[1..], deps)
  }

  /** The spread of `dependencies` and then `devDependencies`: a name keeps its first place and
      takes its last value. */
  function Spread(deps: Entries, devDeps: Entries): Entries
  {
    Overridden(deps, devDeps) + Added(devDeps, deps)
  }

  lemma {:induction false} LookupConcat(a: Entries, b: Entries, key: string)
    ensures Lookup(a + b, key) == if Lookup(a, key).Some? then Lookup(a, key) else Lookup(b, key)
  {
    if a != [] {
      assert (a + b)[0] == a[0] && (a + b)[1..] == a[1..] + b;
      LookupConcat(a[1..], b, key);
    } else {
      assert a + b == b;
    }
  }

  lemma {:induction false} LookupOverridden(deps: Entries, devDeps: Entries, key: string)
    ensures Lookup(Overridden(deps, devDeps), key)
            == if Lookup(deps, key).Some? then Some(Lookup(devDeps, key).GetOr(Lookup(deps, key).value)) else None
  {
    if deps != [] {
      LookupOverridden(deps[1..], devDeps, key);
    }
  }

  lemma {:induction false} LookupAdded(devDeps: Entries, deps: Entries, key: string)
    ensures Lookup(Added(devDeps, deps), key) == if Lookup(deps, key).None? then Lookup(devDeps, key) else None
  {
    if devDeps != [] {
      var head := if Lookup(deps, devDeps[0].0).None? then [devDeps[0]] else [];
      LookupConcat(head, Added(devDeps[1..], deps), key);
      LookupAdded(devDeps[1..], deps, key);
    }
  }

  /** A name of the spread has the value `devDependencies` gives it, else the one
      `dependencies` gives it; the spread has no name neither object has. */
  lemma SpreadLookup(deps: Entries, devDeps: Entries, key: string)
    ensures Lookup(Spread(deps, devDeps), key)
            == if Lookup(devDeps, key).Some? then Lookup(devDeps, key) else Lookup(deps, key)
  {
    LookupConcat(Overridden(deps, devDeps), Added(devDeps, deps), key);
    LookupOverridden(deps, devDeps, key);
    LookupAdded(devDeps, deps, key);
  }

  // ---- the local dependencies ----

  /** `typeof v === 'string' && v.startsWith('file:')`. */
  predicate IsLocal(v: DepVersion)
  {
    v.Text? && |v.text| >= |FilePrefix| && v.text[..|FilePrefix|] == FilePrefix
  }

  /** The path of a local dependency relative to the repository root:
      `version.substring(5).trim()`. */
  function RelativePath(version: string): string
    requires |version| >= |FilePrefix|
  {
    Trim(version[|FilePrefix|..])
  }

  /** The local dependencies of the entries, in order, each as its name and relative path. */
  function LocalDeps(es: Entries): seq<(string, string)>
  {
    if es == [] then []
    else (if IsLocal(es[0].1) then [(es[0].0, RelativePath(es[0].1.text))] else []) + LocalDeps(es[1..])
  }

  /** Exactly the entries whose version is a `file:` string are kept, each with the trimmed text
      after `file:`, and no more pairs than entries. */
  lemma {:induction false} LocalDepsContract(es: Entries)
    ensures forall i :: 0 <= i < |LocalDeps(es)| ==>
              exists j :: 0 <= j < |es| && es[j].0 == LocalDeps(es)[i].0 && IsLocal(es[j].1)
                          && LocalDeps(es)[i].1 == RelativePath(es[j].1.text)
    ensures forall j :: 0 <= j < |es| && IsLocal(es[j].1) ==> (es[j].0, RelativePath(es[j].1.text)) in LocalDeps(es)
    ensures |LocalDeps(es)| <= |es|
  {
    if es != [] {
      LocalDepsContract(es[1..]);
      var head := if IsLocal(es[0].1) then [(es[0].0, RelativePath(es[0].1.text))] else [];
      assert LocalDeps(es) == head + LocalDeps(es[1..]);
      forall i | 0 <= i < |LocalDeps(es)|
        ensures exists j :: 0 <= j < |es| && es[j].0 == LocalDeps(es)[i].0 && IsLocal(es[j].1)
                            && LocalDeps(es)[i].1 == RelativePath(es[j].1.text)
      {
        if i < |head| {
          assert LocalDeps(es)[i] == (es[0].0, RelativePath(es[0].1.text));
          assert es[0].0 == LocalDeps(es)[i].0 && IsLocal(es[0].1) && LocalDeps(es)[i].1 == RelativePath(es[0].1.text);
        } else {
          assert LocalDeps(es)[i] == LocalDeps(es[1..])[i - |head|];
          var j :| 0 <= j < |es[1..]| && es[1..][j].0 == LocalDeps(es[1..])[i - |head|].0 && IsLocal(es[1..][j].1)
                   && LocalDeps(es[1..])[i - |head|].1 == RelativePath(es[1..][j].1.text);
          assert es[j + 1] == es[1..][j];
          assert es[j + 1].0 == LocalDeps(es)[i].0 && IsLocal(es[j + 1].1) && LocalDeps(es)[i].1 == RelativePath(es[j + 1].1.text);
        }
      }
      forall j | 0 <= j < |es| && IsLocal(es[j].1)
        ensures (es[j].0, RelativePath(es[j].1.text)) in LocalDeps(es)
      {
        if j > 0 {
          assert es[1..][j - 1] == es[j];
        }
      }
    } else {
      assert LocalDeps(es) == [];
    }
  }

  // ---- the files ----

  /** The files (path to contents) and directories the script sees. */
  datatype FsState = FsState(files: map<string, string>, dirs: set<string>)

  /** The directory of a local dependency: `path.join(repoRootPath, depPackageRelPath)`. */
  function DepPath(root: string, join: (string, string) -> string, relPath: string): string
  {
    join(root, relPath)
  }

  /** Its `package.json`. */
  function DepPackageJson(root: string, join: (string, string) -> string, relPath: string): string
  {
    join(DepPath(root, join, relPath), PackageJson)
  }

  /** `JSON.stringify({ name, version: '0.0.0' })`. */
  function Placeholder(name: string): string
  {
    "{\"name\":" + JsonString(name) + ",\"version\":\"0.0.0\"}"
  }

  /** One iteration of the loop: a readable `package.json` is left alone; otherwise the directory
      is made and the placeholder written. */
  function Ensure(fs: FsState, root: string, join: (string, string) -> string, dep: (string, string)): FsState
  {
    var jsonPath := DepPackageJson(root, join, dep.1);
    if jsonPath in fs.files then fs
    else FsState(fs.files[jsonPath := Placeholder(dep.0)], fs.dirs + {DepPath(root, join, dep.1)})
  }

  /** The loop over the local dependencies, in order. */
  function EnsureAll(fs: FsState, root: string, join: (string, string) -> string, deps: seq<(string, string)>): FsState
  {
    if deps == [] then fs else Ensure(EnsureAll(fs, root, join, deps[..|deps| - 1]), root, join, deps[|deps| - 1])
  }

  /** A readable file is left untouched and no directory is removed. */
  lemma {:induction false} EnsureAllKeeps(fs: FsState, root: string, join: (string, string) -> string, deps: seq<(string, string)>)
    ensures forall p :: p in fs.files ==> p in EnsureAll(fs, root, join, deps).files
                                          && EnsureAll(fs, root, join, deps).files[p] == fs.files[p]
    ensures fs.dirs <= EnsureAll(fs, root, join, deps).dirs
  {
    if deps != [] {
      EnsureAllKeeps(fs, root, join, deps[..|deps| - 1]);
    }
  }

  /** Afterwards every local dependency has a `package.json`. */
  lemma {:induction false} EnsureAllCreates(fs: FsState, root: string, join: (string, string) -> string, deps: seq<(string, string)>)
    ensures forall i :: 0 <= i < |deps| ==> DepPackageJson(root, join, deps[i].1) in EnsureAll(fs, root, join, deps).files
  {
    if deps != [] {
      var init := deps[..|deps| - 1];
      EnsureAllCreates(fs, root, join, init);
      forall i | 0 <= i < |deps|
        ensures DepPackageJson(root, join, deps[i].1) in EnsureAll(fs, root, join, deps).files
      {
        if i < |init| {
          assert deps[i] == init[i];
        }
      }
    }
  }

  /** Every file written is a dependency's `package.json` holding that dependency's placeholder,
      and every directory made is a dependency's directory. */
  lemma {:induction false} EnsureAllWritesPlaceholders(fs: FsState, root: string, join: (string, string) -> string,
                                                       deps: seq<(string, string)>)
    ensures var after := EnsureAll(fs, root, join, deps);
            forall p :: p in after.files && p !in fs.files ==>
              exists i :: 0 <= i < |deps| && DepPackageJson(root, join, deps[i].1) == p && after.files[p] == Placeholder(deps[i].0)
    ensures var after := EnsureAll(fs, root, join, deps);
            forall d :: d in after.dirs && d !in fs.dirs ==> exists i :: 0 <= i < |deps| && DepPath(root, join, deps[i].1) == d
  {
    if deps != [] {
      var init := deps[..|deps| - 1];
      var last := deps[|deps| - 1];
      EnsureAllWritesPlaceholders(fs, root, join, init);
      var before := EnsureAll(fs, root, join, init);
      var after := EnsureAll(fs, root, join, deps);
      forall p | p in after.files && p !in fs.files
        ensures exists i :: 0 <= i < |deps| && DepPackageJson(root, join, deps[i].1) == p && after.files[p] == Placeholder(deps[i].0)
      {
        if p in before.files && after.files[p] == before.files[p] {
          var i :| 0 <= i < |init| && DepPackageJson(root, join, init[i].1) == p && before.files[p] == Placeholder(init[i].0);
          assert deps[i] == init[i];
        } else {
          assert DepPackageJson(root, join, deps[|deps| - 1].1) == p;
        }
      }
      forall d | d in after.dirs && d !in fs.dirs
        ensures exists i :: 0 <= i < |deps| && DepPath(root, join, deps[i].1) == d
      {
        if d in before.dirs {
          var i :| 0 <= i < |init| && DepPath(root, join, init[i].1) == d;
          assert deps[i] == init[i];
        } else {
          assert DepPath(root, join, deps[|deps| - 1].1) == d;
        }
      }
    }
  }

  // ---- the command ----

  /** `npm install --workspace "<workspacePath>" --no-audit --no-fund --install-links`. */
  function NpmCommand(workspacePath: string): string
  {
    "npm install --workspace \"" + workspacePath + "\" --no-audit --no-fund --install-links"
  }

  /** The runner the script works on: its files and directories, the console, and the shell
      commands `execSync` ran with their working directory. */
  class Runner {
    var files: map<string, string>
    var dirs: set<string>
    var console: seq<string>
    var commands: seq<(string, string)>

    constructor (files: map<string, string>, dirs: set<string>)
      ensures this.files == files && this.dirs == dirs && console == [] && commands == []
    {
      this.files := files;
      this.dirs := dirs;
      console := [];
      commands := [];
    }

    function State(): FsState
      reads this
    {
      FsState(files, dirs)
    }

    /** `fs.access(path, R_OK)`: whether the file can be read. */
    method Access(path: string) returns (readable: bool)
      ensures readable <==> path in files
    {
      readable := path in files;
    }

    /** `fs.mkdir(path, { recursive: true })`. */
    method Mkdir(path: string)
      modifies this
      ensures dirs == old(dirs) + {path}
      ensures files == old(files) && console == old(console) && commands == old(commands)
    {
      dirs := dirs + {path};
    }

    /** `fs.writeFile(path, contents, 'utf-8')`. */
    method WriteFile(path: string, contents: string)
      modifies this
      ensures files == old(files)[path := contents]
      ensures dirs == old(dirs) && console == old(console) && commands == old(commands)
    {
      files := files[path := contents];
    }

    /** `console.log(line)`. */
    method Log(line: string)
      modifies this
      ensures console == old(console) + [line]
      ensures files == old(files) && dirs == old(dirs) && commands == old(commands)
    {
      console := console + [line];
    }

    /** `execSync(command, { cwd })`: it throws when the command exits non-zero. */
    method ExecSync(command: string, cwd: string, status: (string, string) -> int) returns (r: Result<()>)
      modifies this
      ensures commands == old(commands) + [(command, cwd)]
      ensures r.Ok? <==> status(command, cwd) == 0
      ensures r.Err? ==> r.error == ExecError(command)
      ensures files == old(files) && dirs == old(dirs) && console == old(console)
    {
      commands := commands + [(command, cwd)];
      if status(command, cwd) != 0 {
        return Err(ExecError(command));
      }
      r := Ok(());
    }
  }

  /** The loop body: make sure one local dependency has a readable `package.json`. */
  method EnsurePackageJson(runner: Runner, root: string, join: (string, string) -> string, depPackageName: string,
                           depPackageRelPath: string)
    modifies runner
    ensures runner.State() == Ensure(old(runner.State()), root, join, (depPackageName, depPackageRelPath))
    ensures runner.console == old(runner.console) && runner.commands == old(runner.commands)
  {
    var depPackagePath := join(root, depPackageRelPath);
    var depPackageJsonPath := join(depPackagePath, PackageJson);
    var readable := runner.Access(depPackageJsonPath);
    if !readable {
      runner.Mkdir(depPackagePath);
      var depPackageJson := Placeholder(depPackageName);
      runner.WriteFile(depPackageJsonPath, depPackageJson);
    }
  }

  /** The exported function. `root` is `path.resolve(path.join(__dirname, '..', '..'))`, and
      `dependencies` and `devDependencies` are the entries of the root `package.json` (empty when
      absent). Every local dependency is given a `package.json`, in order, then the command is
      logged and run in the root. */
  method Setup(runner: Runner, actionPath: string, root: string, dependencies: Entries, devDependencies: Entries,
               join: (string, string) -> string, relative: (string, string) -> string, status: (string, string) -> int)
    returns (r: Result<()>)
    modifies runner
    ensures runner.State() == EnsureAll(old(runner.State()), root, join, LocalDeps(Spread(dependencies, devDependencies)))
    ensures var command := NpmCommand(relative(root, actionPath));
            && runner.console == old(runner.console) + ["[command]" + command]
            && runner.commands == old(runner.commands) + [(command, root)]
            && (r.Ok? <==> status(command, root) == 0)
            && (r.Err? ==> r.error == ExecError(command))
  {
    var deps := LocalDeps(Spread(dependencies, devDependencies));
    ghost var fs0 := runner.State();
    for i := 0 to |deps|
      invariant runner.State() == EnsureAll(fs0, root, join, deps[..i])
      invariant runner.console == old(runner.console) && runner.commands == old(runner.commands)
    {
      var (depPackageName, depPackageRelPath) := deps[i];
      EnsurePackageJson(runner, root, join, depPackageName, depPackageRelPath);
      assert deps[..i + 1][..i] == deps[..i];
    }
    assert deps[..|deps|] == deps;
    var workspacePath := relative(root, actionPath);
    var npmCommand := NpmCommand(workspacePath);
    runner.Log("[command]" + npmCommand);
    r := runner.ExecSync(npmCommand, root, status);
  }
}
