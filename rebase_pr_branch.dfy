/** The `create-rebase-pr-branch` script (`action.js`): bring a pull-request branch up to date
    with its base, either by rebasing the existing branch onto the base (keeping the branch's
    side of every conflict) or by creating the branch at the base when it does not exist yet. */
module RebasePrBranch {
  import opened Wrappers
  import opened ActionsCore

  const Git := "git"

  /** The error `getRef` rejects with when the ref does not exist. */
  const RefMissing := RequestError("HttpError", 404)

  /** `github.rest.git.getRef({ owner, repo, ref })`: it resolves, or rejects. */
  type GetRef = (string, string, string) -> Result<()>

  /** `scriptHelper.existsRef(ref)`: true once `getRef` resolves, false when it rejects with a
      404 `HttpError`, and any other rejection thrown on. */
  function ExistsRef(getRef: GetRef, owner: string, repo: string, ref: string): (r: Result<bool>)
    ensures r == Ok(true) <==> getRef(owner, repo, ref).Ok?
    ensures r == Ok(false) <==> getRef(owner, repo, ref) == Err(RefMissing)
    ensures r.Err? <==> getRef(owner, repo, ref).Err? && getRef(owner, repo, ref).error != RefMissing
    ensures r.Err? ==> r.error == getRef(owner, repo, ref).error
  {
    match getRef(owner, repo, ref)
    case Ok(_) => Ok(true)
    case Err(err) =>
      if !err.RequestError? || err.name != "HttpError" || err.status != 404 then Err(err) else Ok(false)
  }

  /** The ref of a branch, as `getRef` names it. */
  function BranchRef(branchName: string): string
  {
    "heads/" + branchName
  }

  /** `upstreamSha || ctxSha`. */
  function Base(upstreamSha: string, ctxSha: string): string
  {
    if upstreamSha != "" then upstreamSha else ctxSha
  }

  /** `git fetch origin <b>:<b>`. */
  function FetchArgs(branchName: string): seq<string>
  {
    ["fetch", "origin", branchName + ":" + branchName]
  }

  /** `git rebase --strategy-option=ours <base> <b>`. */
  function RebaseArgs(base: string, branchName: string): seq<string>
  {
    ["rebase", "--strategy-option=ours", base, branchName]
  }

  /** `git checkout -B <b> <base>`. */
  function CheckoutArgs(branchName: string, base: string): seq<string>
  {
    ["checkout", "-B", branchName, base]
  }

  /** The script: the branch looked up, then the commands `exec` runs, each awaited; a command
      that exits non-zero rejects and ends the script. */
  function RebaseRun(getRef: GetRef, processes: (string, seq<string>, Option<string>) -> ProcessResult,
                     owner: string, repo: string, ctxSha: string, branchName: string, upstreamSha: string): Effects<()>
  {
    match ExistsRef(getRef, owner, repo, BranchRef(branchName))
    case Err(e) => Effects([], Err(e))
    case Ok(branchExists) =>
      var base := Base(upstreamSha, ctxSha);
      if branchExists then
        var fetch := Exec(Git, FetchArgs(branchName), None);
        if processes(Git, FetchArgs(branchName), None).exitCode != 0 then Effects([fetch], Err(ExecError(Git)))
        else
          var rebase := Exec(Git, RebaseArgs(base, branchName), None);
          Effects([fetch, rebase],
            if processes(Git, RebaseArgs(base, branchName), None).exitCode != 0 then Err(ExecError(Git)) else Ok(()))
      else
        var checkout := Exec(Git, CheckoutArgs(branchName, base), None);
        Effects([checkout],
          if processes(Git, CheckoutArgs(branchName, base), None).exitCode != 0 then Err(ExecError(Git)) else Ok(()))
  }

  /** Whether a `git` command ran with exit code 0. */
  predicate Succeeds(processes: (string, seq<string>, Option<string>) -> ProcessResult, args: seq<string>)
  {
    processes(Git, args, None).exitCode == 0
  }

  /** The branch `heads/<b>` of the repository is looked up. A lookup that fails other than with
      a 404 `HttpError` is thrown on and nothing runs. When the branch exists, it is fetched as
      `<b>:<b>` and, once that succeeded, rebased with `--strategy-option=ours` onto the base;
      when it is missing, it is created at the base with one `checkout -B`. The base is the
      upstream sha when given, else the sha of the triggering event. The script succeeds exactly
      when every command it ran exited with 0. */
  lemma RebaseRunContract(getRef: GetRef, processes: (string, seq<string>, Option<string>) -> ProcessResult,
                          owner: string, repo: string, ctxSha: string, branchName: string, upstreamSha: string)
    ensures var run := RebaseRun(getRef, processes, owner, repo, ctxSha, branchName, upstreamSha);
            var lookup := getRef(owner, repo, "heads/" + branchName);
            var base := if upstreamSha != "" then upstreamSha else ctxSha;
            var fetch := ["fetch", "origin", branchName + ":" + branchName];
            var rebase := ["rebase", "--strategy-option=ours", base, branchName];
            var checkout := ["checkout", "-B", branchName, base];
            && (lookup.Err? && lookup.error != RefMissing ==> run == Effects([], Err(lookup.error)))
            && (lookup.Ok? ==>
                  if Succeeds(processes, fetch)
                  then run.events == [Exec(Git, fetch, None), Exec(Git, rebase, None)]
                       && (run.result.Ok? <==> Succeeds(processes, rebase))
                  else run.events == [Exec(Git, fetch, None)])
            && (lookup == Err(RefMissing) ==>
                  run.events == [Exec(Git, checkout, None)] && (run.result.Ok? <==> Succeeds(processes, checkout)))
            && (run.result.Err? && !(lookup.Err? && lookup.error != RefMissing) ==> run.result == Err(ExecError(Git)))
  {
  }

  /** The two ways never mix: a run either fetches (and perhaps rebases) or checks out, every
      command is a `git` command in the current directory, and a rebase always follows a
      successful fetch. */
  lemma RebaseOrCheckout(getRef: GetRef, processes: (string, seq<string>, Option<string>) -> ProcessResult,
                         owner: string, repo: string, ctxSha: string, branchName: string, upstreamSha: string)
    ensures var run := RebaseRun(getRef, processes, owner, repo, ctxSha, branchName, upstreamSha);
            && |run.events| <= 2
            && (forall i :: 0 <= i < |run.events| ==>
                  run.events[i].Exec? && run.events[i].command == Git && |run.events[i].args| >= 3
                  && run.events[i].cwd.None?)
            && (run.events != [] ==>
                  (run.events[0].args[0] == "fetch") != (run.events[0].args[0] == "checkout"))
            && (|run.events| == 2 ==>
                  run.events[0].args[0] == "fetch" && run.events[1].args[0] == "rebase"
                  && Succeeds(processes, run.events[0].args))
            && (run.events != [] && run.events[0].args[0] == "checkout" ==> |run.events| == 1)
  {
  }
}
