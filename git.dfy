/**
 * The git coordinator (lib/git.ts): branch-and-commit and deploy-to-main as
 * sequences of git commands recorded in a repository's log, both refused
 * while a Codex run holds the lock, and the shaping of `getStatus`.
 * Each git command may reject; which one does is a parameter.
 */
module Git {
  import opened Wrappers
  import opened Text
  import opened Js
  import Codex

  const RunningMessage := "Cannot perform git operations while Codex is running."
  const InvalidBranchMessage := "Invalid branch for deploy."
  const BranchPrefix := "codex/"
  const CommitPrefix := "codex: "
  const CommitSummaryLength := 80

  /** A git command as the repository receives it. */
  datatype GitOp =
    | CheckoutLocalBranch(branch: string)
    | Add(pathspec: string)
    | Commit(message: string)
    | Push(remote: string, branch: string, options: seq<string>)
    | Checkout(branch: string)
    | Merge(branches: seq<string>)

  /** The command, counted from 0 within one call, that rejects, and with what. */
  datatype Failure = Failure(step: nat, err: Thrown)

  /** How an async git function settles: it returns a value or throws. */
  datatype Outcome<T> = Returned(value: T) | Rejected(err: Thrown)

  datatype Created = Created(branch: string, commitMessage: string)
  datatype Deployed = Deployed(merged: string, target: string)

  /** `codex/${Date.now()}`. */
  function BranchName(now: nat): (r: string)
    ensures StartsWith(r, BranchPrefix) && |r| > |BranchPrefix|
  {
    BranchPrefix + NatToString(now)
  }

  /** `codex: ${prompt.slice(0, 80)}`. */
  function CommitMessage(prompt: string): (r: string)
    ensures StartsWith(r, CommitPrefix)
    ensures |r| <= |CommitPrefix| + CommitSummaryLength
    ensures |r| == |CommitPrefix| + (if |prompt| < CommitSummaryLength then |prompt| else CommitSummaryLength)
    ensures |prompt| <= CommitSummaryLength ==> r == CommitPrefix + prompt
    ensures StartsWith(prompt, r[|CommitPrefix|..])
  {
    var r := CommitPrefix + Prefix(prompt, CommitSummaryLength);
    assert r[..|CommitPrefix|] == CommitPrefix;
    assert r[|CommitPrefix|..] == Prefix(prompt, CommitSummaryLength);
    r
  }

  /** The commands of `createBranchAndCommit`, in order. */
  function CommitOps(branch: string, message: string): seq<GitOp> {
    [CheckoutLocalBranch(branch), Add("."), Commit(message), Push("origin", branch, ["--set-upstream"])]
  }

  /** The commands of `deployToMain`, in order. */
  function DeployOps(branch: string): seq<GitOp> {
    [Checkout("main"), Merge([branch]), Push("origin", "main", [])]
  }

  /** The guard of `deployToMain`: `!branchName || branchName === "main" || branchName === "master"` refuses. */
  predicate DeployableBranch(branch: string) {
    branch != "" && branch != "main" && branch != "master"
  }

  /** Whether some command of the given ones rejects. */
  predicate FailsWithin(ops: seq<GitOp>, failure: Option<Failure>) {
    failure.Some? && failure.value.step < |ops|
  }

  /** The commands issued before the first rejection stops the awaits: all of them, or those up to the one that rejects. */
  function Attempted(ops: seq<GitOp>, failure: Option<Failure>): (r: seq<GitOp>)
    ensures r <= ops
    ensures FailsWithin(ops, failure) <==> |r| < |ops| || (|r| == |ops| && failure.Some? && failure.value.step == |ops| - 1)
  {
    if FailsWithin(ops, failure) then ops[..failure.value.step + 1] else ops
  }

  /** The reply of command number `step`. */
  function ReplyAt(failure: Option<Failure>, step: nat): (r: Option<Thrown>)
    ensures r.Some? <==> failure.Some? && failure.value.step == step
  {
    if failure.Some? && failure.value.step == step then Some(failure.value.err) else None
  }

  /** A call that runs the given commands settles, depending on the rejection, to a value or to the rejecting command's error. */
  function Settled<T>(ops: seq<GitOp>, failure: Option<Failure>, value: T): (r: Outcome<T>)
    ensures r.Returned? <==> !FailsWithin(ops, failure)
    ensures r.Returned? ==> r.value == value
    ensures r.Rejected? ==> r.err == failure.value.err
  {
    if FailsWithin(ops, failure) then Rejected(failure.value.err) else Returned(value)
  }

  /**
   * `createBranchAndCommit`: refused, before any command, while a run is
   * active; otherwise the four commands in order until one rejects.
   */
  function CreateRun(running: bool, now: nat, prompt: string, failure: Option<Failure>): (r: (Outcome<Created>, seq<GitOp>))
    ensures running ==> r == (Rejected(ErrorValue(RunningMessage)), [])
    ensures !running ==> r.1 == Attempted(CommitOps(BranchName(now), CommitMessage(prompt)), failure)
    ensures r.1 <= CommitOps(BranchName(now), CommitMessage(prompt))
    ensures r.0.Returned? <==> !running && r.1 == CommitOps(BranchName(now), CommitMessage(prompt)) && !FailsWithin(r.1, failure)
    ensures r.0.Returned? ==> r.0.value == Created(BranchName(now), CommitMessage(prompt))
  {
    if running then (Rejected(ErrorValue(RunningMessage)), [])
    else
      var ops := CommitOps(BranchName(now), CommitMessage(prompt));
      (Settled(ops, failure, Created(BranchName(now), CommitMessage(prompt))), Attempted(ops, failure))
  }

  /**
   * `deployToMain`: refused while a run is active, then refused for an empty
   * branch or main or master, both before any command; otherwise checkout
   * main, merge, push main, until one rejects.
   */
  function DeployRun(running: bool, branch: string, failure: Option<Failure>): (r: (Outcome<Deployed>, seq<GitOp>))
    ensures running ==> r == (Rejected(ErrorValue(RunningMessage)), [])
    ensures !running && !DeployableBranch(branch) ==> r == (Rejected(ErrorValue(InvalidBranchMessage)), [])
    ensures !running && DeployableBranch(branch) ==> r.1 == Attempted(DeployOps(branch), failure)
    ensures r.1 <= DeployOps(branch)
    ensures r.0.Returned? <==> !running && DeployableBranch(branch) && !FailsWithin(DeployOps(branch), failure)
    ensures r.0.Returned? ==> r.0.value == Deployed(branch, "main") && r.1 == DeployOps(branch)
  {
    if running then (Rejected(ErrorValue(RunningMessage)), [])
    else if !DeployableBranch(branch) then (Rejected(ErrorValue(InvalidBranchMessage)), [])
    else (Settled(DeployOps(branch), failure, Deployed(branch, "main")), Attempted(DeployOps(branch), failure))
  }

  /** A merge into main happens only through a successful guard: never while running, never of main or master. */
  lemma MergeOnlyWhenAllowed(running: bool, branch: string, failure: Option<Failure>)
    ensures Merge([branch]) in DeployRun(running, branch, failure).1 ==> !running && DeployableBranch(branch)
    ensures Push("origin", "main", []) in DeployRun(running, branch, failure).1 ==>
      DeployRun(running, branch, failure).1 == DeployOps(branch)
  {
    var r := DeployRun(running, branch, failure);
    if Push("origin", "main", []) in r.1 {
      var i :| 0 <= i < |r.1| && r.1[i] == Push("origin", "main", []);
      assert DeployOps(branch)[i] == r.1[i];
    }
  }

  /** A repository: the log of the commands it has received. */
  class Repository {
    var log: seq<GitOp>

    constructor()
      ensures log == []
    {
      log := [];
    }

    /** One awaited simple-git call; the reply is how the command settles. */
    method Execute(op: GitOp, reply: Option<Thrown>) returns (err: Option<Thrown>)
      modifies this
      ensures log == old(log) + [op] && err == reply
    {
      log := log + [op];
      err := reply;
    }

    method CreateBranchAndCommit(codex: Codex.CodexModule, now: nat, prompt: string, failure: Option<Failure>)
      returns (r: Outcome<Created>)
      modifies this
      ensures r == CreateRun(codex.isRunning, now, prompt, failure).0
      ensures log == old(log) + CreateRun(codex.isRunning, now, prompt, failure).1
    {
      var refused := AssertNotRunning(codex);
      if refused.Some? {
        assert log == old(log) + [];
        return Rejected(refused.value);
      }
      var branchName := BranchName(now);
      var commitMessage := CommitMessage(prompt);
      ghost var ops := CommitOps(branchName, commitMessage);
      var e := Execute(CheckoutLocalBranch(branchName), ReplyAt(failure, 0));
      if e.Some? {
        assert log == old(log) + ops[..1];
        return Rejected(e.value);
      }
      e := Execute(Add("."), ReplyAt(failure, 1));
      if e.Some? {
        assert log == old(log) + ops[..2];
        return Rejected(e.value);
      }
      e := Execute(Commit(commitMessage), ReplyAt(failure, 2));
      if e.Some? {
        assert log == old(log) + ops[..3];
        return Rejected(e.value);
      }
      e := Execute(Push("origin", branchName, ["--set-upstream"]), ReplyAt(failure, 3));
      if e.Some? {
        assert log == old(log) + ops[..4];
        return Rejected(e.value);
      }
      assert log == old(log) + ops;
      r := Returned(Created(branchName, commitMessage));
    }

    method DeployToMain(codex: Codex.CodexModule, branchName: string, failure: Option<Failure>)
      returns (r: Outcome<Deployed>)
      modifies this
      ensures r == DeployRun(codex.isRunning, branchName, failure).0
      ensures log == old(log) + DeployRun(codex.isRunning, branchName, failure).1
    {
      var refused := AssertNotRunning(codex);
      if refused.Some? {
        assert log == old(log) + [];
        return Rejected(refused.value);
      }
      if branchName == "" || branchName == "main" || branchName == "master" {
        assert log == old(log) + [];
        return Rejected(ErrorValue(InvalidBranchMessage));
      }
      ghost var ops := DeployOps(branchName);
      var e := Execute(Checkout("main"), ReplyAt(failure, 0));
      if e.Some? {
        assert log == old(log) + ops[..1];
        return Rejected(e.value);
      }
      e := Execute(Merge([branchName]), ReplyAt(failure, 1));
      if e.Some? {
        assert log == old(log) + ops[..2];
        return Rejected(e.value);
      }
      e := Execute(Push("origin", "main", []), ReplyAt(failure, 2));
      if e.Some? {
        assert log == old(log) + ops[..3];
        return Rejected(e.value);
      }
      assert log == old(log) + ops;
      r := Returned(Deployed(branchName, "main"));
    }
  }

  /** `assertNotRunning`: the error it throws, exactly while a run holds the lock. */
  method AssertNotRunning(codex: Codex.CodexModule) returns (err: Option<Thrown>)
    ensures err.Some? <==> codex.isRunning
    ensures err.Some? ==> err.value == ErrorValue(RunningMessage)
  {
    var running := codex.IsCodexRunning();
    if running {
      return Some(ErrorValue(RunningMessage));
    }
    return None;
  }

  /** A changed file as `git.status()` lists it. */
  datatype FileEntry = FileEntry(path: string, index: string, workingDir: string)
  /** The latest commit as `git.log({maxCount: 1})` reports it. */
  datatype LogEntry = LogEntry(hash: string, message: string)

  datatype LastCommit = LastCommit(message: string, hash: string)
  datatype Status = Status(branch: Option<string>, dirty: seq<string>, lastCommit: Option<LastCommit>)

  function Paths(files: seq<FileEntry>): (r: seq<string>)
    ensures |r| == |files| && forall i :: 0 <= i < |files| ==> r[i] == files[i].path
  {
    if files == [] then [] else [files[0].path] + Paths(files[1..])
  }

  /** The result shaping of `getStatus`; it takes no lock state, so it answers during a run too. */
  function StatusOf(current: Option<string>, files: seq<FileEntry>, latest: Option<LogEntry>): (r: Status)
    ensures r.branch == current
    ensures |r.dirty| == |files| && forall i :: 0 <= i < |files| ==> r.dirty[i] == files[i].path
    ensures r.lastCommit.None? <==> latest.None?
    ensures r.lastCommit.Some? ==>
      && r.lastCommit.value.message == latest.value.message
      && StartsWith(latest.value.hash, r.lastCommit.value.hash)
      && |r.lastCommit.value.hash| == (if |latest.value.hash| < 7 then |latest.value.hash| else 7)
  {
    Status(current, Paths(files),
           if latest.None? then None else Some(LastCommit(latest.value.message, Prefix(latest.value.hash, 7))))
  }
}
