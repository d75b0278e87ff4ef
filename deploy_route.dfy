/**
 * The deploy route (app/api/git/deploy/route.ts): validates `branch`, merges
 * it into main, and only after a successful deploy resets the Codex thread.
 */
module DeployRoute {
  import opened Wrappers
  import opened Js
  import Codex
  import Git

  const BranchRequired := "branch is required"
  const DeployFailed := "Failed to deploy"

  datatype Body = ErrorBody(error: string) | DeployedBody(result: Git.Deployed)
  /** A JSON response; the status is 200 unless one is given. */
  datatype Response = Response(status: nat, body: Body)

  /**
   * `POST`. The request body is the parsed JSON; destructuring `branch` out of
   * null or undefined throws a TypeError whose engine message is given.
   */
  method Post(request: JsValue, destructureError: string, codex: Codex.CodexModule, repo: Git.Repository,
              failure: Option<Git.Failure>) returns (res: Response)
    modifies codex, repo
    ensures codex.isRunning == old(codex.isRunning) && codex.threadsStarted == old(codex.threadsStarted)
    ensures Property(request, "branch").None? ==>
      && res == Response(500, ErrorBody(MessageOr(ErrorValue(destructureError), DeployFailed)))
      && repo.log == old(repo.log) && codex.activeThread == old(codex.activeThread)
    ensures Property(request, "branch").Some? && !TruthyString(Property(request, "branch").value) ==>
      && res == Response(400, ErrorBody(BranchRequired))
      && repo.log == old(repo.log) && codex.activeThread == old(codex.activeThread)
    ensures Property(request, "branch").Some? && TruthyString(Property(request, "branch").value) ==>
      var run := Git.DeployRun(old(codex.isRunning), Property(request, "branch").value.s, failure);
      && repo.log == old(repo.log) + run.1
      && (run.0.Returned? ==> res == Response(200, DeployedBody(run.0.value)) && codex.activeThread == None)
      && (run.0.Rejected? ==>
            res == Response(500, ErrorBody(MessageOr(run.0.err, DeployFailed))) && codex.activeThread == old(codex.activeThread))
  {
    var branch := Property(request, "branch");
    if branch.None? {
      return Response(500, ErrorBody(MessageOr(ErrorValue(destructureError), DeployFailed)));
    }
    if !TruthyString(branch.value) {
      return Response(400, ErrorBody(BranchRequired));
    }
    var result := repo.DeployToMain(codex, branch.value.s, failure);
    if result.Rejected? {
      return Response(500, ErrorBody(MessageOr(result.err, DeployFailed)));
    }
    codex.ResetThread();
    res := Response(200, DeployedBody(result.value));
  }
}
