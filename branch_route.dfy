/**
 * The branch route (app/api/git/branch/route.ts): validates `prompt` and
 * commits the working tree to a new branch; it never touches the Codex thread.
 */
module BranchRoute {
  import opened Wrappers
  import opened Js
  import Codex
  import Git

  const PromptRequired := "prompt is required"
  const CreateFailed := "Failed to create branch"

  datatype Body = ErrorBody(error: string) | CreatedBody(result: Git.Created)
  /** A JSON response; the status is 200 unless one is given. */
  datatype Response = Response(status: nat, body: Body)

  /**
   * `POST`, with `Date.now()` given. The request body is the parsed JSON;
   * destructuring `prompt` out of null or undefined throws a TypeError whose
   * engine message is given. Every throw, the lock's included, becomes a 500.
   */
  method Post(request: JsValue, destructureError: string, codex: Codex.CodexModule, repo: Git.Repository,
              now: nat, failure: Option<Git.Failure>) returns (res: Response)
    modifies repo
    ensures codex.activeThread == old(codex.activeThread) && codex.isRunning == old(codex.isRunning)
    ensures Property(request, "prompt").None? ==>
      res == Response(500, ErrorBody(MessageOr(ErrorValue(destructureError), CreateFailed))) && repo.log == old(repo.log)
    ensures Property(request, "prompt").Some? && !TruthyString(Property(request, "prompt").value) ==>
      res == Response(400, ErrorBody(PromptRequired)) && repo.log == old(repo.log)
    ensures Property(request, "prompt").Some? && TruthyString(Property(request, "prompt").value) ==>
      var run := Git.CreateRun(codex.isRunning, now, Property(request, "prompt").value.s, failure);
      && repo.log == old(repo.log) + run.1
      && (run.0.Returned? ==> res == Response(200, CreatedBody(run.0.value)))
      && (run.0.Rejected? ==> res == Response(500, ErrorBody(MessageOr(run.0.err, CreateFailed))))
  {
    var prompt := Property(request, "prompt");
    if prompt.None? {
      return Response(500, ErrorBody(MessageOr(ErrorValue(destructureError), CreateFailed)));
    }
    if !TruthyString(prompt.value) {
      return Response(400, ErrorBody(PromptRequired));
    }
    var result := repo.CreateBranchAndCommit(codex, now, prompt.value.s, failure);
    if result.Rejected? {
      return Response(500, ErrorBody(MessageOr(result.err, CreateFailed)));
    }
    res := Response(200, CreatedBody(result.value));
  }
}
