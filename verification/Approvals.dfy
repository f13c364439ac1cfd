/**
 * Confirming a call: the state a question mints binds it to one project, one
 * tool and one set of arguments, and is worth nothing for any other call.
 */
module Approvals {
  import opened Common
  import opened CanonicalJson
  import opened CanonicalJsonTheorems

  type Digest = nat

  /** The hash of a text; collisions are not found. */
  ghost predicate CollisionFree(hash: Text -> Digest) {
    forall a, b :: hash(a) == hash(b) ==> a == b
  }

  datatype ApprovalState = ApprovalState(projectId: string, workspaceId: Option<string>, tool: string, argsHash: Digest)
  datatype Call = Call(projectId: string, workspaceId: Option<string>, tool: string, args: Json)
  datatype Grant = Grant(projectId: string, workspaceId: Option<string>)

  /** An empty workspace id is left out, like an absent one. */
  function Given(workspaceId: Option<string>): Option<string> {
    if workspaceId == Some("") then None else workspaceId
  }

  function HashArguments(hash: Text -> Digest, args: Json): Digest {
    hash(Stringify(args))
  }

  /** The state `ask` mints; the codec's signature brings it back unchanged, or not at all. */
  function Mint(hash: Text -> Digest, call: Call): ApprovalState {
    ApprovalState(call.projectId, Given(call.workspaceId), call.tool, HashArguments(hash, call.args))
  }

  /** `approvalFor`: `answer` is what the client filled in under the approval key, when it accepted. */
  function ApprovalFor(hash: Text -> Digest, state: Option<ApprovalState>, answer: Option<Json>, tool: string, args: Json): Option<Grant> {
    if state.None? then None
    else if state.value.tool != tool then None
    else if answer != Some(Json.Bool(true)) then None
    else if state.value.argsHash != HashArguments(hash, args) then None
    else Some(Grant(state.value.projectId, Given(state.value.workspaceId)))
  }

  /** `isApproved`. */
  predicate IsApproved(hash: Text -> Digest, state: Option<ApprovalState>, answer: Option<Json>, projectId: string, tool: string, args: Json) {
    var approval := ApprovalFor(hash, state, answer, tool, args);
    approval.Some? && approval.value.projectId == projectId
  }

  /** A minted state approves exactly the tool and the arguments that were asked about, on a plain yes, for its own project. */
  lemma ApprovesWhatWasAsked(hash: Text -> Digest, asked: Call, answer: Option<Json>, tool: string, args: Json)
    requires CollisionFree(hash) && WellFormed(asked.args) && WellFormed(args)
    ensures ApprovalFor(hash, Some(Mint(hash, asked)), answer, tool, args) ==
      if tool == asked.tool && answer == Some(Json.Bool(true)) && Same(asked.args, args)
      then Some(Grant(asked.projectId, Given(asked.workspaceId))) else None
  {
    CanonicalForm(asked.args, args);
  }

  lemma ApprovedOnItsProject(hash: Text -> Digest, asked: Call, answer: Option<Json>, projectId: string, tool: string, args: Json)
    requires CollisionFree(hash) && WellFormed(asked.args) && WellFormed(args)
    ensures IsApproved(hash, Some(Mint(hash, asked)), answer, projectId, tool, args) <==>
      projectId == asked.projectId && tool == asked.tool && answer == Some(Json.Bool(true)) && Same(asked.args, args)
  {
    ApprovesWhatWasAsked(hash, asked, answer, tool, args);
  }
}
