/**
 * The error translation every tool applies: a failure raised inside the
 * tool's `try` block becomes `HTTPException(status_code, detail)` with a
 * status fixed per tool and a detail text naming the attempted action.
 */
module Errors {
  import opened Text
  import opened Registry

  /** The three status classes the tools use. */
  datatype StatusClass = NotFound | InvalidRequest | Unavailable

  function Code(c: StatusClass): int
  {
    match c
    case NotFound => 404
    case InvalidRequest => 400
    case Unavailable => 500
  }

  /** `HTTPException(status_code=status, detail=detail)`. */
  datatype ToolError = ToolError(status: int, detail: string)

  /** The status each tool's `except` clause raises with. */
  function ClassOf(t: Tool): StatusClass
  {
    match t
    case GetJira => NotFound
    case SearchIssues => InvalidRequest
    case SearchUsers => InvalidRequest
    case ListProjects => Unavailable
    case GetProject => NotFound
    case GetProjectComponents => NotFound
    case GetProjectVersions => NotFound
    case GetProjectRoles => NotFound
    case GetProjectPermissionScheme => NotFound
    case GetProjectIssueTypes => NotFound
    case GetCurrentUser => Unavailable
    case GetUser => NotFound
    case GetAssignableUsersForProject => InvalidRequest
    case GetAssignableUsersForIssue => InvalidRequest
    case ListBoards => Unavailable
    case ListSprints => Unavailable
    case GetSprint => NotFound
    case GetSprintsByName => Unavailable
    case CreateIssue => InvalidRequest
    case UpdateIssue => InvalidRequest
    case AddComment => InvalidRequest
    case DeleteComment => InvalidRequest
    case GetIssueComments => InvalidRequest
    case AssignIssue => InvalidRequest
    case UnassignIssue => InvalidRequest
    case TransitionIssue => InvalidRequest
    case GetIssueTransitions => InvalidRequest
    case DeleteIssue => InvalidRequest
    case AddIssueLabels => InvalidRequest
    case RemoveIssueLabels => InvalidRequest
  }

  /**
   * The words before the failure's own text in each tool's detail.
   * `issueKey` and `commentId` are the tool's `issue_key` and `comment_id`
   * arguments; tools without them ignore them.
   */
  function Context(t: Tool, issueKey: string, commentId: string): string
  {
    if t == SearchIssues then "JQL search failed" else "Failed to " + Action(t, issueKey, commentId)
  }

  /** What the tool was doing, after "Failed to ". */
  function Action(t: Tool, issueKey: string, commentId: string): string
    requires t != SearchIssues
  {
    match t
    case GetJira => "fetch Jira issue " + issueKey
    case SearchUsers => "search users"
    case ListProjects => "fetch projects"
    case GetProject => "fetch project"
    case GetProjectComponents => "fetch components"
    case GetProjectVersions => "fetch versions"
    case GetProjectRoles => "fetch roles"
    case GetProjectPermissionScheme => "fetch permission scheme"
    case GetProjectIssueTypes => "fetch issue types"
    case GetCurrentUser => "fetch current user"
    case GetUser => "fetch user"
    case GetAssignableUsersForProject => "get assignable users"
    case GetAssignableUsersForIssue => "get assignable users"
    case ListBoards => "fetch boards"
    case ListSprints => "fetch sprints"
    case GetSprint => "fetch sprint"
    case GetSprintsByName => "fetch sprints by name"
    case CreateIssue => "create issue"
    case UpdateIssue => "update issue " + issueKey
    case AddComment => "add comment to " + issueKey
    case DeleteComment => "delete comment " + commentId + " from " + issueKey
    case GetIssueComments => "get comments for " + issueKey
    case AssignIssue => "assign issue " + issueKey
    case UnassignIssue => "unassign issue " + issueKey
    case TransitionIssue => "transition issue " + issueKey
    case GetIssueTransitions => "get transitions for " + issueKey
    case DeleteIssue => "delete issue " + issueKey
    case AddIssueLabels => "add labels to " + issueKey
    case RemoveIssueLabels => "remove labels from " + issueKey
  }

  /** The tools whose detail names the issue key they were called with. */
  predicate NamesIssueKey(t: Tool)
  {
    match t
    case GetJira | UpdateIssue | AddComment | DeleteComment | GetIssueComments | AssignIssue
       | UnassignIssue | TransitionIssue | GetIssueTransitions | DeleteIssue
       | AddIssueLabels | RemoveIssueLabels => true
    case _ => false
  }

  /** The text `Context` puts before the issue key, for the tools that name one. */
  function KeyLead(t: Tool, commentId: string): string
    requires NamesIssueKey(t)
  {
    "Failed to " + KeyActionLead(t, commentId)
  }

  function KeyActionLead(t: Tool, commentId: string): string
    requires NamesIssueKey(t)
  {
    match t
    case GetJira => "fetch Jira issue "
    case UpdateIssue => "update issue "
    case AddComment => "add comment to "
    case DeleteComment => "delete comment " + commentId + " from "
    case GetIssueComments => "get comments for "
    case AssignIssue => "assign issue "
    case UnassignIssue => "unassign issue "
    case TransitionIssue => "transition issue "
    case GetIssueTransitions => "get transitions for "
    case DeleteIssue => "delete issue "
    case AddIssueLabels => "add labels to "
    case RemoveIssueLabels => "remove labels from "
  }

  /**
   * The exception a tool raises when the call inside its `try` block fails
   * with the message `cause`.
   */
  function ErrorOf(t: Tool, issueKey: string, commentId: string, cause: string): (e: ToolError)
    ensures e.status == Code(ClassOf(t)) && e.status in {400, 404, 500}
    ensures IsSuffix(": " + cause, e.detail)
    ensures IsInfix(cause, e.detail)
    ensures NamesIssueKey(t) ==> IsInfix(issueKey, e.detail)
    ensures t == DeleteComment ==> IsInfix(commentId, e.detail)
    ensures t != SearchIssues ==> "Failed to " <= e.detail
  {
    var context := Context(t, issueKey, commentId);
    EndsWithCause(context, cause);
    FailedToLead(t, issueKey, commentId);
    KeepsPrefix("Failed to ", context, ": " + cause);
    NamesKeyFact(t, issueKey, commentId, cause);
    NamesCommentFact(t, issueKey, commentId, cause);
    StatusIsKnown(t);
    ToolError(Code(ClassOf(t)), context + ": " + cause)
  }

  /** The `get_jira` detail in full: the action with the key, then the failure text. */
  lemma GetJiraDetail(issueKey: string, commentId: string, cause: string)
    ensures ErrorOf(GetJira, issueKey, commentId, cause)
         == ToolError(404, "Failed to fetch Jira issue " + issueKey + ": " + cause)
    ensures "Failed to fetch Jira issue " + issueKey <= ErrorOf(GetJira, issueKey, commentId, cause).detail
  {
    var lead := "Failed to fetch Jira issue ";
    assert Context(GetJira, issueKey, commentId) == "Failed to " + ("fetch Jira issue " + issueKey);
    assert "Failed to " + ("fetch Jira issue " + issueKey) == lead + issueKey;
    PrefixOfConcat(lead + issueKey, ": ", cause);
  }

  /** The issue tools' details name the key. */
  lemma NamesKeyFact(t: Tool, issueKey: string, commentId: string, cause: string)
    ensures NamesIssueKey(t) ==> IsInfix(issueKey, Context(t, issueKey, commentId) + ": " + cause)
  {
    if NamesIssueKey(t) {
      KeyFollowsLead(t, issueKey, commentId);
      Embedded(KeyLead(t, commentId), issueKey, "", cause);
    }
  }

  /** The `delete_comment` detail names the comment id. */
  lemma NamesCommentFact(t: Tool, issueKey: string, commentId: string, cause: string)
    ensures t == DeleteComment ==> IsInfix(commentId, Context(t, issueKey, commentId) + ": " + cause)
  {
    if t == DeleteComment {
      var lead := "Failed to " + "delete comment ";
      var trail := " from " + issueKey;
      assert Action(t, issueKey, commentId) == "delete comment " + commentId + " from " + issueKey;
      assert Context(t, issueKey, commentId) == "Failed to " + ("delete comment " + commentId + " from " + issueKey);
      assert Context(t, issueKey, commentId) == lead + commentId + trail;
      Embedded(lead, commentId, trail, cause);
    }
  }

  lemma KeepsPrefix(p: string, s: string, tail: string)
    ensures p <= s ==> p <= s + tail
  {
    if p <= s {
      assert (s + tail)[..|p|] == s[..|p|];
    }
  }

  lemma StatusIsKnown(t: Tool)
    ensures Code(ClassOf(t)) in {400, 404, 500}
  {
    match ClassOf(t)
    case NotFound =>
    case InvalidRequest =>
    case Unavailable =>
  }

  /** Every context but the search tool's opens with "Failed to ". */
  lemma FailedToLead(t: Tool, issueKey: string, commentId: string)
    ensures t != SearchIssues ==> "Failed to " <= Context(t, issueKey, commentId)
  {
    if t != SearchIssues {
      PrefixOfConcat("Failed to ", Action(t, issueKey, commentId), "");
      assert "Failed to " + Action(t, issueKey, commentId) + "" == Context(t, issueKey, commentId);
    }
  }

  lemma PrefixOfConcat(p: string, a: string, b: string)
    ensures p <= p + a + b
  {
    assert (p + a + b)[..|p|] == p;
  }

  /** A piece of the context still occurs once the cause is appended. */
  lemma Embedded(lead: string, x: string, trail: string, cause: string)
    ensures IsInfix(x, lead + x + trail + ": " + cause)
  {
    InfixOf(x, lead, trail + ": " + cause);
    assert lead + x + (trail + ": " + cause) == lead + x + trail + ": " + cause;
  }

  lemma EndsWithCause(context: string, cause: string)
    ensures IsSuffix(": " + cause, context + ": " + cause)
    ensures IsInfix(cause, context + ": " + cause)
  {
    InfixOf(cause, context + ": ", "");
    assert context + ": " + cause + "" == context + ": " + cause;
  }

  lemma KeyFollowsLead(t: Tool, issueKey: string, commentId: string)
    requires NamesIssueKey(t)
    ensures Context(t, issueKey, commentId) == KeyLead(t, commentId) + issueKey + ""
  {
    ActionFollowsLead(t, issueKey, commentId);
    var a := KeyActionLead(t, commentId);
    assert Context(t, issueKey, commentId) == "Failed to " + (a + issueKey);
    assert "Failed to " + (a + issueKey) == ("Failed to " + a) + issueKey + "";
  }

  lemma ActionFollowsLead(t: Tool, issueKey: string, commentId: string)
    requires NamesIssueKey(t)
    ensures t != SearchIssues && Action(t, issueKey, commentId) == KeyActionLead(t, commentId) + issueKey
  {
    match t
    case GetJira =>
    case UpdateIssue =>
    case AddComment =>
    case DeleteComment =>
    case GetIssueComments =>
    case AssignIssue =>
    case UnassignIssue =>
    case TransitionIssue =>
    case GetIssueTransitions =>
    case DeleteIssue =>
    case AddIssueLabels =>
    case RemoveIssueLabels =>
  }

  /** Every write tool reports its failures as invalid requests (400). */
  lemma WriteToolsFailAsInvalidRequest(t: Tool)
    requires IsWriteTool(t)
    ensures ClassOf(t) == InvalidRequest
  {
  }
}
