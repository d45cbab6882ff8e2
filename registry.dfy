/**
 * The tool catalogue and the write gate (server.py:20-21 and the
 * `@mcp.tool(...)` decorators): thirty tools, of which the ten that change
 * the tracker are registered with `enabled=ENABLE_WRITE`.
 */
module Registry {
  import opened Wrappers
  import opened Text

  datatype Tool =
    | GetJira | SearchIssues | SearchUsers | ListProjects | GetProject
    | GetProjectComponents | GetProjectVersions | GetProjectRoles
    | GetProjectPermissionScheme | GetProjectIssueTypes | GetCurrentUser | GetUser
    | GetAssignableUsersForProject | GetAssignableUsersForIssue | ListBoards
    | ListSprints | GetSprint | GetSprintsByName
    | CreateIssue | UpdateIssue | AddComment | DeleteComment | GetIssueComments
    | AssignIssue | UnassignIssue | TransitionIssue | GetIssueTransitions
    | DeleteIssue | AddIssueLabels | RemoveIssueLabels

  /** Every tool, in the order the module registers them. */
  const Catalogue: seq<Tool> := [
    GetJira, SearchIssues, SearchUsers, ListProjects, GetProject,
    GetProjectComponents, GetProjectVersions, GetProjectRoles,
    GetProjectPermissionScheme, GetProjectIssueTypes, GetCurrentUser, GetUser,
    GetAssignableUsersForProject, GetAssignableUsersForIssue, ListBoards,
    ListSprints, GetSprint, GetSprintsByName,
    CreateIssue, UpdateIssue, AddComment, DeleteComment, GetIssueComments,
    AssignIssue, UnassignIssue, TransitionIssue, GetIssueTransitions,
    DeleteIssue, AddIssueLabels, RemoveIssueLabels]

  /** Where a tool stands in the catalogue. */
  function Position(t: Tool): (i: nat)
    ensures i < |Catalogue| && Catalogue[i] == t
  {
    match t
    case GetJira => 0
    case SearchIssues => 1
    case SearchUsers => 2
    case ListProjects => 3
    case GetProject => 4
    case GetProjectComponents => 5
    case GetProjectVersions => 6
    case GetProjectRoles => 7
    case GetProjectPermissionScheme => 8
    case GetProjectIssueTypes => 9
    case GetCurrentUser => 10
    case GetUser => 11
    case GetAssignableUsersForProject => 12
    case GetAssignableUsersForIssue => 13
    case ListBoards => 14
    case ListSprints => 15
    case GetSprint => 16
    case GetSprintsByName => 17
    case CreateIssue => 18
    case UpdateIssue => 19
    case AddComment => 20
    case DeleteComment => 21
    case GetIssueComments => 22
    case AssignIssue => 23
    case UnassignIssue => 24
    case TransitionIssue => 25
    case GetIssueTransitions => 26
    case DeleteIssue => 27
    case AddIssueLabels => 28
    case RemoveIssueLabels => 29
  }

  /** The tools decorated with `@mcp.tool(enabled=ENABLE_WRITE)`. */
  const WriteTools: set<Tool> := {
    CreateIssue, UpdateIssue, AddComment, DeleteComment, AssignIssue,
    UnassignIssue, TransitionIssue, DeleteIssue, AddIssueLabels, RemoveIssueLabels}

  predicate IsWriteTool(t: Tool)
  {
    t in WriteTools
  }

  /**
   * `ENABLE_WRITE`: `os.getenv("JIRA_ENABLE_WRITE", "false").lower() == "true"`,
   * where `env` is the variable's value if it is set.
   */
  function EnableWrite(env: Option<string>): (enabled: bool)
    ensures enabled <==>
              (env.Some? && |env.value| == 4 && env.value[0] in "tT" && env.value[1] in "rR"
               && env.value[2] in "uU" && env.value[3] in "eE")
  {
    LowerIsTrue(env.GetOr("false"));
    Lower(env.GetOr("false")) == "true"
  }

  /** Whether a tool is enabled once the flag has been read. */
  predicate Enabled(t: Tool, writeEnabled: bool)
  {
    !IsWriteTool(t) || writeEnabled
  }

  /** The enabled tools among `ts`, in their order. */
  function EnabledAmong(ts: seq<Tool>, writeEnabled: bool): (r: seq<Tool>)
    ensures forall t :: t in r <==> t in ts && Enabled(t, writeEnabled)
    ensures |r| <= |ts|
  {
    if ts == [] then []
    else (if Enabled(ts[0], writeEnabled) then [ts[0]] else []) + EnabledAmong(ts[1..], writeEnabled)
  }

  /** The tools a caller can discover and invoke. */
  function Listed(writeEnabled: bool): seq<Tool>
  {
    EnabledAmong(Catalogue, writeEnabled)
  }

  /** A filter that keeps everything is the identity. */
  lemma {:induction false} AllEnabled(ts: seq<Tool>)
    ensures EnabledAmong(ts, true) == ts
  {
    if ts != [] {
      AllEnabled(ts[1..]);
    }
  }

  /** The catalogue holds every tool. */
  lemma CatalogueComplete()
    ensures forall t :: t in Catalogue
  {
    forall t ensures t in Catalogue {
      var _ := Position(t);
    }
  }

  /** Exactly ten tools are gated. */
  lemma WriteToolCount()
    ensures |WriteTools| == 10
  {
  }

  /** With the flag on, every tool is listed, in registration order. */
  lemma WriteEnabledListsAll()
    ensures Listed(true) == Catalogue
  {
    AllEnabled(Catalogue);
  }

  /**
   * The write gate: with the flag off exactly the ten write tools disappear
   * and every other tool stays, so flipping the flag changes the visibility
   * of the write tools and of nothing else.
   */
  lemma WriteGate()
    ensures forall t :: t in Listed(false) <==> !IsWriteTool(t)
    ensures forall t :: (t in Listed(true) && t !in Listed(false)) <==> IsWriteTool(t)
  {
    CatalogueComplete();
    GateOver(Catalogue);
  }

  /** Over a list holding every tool, the flag decides exactly the write tools. */
  lemma GateOver(ts: seq<Tool>)
    requires forall t :: t in ts
    ensures forall t :: t in EnabledAmong(ts, false) <==> !IsWriteTool(t)
    ensures forall t :: (t in EnabledAmong(ts, true) && t !in EnabledAmong(ts, false)) <==> IsWriteTool(t)
  {
  }
}
