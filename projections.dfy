/**
 * The record projections of `search_issues` (server.py:98-119) and
 * `get_issue_comments` (server.py:385-394): each tracker object is reduced
 * to a fixed set of keys, nested objects to one of their strings, and
 * missing values to JSON null or to a default.
 */
module Projections {
  import opened Wrappers
  import opened Text
  import opened Normalizer
  import opened Auth
  import opened Registry
  import opened Errors

  /** A nested object the projection reduces to its `name`: a status, priority, issue type or version. */
  datatype Named = Named(name: string)

  /** A user object, reduced to its `displayName`. */
  datatype Person = Person(displayName: string)

  /**
   * The fields of a found issue. Each nested object may be absent; a
   * missing summary, timestamp or description is `None`. `others` stands for
   * every field the projection does not read.
   */
  datatype IssueFields = IssueFields(
    summary: Option<string>,
    status: Option<Named>,
    assignee: Option<Person>,
    qaContact: Option<Person>,
    reporter: Option<Person>,
    priority: Option<Named>,
    issueType: Option<Named>,
    fixVersions: seq<Named>,
    created: Option<string>,
    updated: Option<string>,
    description: Option<string>,
    others: seq<(string, Json)>)

  /** An issue as `search_issues` returns it. */
  datatype FoundIssue = FoundIssue(key: string, fields: IssueFields)

  /** The keys of a simplified issue, in order. */
  const IssueKeys: seq<string> :=
    ["key", "summary", "status", "assignee", "qa_contact", "reporter",
     "priority", "issuetype", "fixVersion", "created", "updated", "description"]

  /** A Python `str` or `None`, as it appears in the JSON document. */
  function OrNull(o: Option<string>): Json
  {
    if o.Some? then Str(o.value) else Null
  }

  function NameOf(o: Option<Named>): Option<string>
  {
    if o.Some? then Some(o.value.name) else None
  }

  function DisplayNameOf(o: Option<Person>): Option<string>
  {
    if o.Some? then Some(o.value.displayName) else None
  }

  /** The first fix version's name, or `None` when there is none. */
  function FirstVersion(versions: seq<Named>): Option<string>
  {
    if versions == [] then None else Some(versions[0].name)
  }

  /** The twelve-key record `search_issues` keeps of one issue. */
  function Simplified(issue: FoundIssue): seq<(string, Json)>
  {
    var f := issue.fields;
    [("key", Str(issue.key)),
     ("summary", OrNull(f.summary)),
     ("status", OrNull(NameOf(f.status))),
     ("assignee", OrNull(DisplayNameOf(f.assignee))),
     ("qa_contact", OrNull(DisplayNameOf(f.qaContact))),
     ("reporter", OrNull(DisplayNameOf(f.reporter))),
     ("priority", OrNull(NameOf(f.priority))),
     ("issuetype", OrNull(NameOf(f.issueType))),
     ("fixVersion", OrNull(FirstVersion(f.fixVersions))),
     ("created", OrNull(f.created)),
     ("updated", OrNull(f.updated)),
     ("description", OrNull(f.description))]
  }

  /**
   * Every simplified issue has the same twelve keys in the same order,
   * whatever the issue holds, and the fields the projection does not read
   * leave no trace in it.
   */
  lemma SimplifiedIsBounded(issue: FoundIssue, others: seq<(string, Json)>)
    ensures |Simplified(issue)| == |IssueKeys|
    ensures forall k :: 0 <= k < |IssueKeys| ==> Simplified(issue)[k].0 == IssueKeys[k]
    ensures Simplified(issue) == Simplified(issue.(fields := issue.fields.(others := others)))
  {
  }

  /**
   * A nested object becomes JSON null exactly when it is absent, and its
   * name otherwise; only the first fix version is reported.
   */
  lemma SimplifiedNullWhenAbsent(issue: FoundIssue, later: seq<Named>)
    ensures (Simplified(issue)[2].1 == Null) <==> issue.fields.status.None?
    ensures (Simplified(issue)[3].1 == Null) <==> issue.fields.assignee.None?
    ensures (Simplified(issue)[4].1 == Null) <==> issue.fields.qaContact.None?
    ensures (Simplified(issue)[5].1 == Null) <==> issue.fields.reporter.None?
    ensures (Simplified(issue)[6].1 == Null) <==> issue.fields.priority.None?
    ensures (Simplified(issue)[7].1 == Null) <==> issue.fields.issueType.None?
    ensures (Simplified(issue)[8].1 == Null) <==> issue.fields.fixVersions == []
    ensures issue.fields.fixVersions != [] ==>
      Simplified(issue) == Simplified(issue.(fields := issue.fields.(fixVersions := [issue.fields.fixVersions[0]] + later)))
  {
  }

  /**
   * A nested object that is present is reported by its `name`, a user by its
   * `displayName`, and a version list by its first version's name.
   */
  lemma SimplifiedKeepsNames(issue: FoundIssue)
    ensures var f := issue.fields;
      && (f.status.Some? ==> Simplified(issue)[2].1 == Str(f.status.value.name))
      && (f.assignee.Some? ==> Simplified(issue)[3].1 == Str(f.assignee.value.displayName))
      && (f.qaContact.Some? ==> Simplified(issue)[4].1 == Str(f.qaContact.value.displayName))
      && (f.reporter.Some? ==> Simplified(issue)[5].1 == Str(f.reporter.value.displayName))
      && (f.priority.Some? ==> Simplified(issue)[6].1 == Str(f.priority.value.name))
      && (f.issueType.Some? ==> Simplified(issue)[7].1 == Str(f.issueType.value.name))
      && (f.fixVersions != [] ==> Simplified(issue)[8].1 == Str(f.fixVersions[0].name))
  {
  }

  /** The search loop: one simplified record per issue, in order. */
  method SimplifyIssues(issues: seq<FoundIssue>) returns (simplified: seq<PyValue>)
    ensures |simplified| == |issues|
    ensures forall i :: 0 <= i < |issues| ==> simplified[i] == Dict(Simplified(issues[i]))
  {
    simplified := [];
    for n := 0 to |issues|
      invariant |simplified| == n
      invariant forall i :: 0 <= i < n ==> simplified[i] == Dict(Simplified(issues[i]))
    {
      simplified := simplified + [Dict(Simplified(issues[n]))];
    }
  }

  /** What `search_issues` renders for the issues it found. */
  function SearchListing(issues: seq<FoundIssue>): PyValue
  {
    List(seq(|issues|, i requires 0 <= i < |issues| => Dict(Simplified(issues[i]))))
  }

  /**
   * `search_issues`: the tracker is asked for at most `maxResults` issues
   * matching the query, and the answer is rendered as one fenced block per
   * simplified issue. Any failure, authentication included, is the
   * "JQL search failed" 400 error.
   */
  method SearchIssues(dumps: Json -> string, auth: Result<Client, string>,
                      search: (string, int) -> Result<seq<FoundIssue>, string>,
                      jql: string, maxResults: int := 100) returns (r: Result<string, ToolError>)
    ensures auth.Failure? ==> r == Failure(ErrorOf(Tool.SearchIssues, "", "", auth.error))
    ensures auth.Success? && search(jql, maxResults).Failure? ==>
      r == Failure(ErrorOf(Tool.SearchIssues, "", "", search(jql, maxResults).error))
    ensures auth.Success? && search(jql, maxResults).Success? ==>
      r == Success(ToMarkdown(dumps, SearchListing(search(jql, maxResults).value)))
    ensures r.Failure? ==> r.error.status == 400
  {
    if auth.Failure? {
      r := Failure(ErrorOf(Tool.SearchIssues, "", "", auth.error));
      return;
    }
    var reply := search(jql, maxResults);
    if reply.Failure? {
      r := Failure(ErrorOf(Tool.SearchIssues, "", "", reply.error));
      return;
    }
    var simplified := SimplifyIssues(reply.value);
    var issues := reply.value;
    assert simplified == seq(|issues|, i requires 0 <= i < |issues| => Dict(Simplified(issues[i])));
    r := Success(ToMarkdown(dumps, List(simplified)));
  }

  /**
   * A search that finds nothing renders as the empty string; otherwise the
   * text opens and closes with a fence marker and holds the JSON text of
   * every simplified issue.
   */
  lemma SearchListingShape(dumps: Json -> string, issues: seq<FoundIssue>, i: nat)
    ensures issues == [] ==> ToMarkdown(dumps, SearchListing(issues)) == ""
    ensures i < |issues| ==>
      var text := ToMarkdown(dumps, SearchListing(issues));
      FenceOpen <= text && IsSuffix(FenceClose, text) && IsInfix(dumps(Object(Simplified(issues[i]))), text)
  {
    if issues == [] {
      ListIsJoin(dumps, []);
      assert SearchListing(issues) == List([]);
    }
    if i < |issues| {
      var records := seq(|issues|, k requires 0 <= k < |issues| => Simplified(issues[k]));
      var items := seq(|records|, k requires 0 <= k < |records| => Dict(records[k]));
      assert items == seq(|issues|, k requires 0 <= k < |issues| => Dict(Simplified(issues[k])));
      assert SearchListing(issues) == List(items);
      ListOfDicts(dumps, records, i);
    }
  }

  /** A comment as the tracker returns it; `updated` is absent on some servers. */
  datatype CommentRecord = CommentRecord(
    id: string,
    author: Option<Person>,
    body: string,
    created: string,
    updated: Option<string>)

  /** The placeholder author of a comment without one. */
  const UnknownAuthor: string := "Unknown"

  /** The five-key record `get_issue_comments` keeps of one comment. */
  function CommentSummary(c: CommentRecord): seq<(string, Json)>
  {
    [("id", Str(c.id)),
     ("author", Str(DisplayNameOf(c.author).GetOr(UnknownAuthor))),
     ("body", Str(c.body)),
     ("created", Str(c.created)),
     ("updated", Str(c.updated.GetOr(c.created)))]
  }

  /**
   * A comment without an author is attributed to "Unknown", and one without
   * an update time reports its creation time twice, so every record has all
   * five keys as strings.
   */
  lemma CommentDefaults(c: CommentRecord)
    ensures c.author.None? ==> CommentSummary(c)[1] == ("author", Str(UnknownAuthor))
    ensures c.author.Some? ==> CommentSummary(c)[1] == ("author", Str(c.author.value.displayName))
    ensures c.updated.None? ==> CommentSummary(c)[4].1 == CommentSummary(c)[3].1
    ensures forall k :: 0 <= k < 5 ==> CommentSummary(c)[k].1.Str?
  {
  }

  /** The comments loop: one summary per comment, in order. */
  method SimplifyComments(comments: seq<CommentRecord>) returns (summaries: seq<PyValue>)
    ensures |summaries| == |comments|
    ensures forall i :: 0 <= i < |comments| ==> summaries[i] == Dict(CommentSummary(comments[i]))
  {
    summaries := [];
    var n := 0;
    while n < |comments|
      invariant 0 <= n <= |comments|
      invariant |summaries| == n
      invariant forall i :: 0 <= i < n ==> summaries[i] == Dict(CommentSummary(comments[i]))
    {
      summaries := summaries + [Dict(CommentSummary(comments[n]))];
      n := n + 1;
    }
  }

  /** What `get_issue_comments` renders for an issue's comments. */
  function CommentListing(comments: seq<CommentRecord>): PyValue
  {
    List(seq(|comments|, i requires 0 <= i < |comments| => Dict(CommentSummary(comments[i]))))
  }
}
