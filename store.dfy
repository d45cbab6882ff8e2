/**
 * The issue tools over a tracker that holds issues by key (server.py:60-76
 * and 322-502). Every tool first authenticates; the failure of any step
 * becomes the tool's own error, and a write changes only the issue named.
 */
module Store {
  import opened Wrappers
  import opened Text
  import opened Normalizer
  import opened Auth
  import opened Registry
  import opened Errors
  import opened Payloads
  import opened Transitions
  import opened Projections
  import opened Messages
  import opened Labels

  /** An issue in the fields the tools read or write. */
  datatype Issue = Issue(
    summary: Option<string>,
    description: Option<string>,
    priority: Option<string>,
    assignee: Option<string>,
    labels: seq<string>,
    comments: seq<CommentRecord>,
    transitions: seq<Transition>)

  /** A transition the tracker was asked to perform, with the comment sent along if any. */
  datatype Performed = Performed(issueKey: string, transitionId: string, comment: Option<string>)

  /** The tracker's failure text for an unknown issue key. */
  const IssueMissing: string := "Issue Does Not Exist"

  /** The tracker's failure text for an unknown comment id. */
  const CommentMissing: string := "Comment Does Not Exist"

  /** The effect of one entry of a field dictionary; keys the model does not hold are ignored. */
  function ApplyField(issue: Issue, field: (string, FieldValue)): Issue
  {
    var (key, value) := field;
    if key == "summary" && value.Text? then issue.(summary := Some(value.text))
    else if key == "description" && value.Text? then issue.(description := Some(value.text))
    else if key == "priority" && value.ByName? then issue.(priority := Some(value.name))
    else if key == "assignee" && value.ByName? then issue.(assignee := Some(value.name))
    else if key == "labels" && value.Labels? then issue.(labels := value.labels)
    else issue
  }

  /** `issue.update(fields=...)`: the entries take effect in order. */
  function Apply(issue: Issue, fields: Fields): Issue
    decreases |fields|
  {
    if fields == [] then issue else Apply(ApplyField(issue, fields[0]), fields[1..])
  }

  lemma {:induction false} ApplyAppend(issue: Issue, f: Fields, g: Fields)
    ensures Apply(issue, f + g) == Apply(Apply(issue, f), g)
    decreases |f|
  {
    if f == [] {
      assert f + g == g;
    } else {
      assert (f + g)[0] == f[0];
      assert (f + g)[1..] == f[1..] + g;
      ApplyAppend(ApplyField(issue, f[0]), f[1..], g);
    }
  }

  /**
   * An update sets exactly the fields whose argument is truthy and leaves
   * every other field, labels, comments and transitions included, as it was.
   */
  lemma ApplyUpdate(issue: Issue, summary: Option<string>, description: Option<string>,
                    priority: Option<string>, assignee: Option<string>)
    ensures Apply(issue, UpdateFields(summary, description, priority, assignee))
         == issue.(summary := if Truthy(summary) then summary else issue.summary,
                   description := if Truthy(description) then description else issue.description,
                   priority := if Truthy(priority) then priority else issue.priority,
                   assignee := if Truthy(assignee) then assignee else issue.assignee)
  {
    var s := IfTruthy("summary", summary, false);
    var d := IfTruthy("description", description, false);
    var p := IfTruthy("priority", priority, true);
    var a := IfTruthy("assignee", assignee, true);
    ApplyAppend(issue, s + d + p, a);
    ApplyAppend(issue, s + d, p);
    ApplyAppend(issue, s, d);
    var i1 := Apply(issue, s);
    assert i1 == issue.(summary := if Truthy(summary) then summary else issue.summary);
    var i2 := Apply(i1, d);
    assert i2 == i1.(description := if Truthy(description) then description else issue.description);
    var i3 := Apply(i2, p);
    assert i3 == i2.(priority := if Truthy(priority) then priority else issue.priority);
  }

  /** A labels-only dictionary replaces the labels and nothing else. */
  lemma ApplyLabels(issue: Issue, labels: seq<string>)
    ensures Apply(issue, [("labels", Labels(labels))]) == issue.(labels := labels)
  {
  }

  /** Every comment except those with the given id, in order. */
  function CommentsWithout(comments: seq<CommentRecord>, commentId: string): seq<CommentRecord>
  {
    if comments == [] then []
    else (if comments[0].id == commentId then [] else [comments[0]]) + CommentsWithout(comments[1..], commentId)
  }

  /** After a deletion no comment has the id, and every other comment is still there. */
  lemma {:induction false} CommentsWithoutMeaning(comments: seq<CommentRecord>, commentId: string)
    ensures forall c :: c in CommentsWithout(comments, commentId) <==> c in comments && c.id != commentId
    ensures |CommentsWithout(comments, commentId)| <= |comments|
  {
    if comments != [] {
      CommentsWithoutMeaning(comments[1..], commentId);
      assert comments == [comments[0]] + comments[1..];
    }
  }

  /** Some comment of the list has the id. */
  predicate HasComment(comments: seq<CommentRecord>, commentId: string)
  {
    exists i :: 0 <= i < |comments| && comments[i].id == commentId
  }

  /** No two comments of the list share an id, as the tracker's ids are unique. */
  predicate DistinctIds(comments: seq<CommentRecord>)
  {
    forall i, j :: 0 <= i < j < |comments| ==> comments[i].id != comments[j].id
  }

  /** No comment carries an id the tracker has yet to hand out. */
  ghost predicate IdsBefore(comments: seq<CommentRecord>, next: nat)
  {
    forall i, n: nat :: 0 <= i < |comments| && next <= n ==> comments[i].id != NatToString(n)
  }

  /** Every issue's comments have distinct ids, none of them still to be handed out. */
  ghost predicate WellNumbered(issues: map<string, Issue>, next: nat)
  {
    forall k :: k in issues ==> DistinctIds(issues[k].comments) && IdsBefore(issues[k].comments, next)
  }

  /** A comment given the next id keeps the numbering sound once the counter moves on. */
  lemma AppendFresh(comments: seq<CommentRecord>, next: nat, added: CommentRecord)
    requires DistinctIds(comments) && IdsBefore(comments, next)
    requires added.id == NatToString(next)
    ensures DistinctIds(comments + [added]) && IdsBefore(comments + [added], next + 1)
  {
    var cs := comments + [added];
    forall n: nat | next + 1 <= n
      ensures added.id != NatToString(n)
    {
      NatToStringInjective(next, n);
    }
    assert forall i :: 0 <= i < |comments| ==> cs[i] == comments[i];
  }

  /** Removing the comments with one id leaves the numbering sound. */
  lemma {:induction false} CommentsWithoutNumbered(comments: seq<CommentRecord>, commentId: string, next: nat)
    requires DistinctIds(comments) && IdsBefore(comments, next)
    ensures DistinctIds(CommentsWithout(comments, commentId)) && IdsBefore(CommentsWithout(comments, commentId), next)
  {
    if comments != [] {
      var tail := comments[1..];
      assert forall i :: 0 <= i < |tail| ==> tail[i] == comments[i + 1];
      CommentsWithoutNumbered(tail, commentId, next);
      CommentsWithoutMeaning(tail, commentId);
      var rest := CommentsWithout(tail, commentId);
      forall j | 0 <= j < |rest|
        ensures comments[0].id != rest[j].id
      {
        assert rest[j] in tail;
        var m :| 0 <= m < |tail| && tail[m] == rest[j];
        assert comments[m + 1] == rest[j];
      }
      if comments[0].id != commentId {
        var cs := [comments[0]] + rest;
        assert CommentsWithout(comments, commentId) == cs;
        assert forall j :: 0 < j < |cs| ==> cs[j] == rest[j - 1];
      } else {
        assert CommentsWithout(comments, commentId) == rest;
      }
    }
  }

  /** Removing an id no comment carries changes nothing. */
  lemma {:induction false} CommentsWithoutAbsent(comments: seq<CommentRecord>, commentId: string)
    requires forall j :: 0 <= j < |comments| ==> comments[j].id != commentId
    ensures CommentsWithout(comments, commentId) == comments
  {
    if comments != [] {
      CommentsWithoutAbsent(comments[1..], commentId);
      assert [comments[0]] + comments[1..] == comments;
    }
  }

  /** With distinct ids, deleting by the id of one comment drops exactly that comment. */
  lemma {:induction false} CommentsWithoutOne(comments: seq<CommentRecord>, i: nat)
    requires DistinctIds(comments) && i < |comments|
    ensures CommentsWithout(comments, comments[i].id) == comments[..i] + comments[i + 1..]
  {
    var tail := comments[1..];
    assert forall j :: 0 <= j < |tail| ==> tail[j] == comments[j + 1];
    if i == 0 {
      CommentsWithoutAbsent(tail, comments[0].id);
      assert comments[1..] == tail;
    } else {
      CommentsWithoutOne(tail, i - 1);
      assert tail[i - 1] == comments[i];
      assert comments[..i] == [comments[0]] + tail[..i - 1];
      assert comments[i + 1..] == tail[i..];
    }
  }

  /** Replacing an issue by one with the same comments keeps the numbering sound. */
  lemma SameComments(issues: map<string, Issue>, next: nat, key: string, issue: Issue)
    requires WellNumbered(issues, next) && key in issues
    requires issue.comments == issues[key].comments
    ensures WellNumbered(issues[key := issue], next)
  {
  }

  /** The tracker, as the issue tools see it through an authenticated client. */
  class IssueStore {
    /** The issues, by key. */
    var issues: map<string, Issue>
    /** Every transition performed so far, oldest first. */
    var performed: seq<Performed>
    /** The id the next new comment receives. */
    var nextCommentId: nat
    /** The display name of the account the tools act as. */
    const author: string
    /** The time the tracker stamps on new comments. */
    const now: string

    /** Comment ids are unique, and the counter is past every id handed out. */
    ghost predicate Valid()
      reads this
    {
      WellNumbered(issues, nextCommentId)
    }

    constructor (issues: map<string, Issue>, author: string, now: string, firstCommentId: nat)
      requires WellNumbered(issues, firstCommentId)
      ensures Valid()
      ensures this.issues == issues && performed == [] && nextCommentId == firstCommentId
      ensures this.author == author && this.now == now
    {
      this.issues := issues;
      this.performed := [];
      this.nextCommentId := firstCommentId;
      this.author := author;
      this.now := now;
    }

    /**
     * `get_jira`: the heading of the issue, or the 404 error naming the key.
     * Nothing changes.
     */
    method GetJira(auth: Result<Client, string>, key: string) returns (r: Result<string, ToolError>)
      ensures auth.Failure? ==> r == Failure(ErrorOf(Tool.GetJira, key, "", auth.error))
      ensures auth.Success? && key !in issues ==> r == Failure(ErrorOf(Tool.GetJira, key, "", IssueMissing))
      ensures auth.Success? && key in issues ==>
        r == Success(Heading(key, issues[key].summary, issues[key].description))
      ensures r.Failure? ==> r.error.status == 404 && IsInfix(key, r.error.detail)
    {
      if auth.Failure? {
        r := Failure(ErrorOf(Tool.GetJira, key, "", auth.error));
      } else if key !in issues {
        r := Failure(ErrorOf(Tool.GetJira, key, "", IssueMissing));
      } else {
        var issue := issues[key];
        r := Success(Heading(key, issue.summary, issue.description));
      }
    }

    /** `get_issue_comments`: one record per comment, rendered; nothing changes. */
    method GetIssueComments(dumps: Json -> string, auth: Result<Client, string>, key: string)
      returns (r: Result<string, ToolError>)
      ensures auth.Failure? ==> r == Failure(ErrorOf(Tool.GetIssueComments, key, "", auth.error))
      ensures auth.Success? && key !in issues ==> r == Failure(ErrorOf(Tool.GetIssueComments, key, "", IssueMissing))
      ensures auth.Success? && key in issues ==>
        r == Success(ToMarkdown(dumps, CommentListing(issues[key].comments)))
    {
      if auth.Failure? {
        r := Failure(ErrorOf(Tool.GetIssueComments, key, "", auth.error));
        return;
      }
      if key !in issues {
        r := Failure(ErrorOf(Tool.GetIssueComments, key, "", IssueMissing));
        return;
      }
      var comments := issues[key].comments;
      var summaries := SimplifyComments(comments);
      assert summaries == seq(|comments|, i requires 0 <= i < |comments| => Dict(CommentSummary(comments[i])));
      r := Success(ToMarkdown(dumps, List(summaries)));
    }

    /** `get_issue_transitions`: the id and name of each available transition; nothing changes. */
    method GetIssueTransitions(dumps: Json -> string, auth: Result<Client, string>, key: string)
      returns (r: Result<string, ToolError>)
      ensures auth.Failure? ==> r == Failure(ErrorOf(Tool.GetIssueTransitions, key, "", auth.error))
      ensures auth.Success? && key !in issues ==> r == Failure(ErrorOf(Tool.GetIssueTransitions, key, "", IssueMissing))
      ensures auth.Success? && key in issues ==>
        r == Success(ToMarkdown(dumps, List(Summaries(issues[key].transitions))))
    {
      if auth.Failure? {
        r := Failure(ErrorOf(Tool.GetIssueTransitions, key, "", auth.error));
      } else if key !in issues {
        r := Failure(ErrorOf(Tool.GetIssueTransitions, key, "", IssueMissing));
      } else {
        r := Success(ToMarkdown(dumps, List(Summaries(issues[key].transitions))));
      }
    }

    /*
     * In the write tools below `refusal` is the tracker's answer to the
     * write itself: `None` when it accepts, `Some(cause)` when it rejects
     * the request (an unknown user, a missing permission, a field the
     * workflow demands); a rejection is the tool's error and writes nothing.
     */

    /**
     * `update_issue`: the issue must exist even when there is nothing to
     * update; then the truthy arguments are written, or the no-updates
     * reply is given and nothing changes.
     */
    method UpdateIssue(auth: Result<Client, string>, refusal: Option<string>, key: string,
                       summary: Option<string> := None, description: Option<string> := None,
                       priority: Option<string> := None, assignee: Option<string> := None)
      returns (r: Result<string, ToolError>)
      requires Valid()
      modifies this
      ensures Valid()
      ensures performed == old(performed) && nextCommentId == old(nextCommentId)
      ensures auth.Failure? ==> r == Failure(ErrorOf(Tool.UpdateIssue, key, "", auth.error)) && issues == old(issues)
      ensures auth.Success? && key !in old(issues) ==>
        r == Failure(ErrorOf(Tool.UpdateIssue, key, "", IssueMissing)) && issues == old(issues)
      ensures auth.Success? && key in old(issues) ==>
        var fields := UpdateFields(summary, description, priority, assignee);
        if fields == [] then r == Success(NoUpdatesMessage(key)) && issues == old(issues)
        else if refusal.Some? then r == Failure(ErrorOf(Tool.UpdateIssue, key, "", refusal.value)) && issues == old(issues)
        else r == Success(UpdatedMessage(key)) && issues == old(issues)[key := Apply(old(issues)[key], fields)]
    {
      if auth.Failure? {
        r := Failure(ErrorOf(Tool.UpdateIssue, key, "", auth.error));
        return;
      }
      if key !in issues {
        r := Failure(ErrorOf(Tool.UpdateIssue, key, "", IssueMissing));
        return;
      }
      var update := BuildUpdateFields(summary, description, priority, assignee);
      if update == [] {
        r := Success(NoUpdatesMessage(key));
      } else if refusal.Some? {
        r := Failure(ErrorOf(Tool.UpdateIssue, key, "", refusal.value));
      } else {
        ApplyUpdate(issues[key], summary, description, priority, assignee);
        SameComments(issues, nextCommentId, key, Apply(issues[key], update));
        issues := issues[key := Apply(issues[key], update)];
        r := Success(UpdatedMessage(key));
      }
    }

    /** `assign_issue`: the issue's assignee becomes the given user. */
    method AssignIssue(auth: Result<Client, string>, refusal: Option<string>, key: string, assignee: string)
      returns (r: Result<string, ToolError>)
      requires Valid()
      modifies this
      ensures Valid()
      ensures performed == old(performed) && nextCommentId == old(nextCommentId)
      ensures auth.Failure? ==> r == Failure(ErrorOf(Tool.AssignIssue, key, "", auth.error)) && issues == old(issues)
      ensures auth.Success? && key !in old(issues) ==>
        r == Failure(ErrorOf(Tool.AssignIssue, key, "", IssueMissing)) && issues == old(issues)
      ensures auth.Success? && key in old(issues) && refusal.Some? ==>
        r == Failure(ErrorOf(Tool.AssignIssue, key, "", refusal.value)) && issues == old(issues)
      ensures auth.Success? && key in old(issues) && refusal.None? ==>
        r == Success(AssignedMessage(key, assignee))
        && issues == old(issues)[key := old(issues)[key].(assignee := Some(assignee))]
    {
      if auth.Failure? {
        r := Failure(ErrorOf(Tool.AssignIssue, key, "", auth.error));
      } else if key !in issues {
        r := Failure(ErrorOf(Tool.AssignIssue, key, "", IssueMissing));
      } else if refusal.Some? {
        r := Failure(ErrorOf(Tool.AssignIssue, key, "", refusal.value));
      } else {
        SameComments(issues, nextCommentId, key, issues[key].(assignee := Some(assignee)));
        issues := issues[key := issues[key].(assignee := Some(assignee))];
        r := Success(AssignedMessage(key, assignee));
      }
    }

    /** `unassign_issue`: the issue is left without an assignee. */
    method UnassignIssue(auth: Result<Client, string>, refusal: Option<string>, key: string)
      returns (r: Result<string, ToolError>)
      requires Valid()
      modifies this
      ensures Valid()
      ensures performed == old(performed) && nextCommentId == old(nextCommentId)
      ensures auth.Failure? ==> r == Failure(ErrorOf(Tool.UnassignIssue, key, "", auth.error)) && issues == old(issues)
      ensures auth.Success? && key !in old(issues) ==>
        r == Failure(ErrorOf(Tool.UnassignIssue, key, "", IssueMissing)) && issues == old(issues)
      ensures auth.Success? && key in old(issues) && refusal.Some? ==>
        r == Failure(ErrorOf(Tool.UnassignIssue, key, "", refusal.value)) && issues == old(issues)
      ensures auth.Success? && key in old(issues) && refusal.None? ==>
        r == Success(UnassignedMessage(key))
        && issues == old(issues)[key := old(issues)[key].(assignee := None)]
    {
      if auth.Failure? {
        r := Failure(ErrorOf(Tool.UnassignIssue, key, "", auth.error));
      } else if key !in issues {
        r := Failure(ErrorOf(Tool.UnassignIssue, key, "", IssueMissing));
      } else if refusal.Some? {
        r := Failure(ErrorOf(Tool.UnassignIssue, key, "", refusal.value));
      } else {
        SameComments(issues, nextCommentId, key, issues[key].(assignee := None));
        issues := issues[key := issues[key].(assignee := None)];
        r := Success(UnassignedMessage(key));
      }
    }

    /** `delete_issue`: the key no longer names an issue. */
    method DeleteIssue(auth: Result<Client, string>, refusal: Option<string>, key: string)
      returns (r: Result<string, ToolError>)
      requires Valid()
      modifies this
      ensures Valid()
      ensures performed == old(performed) && nextCommentId == old(nextCommentId)
      ensures auth.Failure? ==> r == Failure(ErrorOf(Tool.DeleteIssue, key, "", auth.error)) && issues == old(issues)
      ensures auth.Success? && key !in old(issues) ==>
        r == Failure(ErrorOf(Tool.DeleteIssue, key, "", IssueMissing)) && issues == old(issues)
      ensures auth.Success? && key in old(issues) && refusal.Some? ==>
        r == Failure(ErrorOf(Tool.DeleteIssue, key, "", refusal.value)) && issues == old(issues)
      ensures auth.Success? && key in old(issues) && refusal.None? ==>
        r == Success(DeletedMessage(key)) && issues == old(issues) - {key}
    {
      if auth.Failure? {
        r := Failure(ErrorOf(Tool.DeleteIssue, key, "", auth.error));
      } else if key !in issues {
        r := Failure(ErrorOf(Tool.DeleteIssue, key, "", IssueMissing));
      } else if refusal.Some? {
        r := Failure(ErrorOf(Tool.DeleteIssue, key, "", refusal.value));
      } else {
        issues := issues - {key};
        r := Success(DeletedMessage(key));
      }
    }

    /**
     * `add_comment`: a new comment by the acting account is appended, and
     * the reply names the id the tracker gave it, one no other comment has.
     */
    method AddComment(auth: Result<Client, string>, refusal: Option<string>, key: string, body: string)
      returns (r: Result<string, ToolError>)
      requires Valid()
      modifies this
      ensures Valid()
      ensures performed == old(performed)
      ensures auth.Failure? ==>
        r == Failure(ErrorOf(Tool.AddComment, key, "", auth.error)) && issues == old(issues) && nextCommentId == old(nextCommentId)
      ensures auth.Success? && key !in old(issues) ==>
        r == Failure(ErrorOf(Tool.AddComment, key, "", IssueMissing)) && issues == old(issues) && nextCommentId == old(nextCommentId)
      ensures auth.Success? && key in old(issues) && refusal.Some? ==>
        r == Failure(ErrorOf(Tool.AddComment, key, "", refusal.value)) && issues == old(issues) && nextCommentId == old(nextCommentId)
      ensures auth.Success? && key in old(issues) && refusal.None? ==>
        var id := NatToString(old(nextCommentId));
        var added := CommentRecord(id, Some(Person(author)), body, now, Some(now));
        && r == Success(CommentAddedMessage(key, id))
        && !HasComment(old(issues)[key].comments, id)
        && issues == old(issues)[key := old(issues)[key].(comments := old(issues)[key].comments + [added])]
        && nextCommentId == old(nextCommentId) + 1
    {
      if auth.Failure? {
        r := Failure(ErrorOf(Tool.AddComment, key, "", auth.error));
        return;
      }
      if key !in issues {
        r := Failure(ErrorOf(Tool.AddComment, key, "", IssueMissing));
        return;
      }
      if refusal.Some? {
        r := Failure(ErrorOf(Tool.AddComment, key, "", refusal.value));
        return;
      }
      var id := NatToString(nextCommentId);
      var comment := CommentRecord(id, Some(Person(author)), body, now, Some(now));
      var comments := issues[key].comments;
      AppendFresh(comments, nextCommentId, comment);
      assert !HasComment(comments, id);
      forall k | k in issues
        ensures IdsBefore(issues[k].comments, nextCommentId + 1)
      {
      }
      issues := issues[key := issues[key].(comments := comments + [comment])];
      nextCommentId := nextCommentId + 1;
      r := Success(CommentAddedMessage(key, id));
    }

    /**
     * `delete_comment`: both the issue and the comment must exist; then that
     * one comment is gone and the others are kept in order.
     */
    method DeleteComment(auth: Result<Client, string>, refusal: Option<string>, key: string, commentId: string)
      returns (r: Result<string, ToolError>)
      requires Valid()
      modifies this
      ensures Valid()
      ensures performed == old(performed) && nextCommentId == old(nextCommentId)
      ensures auth.Failure? ==>
        r == Failure(ErrorOf(Tool.DeleteComment, key, commentId, auth.error)) && issues == old(issues)
      ensures auth.Success? && key !in old(issues) ==>
        r == Failure(ErrorOf(Tool.DeleteComment, key, commentId, IssueMissing)) && issues == old(issues)
      ensures auth.Success? && key in old(issues) && !HasComment(old(issues)[key].comments, commentId) ==>
        r == Failure(ErrorOf(Tool.DeleteComment, key, commentId, CommentMissing)) && issues == old(issues)
      ensures auth.Success? && key in old(issues) && HasComment(old(issues)[key].comments, commentId) && refusal.Some? ==>
        r == Failure(ErrorOf(Tool.DeleteComment, key, commentId, refusal.value)) && issues == old(issues)
      ensures auth.Success? && key in old(issues) && HasComment(old(issues)[key].comments, commentId) && refusal.None? ==>
        var before := old(issues)[key].comments;
        && r == Success(CommentDeletedMessage(key, commentId))
        && issues == old(issues)[key := old(issues)[key].(comments := CommentsWithout(before, commentId))]
        && |issues[key].comments| == |before| - 1
    {
      if auth.Failure? {
        r := Failure(ErrorOf(Tool.DeleteComment, key, commentId, auth.error));
        return;
      }
      if key !in issues {
        r := Failure(ErrorOf(Tool.DeleteComment, key, commentId, IssueMissing));
        return;
      }
      var comments := issues[key].comments;
      var i := 0;
      while i < |comments| && comments[i].id != commentId
        invariant 0 <= i <= |comments|
        invariant forall j :: 0 <= j < i ==> comments[j].id != commentId
      {
        i := i + 1;
      }
      if i == |comments| {
        r := Failure(ErrorOf(Tool.DeleteComment, key, commentId, CommentMissing));
        return;
      }
      if refusal.Some? {
        r := Failure(ErrorOf(Tool.DeleteComment, key, commentId, refusal.value));
        return;
      }
      CommentsWithoutOne(comments, i);
      CommentsWithoutNumbered(comments, commentId, nextCommentId);
      issues := issues[key := issues[key].(comments := CommentsWithout(comments, commentId))];
      r := Success(CommentDeletedMessage(key, commentId));
    }

    /**
     * `transition_issue`: the first transition whose name matches the
     * request ignoring case is performed, with the comment only when it is
     * truthy; an unknown name (or an empty id) performs nothing and lists the
     * names on offer.
     */
    method TransitionIssue(auth: Result<Client, string>, refusal: Option<string>, key: string, name: string,
                           comment: Option<string> := None) returns (r: Result<string, ToolError>)
      requires Valid()
      modifies this
      ensures Valid()
      ensures issues == old(issues) && nextCommentId == old(nextCommentId)
      ensures auth.Failure? ==>
        r == Failure(ErrorOf(Tool.TransitionIssue, key, "", auth.error)) && performed == old(performed)
      ensures auth.Success? && key !in issues ==>
        r == Failure(ErrorOf(Tool.TransitionIssue, key, "", IssueMissing)) && performed == old(performed)
      ensures auth.Success? && key in issues ==>
        var available := issues[key].transitions;
        var found := FirstMatch(available, name);
        if found.None? || found.value == "" then
          r == Success(NotFoundMessage(name, available)) && performed == old(performed)
        else if refusal.Some? then
          r == Failure(ErrorOf(Tool.TransitionIssue, key, "", refusal.value)) && performed == old(performed)
        else
          r == Success(TransitionedMessage(key, name, Truthy(comment)))
          && performed == old(performed) + [Performed(key, found.value, if Truthy(comment) then comment else None)]
    {
      if auth.Failure? {
        r := Failure(ErrorOf(Tool.TransitionIssue, key, "", auth.error));
        return;
      }
      if key !in issues {
        r := Failure(ErrorOf(Tool.TransitionIssue, key, "", IssueMissing));
        return;
      }
      var available := issues[key].transitions;
      var transitionId := FindTransitionId(available, name);
      if transitionId.None? || transitionId.value == "" {
        r := Success(NotFoundMessage(name, available));
        return;
      }
      if refusal.Some? {
        r := Failure(ErrorOf(Tool.TransitionIssue, key, "", refusal.value));
        return;
      }
      if comment.Some? && comment.value != "" {
        performed := performed + [Performed(key, transitionId.value, comment)];
        r := Success(TransitionedMessage(key, name, true));
      } else {
        performed := performed + [Performed(key, transitionId.value, None)];
        r := Success(TransitionedMessage(key, name, false));
      }
    }

    /**
     * `add_issue_labels`: the issue ends up with every label it had and
     * every label given, each once, in an order the model leaves open;
     * nothing else about it changes.
     */
    method AddIssueLabels(auth: Result<Client, string>, refusal: Option<string>, key: string, labels: seq<string>)
      returns (r: Result<string, ToolError>)
      requires Valid()
      modifies this
      ensures Valid()
      ensures performed == old(performed) && nextCommentId == old(nextCommentId)
      ensures auth.Failure? ==> r == Failure(ErrorOf(Tool.AddIssueLabels, key, "", auth.error)) && issues == old(issues)
      ensures auth.Success? && key !in old(issues) ==>
        r == Failure(ErrorOf(Tool.AddIssueLabels, key, "", IssueMissing)) && issues == old(issues)
      ensures auth.Success? && key in old(issues) && refusal.Some? ==>
        r == Failure(ErrorOf(Tool.AddIssueLabels, key, "", refusal.value)) && issues == old(issues)
      ensures auth.Success? && key in old(issues) && refusal.None? ==>
        && r == Success(LabelsAddedMessage(key, labels))
        && key in issues
        && issues == old(issues)[key := old(issues)[key].(labels := issues[key].labels)]
        && NoDuplicates(issues[key].labels)
        && (forall x :: x in issues[key].labels <==> x in old(issues)[key].labels || x in labels)
    {
      if auth.Failure? {
        r := Failure(ErrorOf(Tool.AddIssueLabels, key, "", auth.error));
        return;
      }
      if key !in issues {
        r := Failure(ErrorOf(Tool.AddIssueLabels, key, "", IssueMissing));
        return;
      }
      if refusal.Some? {
        r := Failure(ErrorOf(Tool.AddIssueLabels, key, "", refusal.value));
        return;
      }
      var merged := Union(issues[key].labels, labels);
      ApplyLabels(issues[key], merged);
      SameComments(issues, nextCommentId, key, issues[key].(labels := merged));
      issues := issues[key := Apply(issues[key], [("labels", Labels(merged))])];
      r := Success(LabelsAddedMessage(key, labels));
    }

    /**
     * `remove_issue_labels`: the given labels are filtered out of the
     * issue's labels, the rest kept in order; nothing else changes.
     */
    method RemoveIssueLabels(auth: Result<Client, string>, refusal: Option<string>, key: string, labels: seq<string>)
      returns (r: Result<string, ToolError>)
      requires Valid()
      modifies this
      ensures Valid()
      ensures performed == old(performed) && nextCommentId == old(nextCommentId)
      ensures auth.Failure? ==> r == Failure(ErrorOf(Tool.RemoveIssueLabels, key, "", auth.error)) && issues == old(issues)
      ensures auth.Success? && key !in old(issues) ==>
        r == Failure(ErrorOf(Tool.RemoveIssueLabels, key, "", IssueMissing)) && issues == old(issues)
      ensures auth.Success? && key in old(issues) && refusal.Some? ==>
        r == Failure(ErrorOf(Tool.RemoveIssueLabels, key, "", refusal.value)) && issues == old(issues)
      ensures auth.Success? && key in old(issues) && refusal.None? ==>
        r == Success(LabelsRemovedMessage(key, labels))
        && issues == old(issues)[key := old(issues)[key].(labels := Without(old(issues)[key].labels, labels))]
    {
      if auth.Failure? {
        r := Failure(ErrorOf(Tool.RemoveIssueLabels, key, "", auth.error));
        return;
      }
      if key !in issues {
        r := Failure(ErrorOf(Tool.RemoveIssueLabels, key, "", IssueMissing));
        return;
      }
      if refusal.Some? {
        r := Failure(ErrorOf(Tool.RemoveIssueLabels, key, "", refusal.value));
        return;
      }
      var kept := Without(issues[key].labels, labels);
      ApplyLabels(issues[key], kept);
      SameComments(issues, nextCommentId, key, issues[key].(labels := kept));
      issues := issues[key := Apply(issues[key], [("labels", Labels(kept))])];
      r := Success(LabelsRemovedMessage(key, labels));
    }
  }
}
