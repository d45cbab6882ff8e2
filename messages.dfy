/**
 * The text replies of the issue tools: the `get_jira` heading
 * (server.py:73-76) and the fixed success messages of the write tools.
 */
module Messages {
  import opened Wrappers
  import opened Text

  /**
   * "# KEY: summary" and the description after a blank line; a missing
   * summary or description is written as the empty string.
   */
  function Heading(key: string, summary: Option<string>, description: Option<string>): string
  {
    "# " + key + ": " + summary.GetOr("") + "\n\n" + description.GetOr("")
  }

  /**
   * Reads a heading back into key, summary and description: the key runs to
   * the first colon and the summary to the first line break.
   */
  function ParseHeading(text: string): Option<(string, string, string)>
  {
    if !("# " <= text) then None
    else
      match SplitAt(text[2..], ':')
      case None => None
      case Some((key, after)) =>
        if !(" " <= after) then None
        else
          match SplitAt(after[1..], '\n')
          case None => None
          case Some((summary, tail)) =>
            if !("\n" <= tail) then None else Some((key, summary, tail[1..]))
  }

  /**
   * A heading gives back the key, the summary and the description it was
   * made from, for keys without a colon and one-line summaries (as issue
   * keys and summaries are); an absent part comes back empty.
   */
  lemma HeadingRoundTrip(key: string, summary: Option<string>, description: Option<string>)
    requires ':' !in key
    requires '\n' !in summary.GetOr("")
    ensures ParseHeading(Heading(key, summary, description)) == Some((key, summary.GetOr(""), description.GetOr("")))
  {
    var s := summary.GetOr("");
    var d := description.GetOr("");
    var line := s + ['\n'] + ("\n" + d);
    var after := [' '] + line;
    var rest := key + [':'] + after;
    HeadingShape(key, s, d);
    assert Heading(key, summary, description) == "# " + rest;
    DropPrefix("# ", rest);
    SplitAtAfter(key, ':', after);
    assert after[1..] == line;
    SplitAtAfter(s, '\n', "\n" + d);
    assert ("\n" + d)[1..] == d;
  }

  /** The heading, regrouped around the characters the parser looks for. */
  lemma HeadingShape(key: string, s: string, d: string)
    ensures "# " + key + ": " + s + "\n\n" + d == "# " + (key + [':'] + ([' '] + (s + ['\n'] + ("\n" + d))))
  {
    assert ": " == [':'] + [' '];
    assert "\n\n" == ['\n'] + "\n";
  }

  lemma DropPrefix(p: string, rest: string)
    ensures p <= p + rest && (p + rest)[|p|..] == rest
  {
  }

  /** "Updated issue KEY successfully". */
  function UpdatedMessage(key: string): string
  {
    "Updated issue " + key + " successfully"
  }

  /** "No updates provided for issue KEY". */
  function NoUpdatesMessage(key: string): string
  {
    "No updates provided for issue " + key
  }

  /** "Assigned issue KEY to USER". */
  function AssignedMessage(key: string, assignee: string): string
  {
    "Assigned issue " + key + " to " + assignee
  }

  /** "Unassigned issue KEY". */
  function UnassignedMessage(key: string): string
  {
    "Unassigned issue " + key
  }

  /** "Added comment to KEY: ID". */
  function CommentAddedMessage(key: string, commentId: string): string
  {
    "Added comment to " + key + ": " + commentId
  }

  /** "Deleted comment ID from KEY". */
  function CommentDeletedMessage(key: string, commentId: string): string
  {
    "Deleted comment " + commentId + " from " + key
  }

  /** "Deleted issue KEY". */
  function DeletedMessage(key: string): string
  {
    "Deleted issue " + key
  }

  /** "Added labels ['a', 'b'] to issue KEY", listing the labels as passed in. */
  function LabelsAddedMessage(key: string, labels: seq<string>): string
  {
    "Added labels " + ListRepr(labels) + " to issue " + key
  }

  /** "Removed labels ['a', 'b'] from issue KEY", listing the labels as passed in. */
  function LabelsRemovedMessage(key: string, labels: seq<string>): string
  {
    "Removed labels " + ListRepr(labels) + " from issue " + key
  }

  /** "Transitioned issue KEY to 'NAME'", with " with comment" when a comment went along. */
  function TransitionedMessage(key: string, name: string, withComment: bool): string
  {
    "Transitioned issue " + key + " to '" + name + "'" + (if withComment then " with comment" else "")
  }

  /**
   * The two replies of `update_issue` can be told apart for any key.
   */
  lemma UpdateRepliesDiffer(key: string, other: string)
    ensures UpdatedMessage(key) != NoUpdatesMessage(other)
  {
    assert UpdatedMessage(key)[0] == 'U';
    assert NoUpdatesMessage(other)[0] == 'N';
  }

  /** The transition reply gains " with comment" exactly when a comment went along. */
  lemma TransitionReplyMarksComment(key: string, name: string)
    ensures IsSuffix(" with comment", TransitionedMessage(key, name, true))
    ensures !IsSuffix(" with comment", TransitionedMessage(key, name, false))
    ensures TransitionedMessage(key, name, true) == TransitionedMessage(key, name, false) + " with comment"
  {
    var plain := TransitionedMessage(key, name, false);
    assert plain[|plain| - 1] == '\'';
  }

  /** Each message names the issue key, and the comment and assignee it concerns, verbatim. */
  lemma MessagesNameTheirTargets(key: string, commentId: string, assignee: string)
    ensures IsInfix(key, UpdatedMessage(key)) && IsInfix(key, NoUpdatesMessage(key))
    ensures IsInfix(key, AssignedMessage(key, assignee)) && IsSuffix(assignee, AssignedMessage(key, assignee))
    ensures IsSuffix(key, UnassignedMessage(key)) && IsSuffix(key, DeletedMessage(key))
    ensures IsInfix(key, CommentAddedMessage(key, commentId)) && IsSuffix(commentId, CommentAddedMessage(key, commentId))
    ensures IsInfix(commentId, CommentDeletedMessage(key, commentId)) && IsSuffix(key, CommentDeletedMessage(key, commentId))
  {
    InfixOf(key, "Updated issue ", " successfully");
    InfixOf(key, "No updates provided for issue ", "");
    assert NoUpdatesMessage(key) == "No updates provided for issue " + key + "";
    InfixOf(key, "Assigned issue ", " to " + assignee);
    assert AssignedMessage(key, assignee) == "Assigned issue " + key + (" to " + assignee);
    InfixOf(key, "Added comment to ", ": " + commentId);
    assert CommentAddedMessage(key, commentId) == "Added comment to " + key + (": " + commentId);
    InfixOf(commentId, "Deleted comment ", " from " + key);
    assert CommentDeletedMessage(key, commentId) == "Deleted comment " + commentId + (" from " + key);
  }

  /** The label and transition replies name the issue key, and the transition reply the name asked for. */
  lemma LabelAndTransitionRepliesNameTargets(key: string, labels: seq<string>, name: string, withComment: bool)
    ensures IsSuffix(key, LabelsAddedMessage(key, labels)) && IsSuffix(key, LabelsRemovedMessage(key, labels))
    ensures IsInfix(key, TransitionedMessage(key, name, withComment))
    ensures IsInfix(name, TransitionedMessage(key, name, withComment))
  {
    var tail := if withComment then " with comment" else "";
    InfixOf(key, "Transitioned issue ", " to '" + name + "'" + tail);
    assert TransitionedMessage(key, name, withComment) == "Transitioned issue " + key + (" to '" + name + "'" + tail);
    InfixOf(name, "Transitioned issue " + key + " to '", "'" + tail);
    assert TransitionedMessage(key, name, withComment) == "Transitioned issue " + key + " to '" + name + ("'" + tail);
  }
}
