/**
 * The field dictionaries `create_issue` (server.py:306-315) and
 * `update_issue` (server.py:336-349) hand to the tracker, and the create
 * tool around its payload (server.py:317-320).
 */
module Payloads {
  import opened Wrappers
  import opened Text
  import opened Registry
  import opened Errors
  import opened Auth

  /**
   * A value in a field dictionary: plain text, a `{"name": ...}` reference,
   * a `{"key": ...}` reference, or a list of labels.
   */
  datatype FieldValue = Text(text: string) | ByName(name: string) | ByKey(key: string) | Labels(labels: seq<string>)

  /** A field dictionary in insertion order. */
  type Fields = seq<(string, FieldValue)>

  /** Python truthiness of an optional string argument: present and non-empty. */
  predicate Truthy(o: Option<string>)
  {
    o.Some? && o.value != ""
  }

  /** The keys of a field dictionary, in order. */
  function Keys(fields: Fields): seq<string>
  {
    if fields == [] then [] else [fields[0].0] + Keys(fields[1..])
  }

  /** `fields.get(key)`: the value stored under the key, if any. */
  function Lookup(fields: Fields, key: string): Option<FieldValue>
  {
    if fields == [] then None
    else if fields[0].0 == key then Some(fields[0].1)
    else Lookup(fields[1..], key)
  }

  /** The entry `key: value` when the argument is truthy, and nothing otherwise. */
  function IfTruthy(key: string, arg: Option<string>, byName: bool): Fields
  {
    if Truthy(arg) then [(key, if byName then ByName(arg.value) else Text(arg.value))] else []
  }

  /** The update dictionary: one conditional entry per argument, in argument order. */
  function UpdateFields(summary: Option<string>, description: Option<string>,
                        priority: Option<string>, assignee: Option<string>): Fields
  {
    IfTruthy("summary", summary, false) + IfTruthy("description", description, false)
    + IfTruthy("priority", priority, true) + IfTruthy("assignee", assignee, true)
  }

  /**
   * Each of summary, description, priority and assignee is in the update
   * dictionary exactly when its argument is truthy, text fields as text and
   * priority and assignee as name references; no other key appears, and the
   * dictionary is empty exactly when no argument is truthy.
   */
  lemma UpdateFieldsMeaning(summary: Option<string>, description: Option<string>,
                            priority: Option<string>, assignee: Option<string>)
    ensures var fields := UpdateFields(summary, description, priority, assignee);
      && Lookup(fields, "summary") == (if Truthy(summary) then Some(Text(summary.value)) else None)
      && Lookup(fields, "description") == (if Truthy(description) then Some(Text(description.value)) else None)
      && Lookup(fields, "priority") == (if Truthy(priority) then Some(ByName(priority.value)) else None)
      && Lookup(fields, "assignee") == (if Truthy(assignee) then Some(ByName(assignee.value)) else None)
      && (forall k :: k in Keys(fields) ==> k in ["summary", "description", "priority", "assignee"])
      && ((fields == []) <==> !(Truthy(summary) || Truthy(description) || Truthy(priority) || Truthy(assignee)))
  {
    var s := IfTruthy("summary", summary, false);
    var d := IfTruthy("description", description, false);
    var p := IfTruthy("priority", priority, true);
    var a := IfTruthy("assignee", assignee, true);
    UpdateLookup(summary, description, priority, assignee, "summary");
    UpdateLookup(summary, description, priority, assignee, "description");
    UpdateLookup(summary, description, priority, assignee, "priority");
    UpdateLookup(summary, description, priority, assignee, "assignee");
    IfTruthyLookup("summary", summary, false, "");
    IfTruthyLookup("description", description, false, "");
    IfTruthyLookup("priority", priority, true, "");
    IfTruthyLookup("assignee", assignee, true, "");
    KeysAppend(s, d);
    KeysAppend(s + d, p);
    KeysAppend(s + d + p, a);
  }

  /** A lookup in the update dictionary finds the first truthy argument stored under the key. */
  lemma UpdateLookup(summary: Option<string>, description: Option<string>,
                     priority: Option<string>, assignee: Option<string>, key: string)
    ensures Lookup(UpdateFields(summary, description, priority, assignee), key) ==
      if key == "summary" && Truthy(summary) then Some(Text(summary.value))
      else if key == "description" && Truthy(description) then Some(Text(description.value))
      else if key == "priority" && Truthy(priority) then Some(ByName(priority.value))
      else if key == "assignee" && Truthy(assignee) then Some(ByName(assignee.value))
      else None
  {
    var s := IfTruthy("summary", summary, false);
    var d := IfTruthy("description", description, false);
    var p := IfTruthy("priority", priority, true);
    var a := IfTruthy("assignee", assignee, true);
    IfTruthyLookup("summary", summary, false, key);
    IfTruthyLookup("description", description, false, key);
    IfTruthyLookup("priority", priority, true, key);
    IfTruthyLookup("assignee", assignee, true, key);
    LookupAppend(s, d, key);
    LookupAppend(s + d, p, key);
    LookupAppend(s + d + p, a, key);
  }

  /** The one entry of a conditional entry, looked up. */
  lemma IfTruthyLookup(k: string, arg: Option<string>, byName: bool, key: string)
    ensures Lookup(IfTruthy(k, arg, byName), key) ==
      if Truthy(arg) && key == k then Some(if byName then ByName(arg.value) else Text(arg.value)) else None
    ensures Keys(IfTruthy(k, arg, byName)) == if Truthy(arg) then [k] else []
  {
  }

  /** The create dictionary: five fixed entries, then the assignee when truthy. */
  function CreateFields(project: string, summary: string, description: string,
                        issueType: string, priority: string, assignee: Option<string>): Fields
  {
    [("project", ByKey(project)), ("summary", Text(summary)), ("description", Text(description)),
     ("issuetype", ByName(issueType)), ("priority", ByName(priority))]
    + IfTruthy("assignee", assignee, true)
  }

  /**
   * The create dictionary always holds project, summary, description, issue
   * type and priority, in that order and each with its argument, then the
   * assignee only when that argument is truthy.
   */
  lemma CreateFieldsMeaning(project: string, summary: string, description: string,
                            issueType: string, priority: string, assignee: Option<string>)
    ensures var fields := CreateFields(project, summary, description, issueType, priority, assignee);
      && Keys(fields) == ["project", "summary", "description", "issuetype", "priority"]
                         + (if Truthy(assignee) then ["assignee"] else [])
      && Lookup(fields, "project") == Some(ByKey(project))
      && Lookup(fields, "summary") == Some(Text(summary))
      && Lookup(fields, "description") == Some(Text(description))
      && Lookup(fields, "issuetype") == Some(ByName(issueType))
      && Lookup(fields, "priority") == Some(ByName(priority))
      && Lookup(fields, "assignee") == (if Truthy(assignee) then Some(ByName(assignee.value)) else None)
  {
    var extra := IfTruthy("assignee", assignee, true);
    var e4 := [("priority", ByName(priority))] + extra;
    var e3 := [("issuetype", ByName(issueType))] + e4;
    var e2 := [("description", Text(description))] + e3;
    var e1 := [("summary", Text(summary))] + e2;
    var e0 := [("project", ByKey(project))] + e1;
    assert CreateFields(project, summary, description, issueType, priority, assignee) == e0;
    LookupCons(("priority", ByName(priority)), extra);
    LookupCons(("issuetype", ByName(issueType)), e4);
    LookupCons(("description", Text(description)), e3);
    LookupCons(("summary", Text(summary)), e2);
    LookupCons(("project", ByKey(project)), e1);
    KeysCons(("priority", ByName(priority)), extra);
    KeysCons(("issuetype", ByName(issueType)), e4);
    KeysCons(("description", Text(description)), e3);
    KeysCons(("summary", Text(summary)), e2);
    KeysCons(("project", ByKey(project)), e1);
  }

  lemma KeysCons(entry: (string, FieldValue), rest: Fields)
    ensures Keys([entry] + rest) == [entry.0] + Keys(rest)
  {
    assert ([entry] + rest)[1..] == rest;
  }

  lemma LookupCons(entry: (string, FieldValue), rest: Fields)
    ensures forall key :: Lookup([entry] + rest, key) == if entry.0 == key then Some(entry.1) else Lookup(rest, key)
  {
    assert ([entry] + rest)[1..] == rest;
  }

  lemma {:induction false} KeysAppend(f: Fields, g: Fields)
    ensures Keys(f + g) == Keys(f) + Keys(g)
  {
    if f == [] {
      assert f + g == g;
    } else {
      assert (f + g)[0] == f[0];
      assert (f + g)[1..] == f[1..] + g;
      KeysAppend(f[1..], g);
      assert Keys(f + g) == [f[0].0] + (Keys(f[1..]) + Keys(g));
    }
  }

  /** A lookup in a concatenation finds the first part's entry before the second's. */
  lemma {:induction false} LookupAppend(f: Fields, g: Fields, key: string)
    ensures Lookup(f + g, key) == if Lookup(f, key).Some? then Lookup(f, key) else Lookup(g, key)
  {
    if f == [] {
      assert f + g == g;
    } else if f[0].0 == key {
      assert (f + g)[0] == f[0];
    } else {
      assert (f + g)[0] == f[0];
      assert (f + g)[1..] == f[1..] + g;
      LookupAppend(f[1..], g, key);
    }
  }

  /** The update dictionary as the handler builds it, one conditional entry at a time. */
  method BuildUpdateFields(summary: Option<string>, description: Option<string>,
                           priority: Option<string>, assignee: Option<string>) returns (update: Fields)
    ensures update == UpdateFields(summary, description, priority, assignee)
  {
    update := [];
    if summary.Some? && summary.value != "" {
      update := update + [("summary", Text(summary.value))];
    }
    assert update == IfTruthy("summary", summary, false);
    if description.Some? && description.value != "" {
      update := update + [("description", Text(description.value))];
    }
    assert update == IfTruthy("summary", summary, false) + IfTruthy("description", description, false);
    if priority.Some? && priority.value != "" {
      update := update + [("priority", ByName(priority.value))];
    }
    assert update == IfTruthy("summary", summary, false) + IfTruthy("description", description, false)
                     + IfTruthy("priority", priority, true);
    if assignee.Some? && assignee.value != "" {
      update := update + [("assignee", ByName(assignee.value))];
    }
  }

  /** The create dictionary as the handler builds it: five entries, then the assignee. */
  method BuildCreateFields(project: string, summary: string, description: string := "",
                           issueType: string := "Task", priority: string := "Medium",
                           assignee: Option<string> := None) returns (issue: Fields)
    ensures issue == CreateFields(project, summary, description, issueType, priority, assignee)
  {
    issue := [("project", ByKey(project)), ("summary", Text(summary)), ("description", Text(description)),
              ("issuetype", ByName(issueType)), ("priority", ByName(priority))];
    if assignee.Some? && assignee.value != "" {
      issue := issue + [("assignee", ByName(assignee.value))];
    }
  }

  /** "Created issue <new key>: <summary>". */
  function CreatedMessage(newKey: string, summary: string): string
  {
    "Created issue " + newKey + ": " + summary
  }

  /**
   * `create_issue`: builds the dictionary and passes it to the tracker, which
   * answers with the new issue's key or an error text. Every failure,
   * authentication included, becomes the create tool's 400 error.
   */
  method CreateIssue(auth: Result<Client, string>, create: Fields -> Result<string, string>,
                     project: string, summary: string, description: string := "",
                     issueType: string := "Task", priority: string := "Medium",
                     assignee: Option<string> := None) returns (r: Result<string, ToolError>)
    ensures auth.Failure? ==> r == Failure(ErrorOf(Tool.CreateIssue, "", "", auth.error))
    ensures auth.Success? ==>
      var reply := create(CreateFields(project, summary, description, issueType, priority, assignee));
      r == if reply.Success? then Success(CreatedMessage(reply.value, summary))
           else Failure(ErrorOf(Tool.CreateIssue, "", "", reply.error))
    ensures r.Failure? ==> r.error.status == 400
  {
    if auth.Failure? {
      r := Failure(ErrorOf(Tool.CreateIssue, "", "", auth.error));
      return;
    }
    var issue := BuildCreateFields(project, summary, description, issueType, priority, assignee);
    var reply := create(issue);
    if reply.Failure? {
      r := Failure(ErrorOf(Tool.CreateIssue, "", "", reply.error));
    } else {
      r := Success(CreatedMessage(reply.value, summary));
    }
  }
}
