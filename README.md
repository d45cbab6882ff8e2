# jira-mcp server core, in Dafny

This project models the deterministic logic of the Jira context server, `server.py`. The server is a FastMCP application that exposes thirty tools over a Jira client. Each tool forwards to the client, turns the answer into Markdown text, and turns any failure into an HTTP error with a fixed status and a fixed message prefix. The model covers the logic around those client calls:

- **Authentication** (`auth.dfy`): how `get_jira_client` chooses between the global client, a bearer token from the request headers, and an error.
- **Tool catalogue and write gate** (`registry.dfy`): the thirty tools, the `JIRA_ENABLE_WRITE` flag, and the ten tools that flag switches on.
- **Error table** (`errors.dfy`): each tool's status (404, 400 or 500) and the detail text it builds around the failure.
- **Normaliser** (`normalizer.dfy`): `to_markdown` over Python values that may be a dict, carry `.raw`, be a list, or only have a `str`.
- **Pass-through read tools** (`reads.dfy`): the sixteen read tools and how each reshapes the client's answer.
- **Payloads** (`payloads.dfy`): the field dictionaries of `create_issue` and `update_issue`, and the create tool.
- **Transitions** (`transitions.dfy`): resolving a transition by case-insensitive name, and the listing of transitions.
- **Projections** (`projections.dfy`): the records `search_issues` and `get_issue_comments` reduce tracker objects to.
- **Replies** (`messages.dfy`): the `get_jira` heading and the success messages.
- **Labels** (`labels.dfy`): the label union and label filter.
- **Issue store** (`store.dfy`): a class holding the tracker's issues by key. The issue tools are its methods, and each write changes only the issue it names.

The client's network calls are parameters or state:

- The authentication outcome is a parameter of every tool, `Result<Client, string>`. It is what `Auth.GetJiraClient` returns.
- `json.dumps` is a parameter `dumps: Json -> string`.
- Search and create take the tracker's answer as a function parameter. That function receives the query, or the payload, the tool built.
- For the pass-through read tools, the tracker's answer itself is a parameter.
- The issue tools work on the `Store.IssueStore` state. The text of a failure for a missing issue or comment is a model constant.
- Each write method also takes the tracker's answer to the write itself: `refusal` is `None` when the tracker accepts and `Some(cause)` when it rejects.
- The store's invariant `Valid()` says that comment ids are distinct within each issue, and that no id equals one the counter has yet to hand out. The constructor establishes it and every write keeps it.

## Model

| member | source | states |
|---|---|---|
| Auth.GetJiraClient | server.py:39-51 | A global client is returned as is. Otherwise the lower-case `authorization` header wins over `Authorization`, even when it is empty. A missing or empty header is the "No access token" failure. A header is accepted exactly when it holds one space; the client then gets the server URL and the part after the space, and the part before it is not checked. Any other header is the "Invalid Authorization header format" failure. |
| Auth.AnySchemeAccepted | server.py:44-49 | Any word without a space before the token is accepted, not only `Bearer`. |
| Auth.EmptyLowerCaseHeaderShadows | server.py:43-44 | An empty `authorization` header hides a valid `Authorization` header and leads to the missing-token failure. |
| Registry.EnableWrite | server.py:20-21 | The write flag is on exactly when the variable is four letters spelling "true" in any case. An unset variable means off. |
| Registry.EnabledAmong | server.py:295 | Filtering by the gate keeps a tool exactly when it is not a write tool or writes are on, and never lengthens the list. |
| Registry.Position | server.py:58-502 | Every tool has a place in the registration-order catalogue. |
| Registry.CatalogueComplete | server.py:58-502 | All thirty tools are in the catalogue. |
| Registry.WriteToolCount | server.py:295-491 | Exactly ten tools are gated. |
| Registry.WriteEnabledListsAll | server.py:20-21 | With writes on, every tool is listed, in catalogue order. |
| Registry.WriteGate | server.py:295-491 | With writes off, a tool is listed exactly when it is not a write tool. Turning writes on adds exactly the write tools. |
| Errors.ErrorOf | server.py:70-501 | A tool's error has its class's status (404, 400 or 500) and ends with ": " and the failure text. It names the issue key for the issue tools and the comment id for `delete_comment`. It starts with "Failed to " for every tool except `search_issues`. |
| Errors.GetJiraDetail | server.py:67-70 | A `get_jira` failure is the 404 error whose detail is "Failed to fetch Jira issue ", the key, ": " and the failure text. |
| Errors.WriteToolsFailAsInvalidRequest | server.py:320-501 | Every write tool fails with status 400. |
| Normalizer.UnfenceFence | server.py:80-83 | The fenced block gives back the JSON text inside it. |
| Normalizer.DictFirst | server.py:80-81 | A dict renders as the fenced JSON text of the dict, whatever else the value carries. |
| Normalizer.RawBeforeList | server.py:82-85 | A non-dict with `.raw` renders its raw document, even when it is also a list. |
| Normalizer.DictRoundTrip | server.py:80-81 | If the parser undoes `dumps`, the fenced text of a dict parses back to the dict. |
| Normalizer.ListIsJoin | server.py:84-85 | A list renders as the newline-join of its elements' renderings, and `[]` renders as "". |
| Normalizer.OtherRendersAsText | server.py:86-87 | A value that is not a dict, has no `.raw` and is not a list renders as its `str`. |
| Normalizer.SingletonList | server.py:84-85 | A one-element list renders exactly as its element. |
| Normalizer.ListAppend | server.py:84-85 | Two non-empty lists rendered together are their renderings with one newline between them. |
| Normalizer.ListOfDicts | server.py:84-85 | A non-empty list of dicts renders as separate fenced blocks, not one JSON array. The text opens and closes with a fence and holds every dict's JSON text. |
| Normalizer.LinesOfScalars | server.py:84-87 | A list of one-line scalars splits back, line by line, into their `str` texts. |
| Reads.Respond | server.py:122-289 | A pass-through tool fails exactly when authentication fails, the tracker fails, or reshaping fails, with the tool's own status and the first failure's text. Otherwise it renders the reshaped answer. |
| Reads.Raws | server.py:129 | Taking `.raw` of each element keeps the length. |
| Reads.EachResourceFenced | server.py:129-267 | For a `.raw`-of-each tool, resources with object documents render as one fenced block per document, and an empty answer as "". |
| Reads.RawReplyIgnoresText | server.py:189-277 | A `.raw` tool renders the resource's raw document and never its `str`. |
| Reads.AsReturnedFences | server.py:149-287 | An as-returned tool renders a dict, or a resource through its raw document, as one fenced block. |
| Reads.EachNeedsRaw | server.py:129-267 | A `.raw`-of-each tool fails when the answer is not a list or an element lacks `.raw`. |
| Reads.ReplyNeedsRaw | server.py:189-277 | A `.raw` tool fails with its own error when the answer lacks `.raw`, and otherwise renders the raw document. |
| Payloads.UpdateFieldsMeaning | server.py:334-343 | Each of summary, description, priority and assignee is in the update dictionary exactly when its argument is truthy. Text fields are stored as text; priority and assignee as `{"name": ...}`. No other key appears. The dictionary is empty exactly when no argument is truthy. |
| Payloads.UpdateLookup | server.py:334-343 | A lookup in the update dictionary finds the truthy argument stored under that key, or nothing. |
| Payloads.CreateFieldsMeaning | server.py:306-315 | The create dictionary always holds project (`{"key": ...}`), summary, description, issue type and priority (`{"name": ...}`), in that order, and then the assignee only when it is truthy. |
| Payloads.BuildUpdateFields | server.py:334-343 | The handler's step-by-step insertions build exactly the update dictionary. |
| Payloads.BuildCreateFields | server.py:306-315 | The handler's insertions build the create dictionary; the defaults are "", "Task", "Medium" and no assignee. |
| Payloads.CreateIssue | server.py:306-320 | The tracker receives the create dictionary of the arguments. The reply names the new key and the summary. Any failure, authentication included, is the 400 "Failed to create issue" error. |
| Transitions.FindTransitionId | server.py:428-433 | The search loop with `break` returns the id of the first transition whose lower-cased name equals the lower-cased request, or nothing. |
| Transitions.NoMatch | server.py:429-437 | Nothing is found exactly when no name matches. |
| Transitions.EarliestMatch | server.py:430-433 | When several names match, the earliest one's id is taken. |
| Transitions.NotFoundListsEveryName | server.py:435-437 | The not-found reply names the request and ends with the names on offer, comma-joined, each one verbatim. With no transitions on offer, nothing follows "Available transitions: ". |
| Transitions.Summaries | server.py:458 | The listing has one record per transition. |
| Transitions.SummariesKeepIdAndName | server.py:458-459 | The listing depends only on each transition's id and name, and each record renders as the fenced JSON of `{"id", "name"}`. |
| Projections.SimplifiedIsBounded | server.py:98-115 | Every simplified issue has the same twelve keys in the same order, and fields the projection does not read leave no trace. |
| Projections.SimplifiedNullWhenAbsent | server.py:101-113 | A nested status, assignee, QA contact, reporter, priority or issue type is null exactly when absent. `fixVersion` is null exactly when there is no version, and only the first version counts. |
| Projections.SimplifiedKeepsNames | server.py:101-113 | A present status, priority or issue type is reported by its name, a present assignee, QA contact or reporter by its display name, and a non-empty version list by its first version's name. |
| Projections.SimplifyIssues | server.py:96-117 | The search loop appends one simplified record per issue, in order. |
| Projections.SearchIssues | server.py:94-121 | The tracker is asked with the query and the result bound, 100 by default. The issues found are rendered through their simplified records. Any failure is the 400 "JQL search failed" error. |
| Projections.SearchListingShape | server.py:117-119 | A search that finds nothing renders as "". Otherwise the text opens and closes with a fence and holds each simplified issue's JSON text. |
| Projections.CommentDefaults | server.py:386-392 | A comment without an author is attributed to "Unknown". One without an update time reports its creation time as updated. Every field is a string. |
| Projections.SimplifyComments | server.py:384-393 | The comments loop appends one five-key record per comment, in order. |
| Messages.HeadingRoundTrip | server.py:73-76 | The `get_jira` heading gives back its key, summary and description; a missing summary or description comes back empty. |
| Messages.UpdateRepliesDiffer | server.py:346-349 | The updated and no-updates replies never coincide, whatever the keys. |
| Messages.TransitionReplyMarksComment | server.py:444-447 | The transition reply gains " with comment" exactly when a comment went along. |
| Messages.MessagesNameTheirTargets | server.py:347-472 | The update, no-update, assign, unassign, delete, add-comment and delete-comment replies name their issue key, and the assignee or comment id they concern, verbatim. |
| Messages.LabelAndTransitionRepliesNameTargets | server.py:444-498 | The labels-added and labels-removed replies end with the issue key. The transition reply names the key and the transition asked for, with or without a comment. |
| Labels.Union | server.py:482-483 | The merged labels hold every current and every added label, each exactly once, and nothing else. |
| Labels.WithoutMeaning | server.py:495-496 | Filtering drops every label to remove and keeps every other label exactly as often as before. |
| Labels.WithoutAppend | server.py:496 | The filter keeps the survivors in their original order. |
| Labels.WithoutAbsent | server.py:496 | Removing labels none of which is present changes nothing. |
| Labels.WithoutIdempotent | server.py:496 | Removing the same labels twice is removing them once. |
| Labels.WithoutKeepsNoDuplicates | server.py:496 | Filtering a duplicate-free list leaves it duplicate-free. |
| Labels.AddThenRemove | server.py:482-496 | Adding labels and then removing the same ones leaves the original labels that were not among them, each once. |
| Store.ApplyUpdate | server.py:345-346 | Applying the update dictionary sets exactly the fields with a truthy argument; labels, comments and transitions are untouched. |
| Store.ApplyLabels | server.py:484 | A labels-only update replaces the labels and nothing else. |
| Store.ApplyAppend | server.py:345 | Applying two dictionaries one after the other is applying their concatenation. |
| Store.CommentsWithoutMeaning | server.py:369-370 | After deleting a comment, no comment has its id and every other comment remains. |
| Store.CommentsWithoutOne | server.py:369-370 | When comment ids are distinct, deleting by a comment's id removes exactly that comment and keeps the others in order. |
| Store.CommentsWithoutNumbered | server.py:369-370 | Deleting comments keeps the ids distinct and leaves no id the tracker has yet to hand out. |
| Store.AppendFresh | server.py:359-360 | A comment given the next id differs from every existing comment, and the numbering stays sound once the counter moves on. |
| Store.IssueStore.constructor | server.py:359-371 | A store starts from issues whose comment ids are distinct and all below the first id to hand out, and it is valid. |
| Store.IssueStore.GetJira | server.py:60-76 | A known issue renders as its heading. An unknown key or an authentication failure is the 404 error naming the key. Nothing changes. |
| Store.IssueStore.GetIssueComments | server.py:380-396 | The issue's comments render through their five-key records; failures are the tool's 400 error. |
| Store.IssueStore.GetIssueTransitions | server.py:453-463 | The issue's transitions render as id and name records; failures are the tool's 400 error. |
| Store.IssueStore.UpdateIssue | server.py:324-351 | The issue must exist even when there is nothing to update. An empty dictionary writes nothing and gives the no-updates reply. A tracker rejection of the update is the tool's 400 error and writes nothing. Otherwise the dictionary is applied to that issue alone and the updated reply is given. The store stays valid. |
| Store.IssueStore.AssignIssue | server.py:400-407 | The issue's assignee becomes the given user and nothing else changes. A tracker rejection, such as an unknown user, is the 400 error and writes nothing. |
| Store.IssueStore.UnassignIssue | server.py:411-418 | The issue is left without an assignee and nothing else changes. A tracker rejection is the 400 error and writes nothing. |
| Store.IssueStore.DeleteIssue | server.py:467-474 | The key no longer names an issue and the other issues stay. A tracker refusal is the 400 error and keeps the issue. |
| Store.IssueStore.AddComment | server.py:355-362 | A comment by the acting account is appended to the issue, and the reply names its new id, which no earlier comment has. A tracker rejection is the 400 error, and neither the issue nor the counter changes. The store stays valid. |
| Store.IssueStore.DeleteComment | server.py:366-376 | A missing issue or missing comment is the 400 error naming both ids, and so is a tracker rejection; none of them writes anything. Otherwise exactly that one comment is gone and the others keep their order. The store stays valid. |
| Store.IssueStore.TransitionIssue | server.py:422-449 | The first case-insensitive match is performed, with the comment only when it is truthy. An unknown name or an empty id performs nothing and lists the names on offer, as a success reply. A tracker refusal of the transition is the 400 error and records nothing. |
| Store.IssueStore.AddIssueLabels | server.py:478-487 | The labels become every old and every given label, each once, in an order left open, and nothing else about the issue changes. The reply lists the labels as passed in. A tracker rejection of the labels update is the 400 error and writes nothing. |
| Store.IssueStore.RemoveIssueLabels | server.py:491-502 | The given labels are filtered out, the rest kept in order. An absent label is not an error. A tracker rejection of the labels update is the 400 error and keeps the labels. |
| Text.Lower | server.py:21 | Lower-casing keeps the length and leaves no upper-case letter. Characters other than `A`-`Z` are kept, and each upper-case letter becomes its lower-case counterpart. |
| Text.LowerIdempotent | server.py:21 | Lower-casing twice is lower-casing once. |
| Text.NatToStringInjective | server.py:360 | Different comment numbers print as different ids. |
| Text.LowerIsTrue | server.py:21 | A string lower-cases to "true" exactly when it is four letters spelling it in any case. |
| Text.JoinSplit | server.py:45 | Splitting on a character and joining again with it gives back the string. |
| Text.SplitCount | server.py:45-46 | Splitting on a space gives one more part than the string has spaces, so two parts means exactly one space. |
| Text.SplitJoin | server.py:45 | Joining parts free of the separator and splitting again gives back the parts. |
| Text.JoinContainsEach | server.py:437 | Every joined element occurs verbatim in the join. |

## Left out

- The Jira library, the network and the HTTP framework are left out. Tool registration, header extraction, the transports and the `HTTPException` class are not modelled. An exception is a `ToolError(status, detail)`.
- Startup, `argparse`, `.env` loading and environment lookups are not modelled. The environment variable reaches `Registry.EnableWrite` as an `Option<string>`.
- The text of `json.dumps(..., indent=2)` is left out because it is library behaviour; `dumps` is an arbitrary function.
- If a dict's values were not JSON, `json.dumps` would raise and the handler would report that failure. The model's dicts hold JSON values only.
- `str.lower` is modelled on ASCII only; Unicode case mapping is left out.
- `repr` of a label is modelled without Python's escaping of quotes, backslashes and unprintable characters.
- Each read tool forwards its own arguments and defaults to the tracker, such as `max_results=10` and `query=""`. Only `search_issues` passes its query and bound explicitly. For the sixteen pass-through read tools, the tracker's answer is a parameter.
- For the `.raw`-of-each tools, the model assumes the client returns a list. Python would also iterate other iterables, such as a dict's keys.
- Store.IssueStore.AddIssueLabels: the contract states the merged labels as a duplicate-free set and leaves the order open, because `list(set(...))` has no specified order. `Labels.Union` fixes one order, first occurrences.
- Store.IssueStore.TransitionIssue: performing a transition is recorded in `performed`; the issue's status afterwards is up to the tracker and not modelled.
- Store.IssueStore.AddComment: the comment id, author and timestamps come from the tracker. The model draws them from a counter, the acting account and a fixed clock in the store.
- The failure texts the tracker gives are model constants: `IssueMissing`, `CommentMissing`, `Reads.NoRawAttribute` and `Reads.NotIterable`. An authentication failure's text is `Auth.GetJiraClient`'s message.
- The names tools are registered under, and the framework's lookup of a tool by name, are not modelled. A tool is a `Registry.Tool` value.
- A tracker rejection of a write is a parameter `refusal` of each store write method: `None` when the tracker accepts and `Some(cause)` when it rejects. What makes the tracker reject a request is not modelled.
- A tool fetches the client several times, for example once for the issue and once for the transition. All fetches give the same outcome here, because the headers of one request do not change.
- Registry.WriteGate: the other twenty tools are characterised as the tools outside `WriteTools`; their number, twenty, is not stated as a set cardinality.
- The test scenarios in `test_server.py` are not modelled; the properties they check are stated above.

## Notes on the code

- The error texts of several read tools do not name their target, for example "Failed to fetch project: ..." and "Failed to fetch user: ...". The model follows the code.
- A transition whose id is the empty string is reported as not found, because of `if not transition_id`.
- `get_jira_client` accepts any word before the token, not only `Bearer`.
