/**
 * The sixteen read tools that hand the tracker's answer straight to the
 * normaliser (server.py:122-287), each in one of three shapes: the answer
 * as returned, its `.raw`, or the `.raw` of each element.
 */
module Reads {
  import opened Wrappers
  import opened Text
  import opened Normalizer
  import opened Auth
  import opened Registry
  import opened Errors

  /** How a pass-through tool reshapes the tracker's answer before rendering it. */
  datatype Shape =
    | AsReturned   // `to_markdown(x)`
    | RawOfReply   // `to_markdown(x.raw)`
    | RawOfEach    // `to_markdown([e.raw for e in x])`

  /** The shape of each pass-through tool; `None` for the tools with a handler of their own. */
  function ShapeOf(t: Tool): Option<Shape>
  {
    match t
    case SearchUsers => Some(RawOfEach)
    case ListProjects => Some(RawOfEach)
    case GetProject => Some(AsReturned)
    case GetProjectComponents => Some(RawOfEach)
    case GetProjectVersions => Some(RawOfEach)
    case GetProjectRoles => Some(AsReturned)
    case GetProjectPermissionScheme => Some(RawOfReply)
    case GetProjectIssueTypes => Some(RawOfEach)
    case GetCurrentUser => Some(AsReturned)
    case GetUser => Some(RawOfReply)
    case GetAssignableUsersForProject => Some(RawOfEach)
    case GetAssignableUsersForIssue => Some(RawOfEach)
    case ListBoards => Some(RawOfEach)
    case ListSprints => Some(RawOfEach)
    case GetSprint => Some(RawOfReply)
    case GetSprintsByName => Some(AsReturned)
    case _ => None
  }

  /** The failure text when `.raw` is read from an object without it. */
  const NoRawAttribute: string := "object has no attribute 'raw'"

  /** The failure text when the answer to iterate over is not a list. */
  const NotIterable: string := "object is not iterable"

  /** Every element of a list carries `.raw`. */
  predicate AllRaw(items: seq<PyValue>)
  {
    forall i :: 0 <= i < |items| ==> items[i].raw.Some?
  }

  /** `[e.raw for e in items]`, each raw document as the Python value it is. */
  function Raws(items: seq<PyValue>): (r: seq<PyValue>)
    requires AllRaw(items)
    ensures |r| == |items|
  {
    seq(|items|, i requires 0 <= i < |items| => FromJson(items[i].raw.value))
  }

  /** The value a tool renders, or the failure reshaping raises. */
  function Reshape(shape: Shape, reply: PyValue): Result<PyValue, string>
  {
    match shape
    case AsReturned => Success(reply)
    case RawOfReply => if reply.raw.Some? then Success(FromJson(reply.raw.value)) else Failure(NoRawAttribute)
    case RawOfEach =>
      match reply.listView
      case NotAList => Failure(NotIterable)
      case AsList(items) => if AllRaw(items) then Success(List(Raws(items))) else Failure(NoRawAttribute)
  }

  /**
   * A pass-through tool given the authentication outcome and the tracker's
   * answer: the rendered answer, or the tool's own error carrying the first
   * failure's text.
   */
  function Respond(dumps: Json -> string, t: Tool, auth: Result<Client, string>,
                   reply: Result<PyValue, string>): (r: Result<string, ToolError>)
    requires ShapeOf(t).Some?
    ensures r.Failure? ==> r.error.status == Code(ClassOf(t))
    ensures auth.Failure? ==> r == Failure(ErrorOf(t, "", "", auth.error))
    ensures auth.Success? && reply.Failure? ==> r == Failure(ErrorOf(t, "", "", reply.error))
    ensures auth.Success? && reply.Success? && Reshape(ShapeOf(t).value, reply.value).Failure? ==>
      r == Failure(ErrorOf(t, "", "", Reshape(ShapeOf(t).value, reply.value).error))
    ensures r.Success? <==> auth.Success? && reply.Success? && Reshape(ShapeOf(t).value, reply.value).Success?
    ensures r.Success? ==> r.value == ToMarkdown(dumps, Reshape(ShapeOf(t).value, reply.value).value)
  {
    if auth.Failure? then Failure(ErrorOf(t, "", "", auth.error))
    else if reply.Failure? then Failure(ErrorOf(t, "", "", reply.error))
    else
      var shaped := Reshape(ShapeOf(t).value, reply.value);
      if shaped.Failure? then Failure(ErrorOf(t, "", "", shaped.error))
      else Success(ToMarkdown(dumps, shaped.value))
  }

  /**
   * A list of resources whose raw documents are JSON objects renders, for a
   * `.raw`-of-each tool, as one fenced block per resource: the text opens
   * and closes with a fence marker and holds the JSON text of every
   * document. An empty list renders as "".
   */
  lemma EachResourceFenced(dumps: Json -> string, t: Tool, client: Client,
                           raws: seq<seq<(string, Json)>>, texts: seq<string>, i: nat)
    requires ShapeOf(t) == Some(RawOfEach)
    requires |texts| == |raws|
    ensures var reply := List(seq(|raws|, k requires 0 <= k < |raws| => Resource(Object(raws[k]), texts[k])));
      var r := Respond(dumps, t, Success(client), Success(reply));
      && r.Success?
      && (raws == [] ==> r.value == "")
      && (i < |raws| ==> FenceOpen <= r.value && IsSuffix(FenceClose, r.value) && IsInfix(dumps(Object(raws[i])), r.value))
  {
    var items := seq(|raws|, k requires 0 <= k < |raws| => Resource(Object(raws[k]), texts[k]));
    assert AllRaw(items);
    var dicts := seq(|raws|, k requires 0 <= k < |raws| => Dict(raws[k]));
    assert Raws(items) == dicts;
    ListIsJoin(dumps, dicts);
    if i < |raws| {
      ListOfDicts(dumps, raws, i);
    }
  }

  /**
   * For a `.raw` tool the resource's own `str` never shows: the reply is
   * the fenced JSON text of its raw document, whatever object carries it.
   */
  lemma RawReplyIgnoresText(dumps: Json -> string, t: Tool, client: Client,
                            raw: seq<(string, Json)>, text: string)
    requires ShapeOf(t) == Some(RawOfReply)
    ensures Respond(dumps, t, Success(client), Success(Resource(Object(raw), text)))
         == Success(Fence(dumps(Object(raw))))
  {
  }

  /**
   * An as-returned tool renders a resource through its raw document and a
   * plain dict directly, each as one fenced block.
   */
  lemma AsReturnedFences(dumps: Json -> string, t: Tool, client: Client,
                         members: seq<(string, Json)>, text: string)
    requires ShapeOf(t) == Some(AsReturned)
    ensures Respond(dumps, t, Success(client), Success(Dict(members))) == Success(Fence(dumps(Object(members))))
    ensures Respond(dumps, t, Success(client), Success(Resource(Object(members), text)))
         == Success(Fence(dumps(Object(members))))
  {
  }

  /** A `.raw`-of-each tool fails when the answer is not a list or an element lacks `.raw`. */
  lemma EachNeedsRaw(dumps: Json -> string, t: Tool, client: Client, reply: PyValue)
    requires ShapeOf(t) == Some(RawOfEach)
    ensures reply.listView.NotAList? ==>
      Respond(dumps, t, Success(client), Success(reply)) == Failure(ErrorOf(t, "", "", NotIterable))
    ensures reply.listView.AsList? && !AllRaw(reply.listView.items) ==>
      Respond(dumps, t, Success(client), Success(reply)) == Failure(ErrorOf(t, "", "", NoRawAttribute))
  {
  }

  /** A `.raw` tool fails, with that tool's error, when the answer lacks `.raw`. */
  lemma ReplyNeedsRaw(dumps: Json -> string, t: Tool, client: Client, reply: PyValue)
    requires ShapeOf(t) == Some(RawOfReply)
    ensures reply.raw.None? ==>
      Respond(dumps, t, Success(client), Success(reply)) == Failure(ErrorOf(t, "", "", NoRawAttribute))
    ensures reply.raw.Some? ==>
      Respond(dumps, t, Success(client), Success(reply)) == Success(ToMarkdown(dumps, FromJson(reply.raw.value)))
  {
  }
}
