/**
 * The result normaliser `to_markdown` (server.py:79-87): every value a tool
 * returns is turned into one string, trying in order "is a dict", "has a
 * `.raw` attribute", "is a list", and falling back to `str`.
 */
module Normalizer {
  import opened Wrappers
  import opened Text

  /** A JSON document, as `json.dumps` accepts and `json.loads` produces. */
  datatype Json =
    | Null
    | Bool(b: bool)
    | Int(i: int)
    | Str(s: string)
    | Array(items: seq<Json>)
    | Object(members: seq<(string, Json)>)  // insertion order, as a Python dict keeps it

  /**
   * A Python value as `to_markdown` sees it. Each view is present when the
   * value supports it: `dictItems` when `isinstance(obj, dict)`, `raw` when
   * `hasattr(obj, "raw")`, `listView` when `isinstance(obj, list)`, and
   * `text` is `str(obj)`. The views are independent, so an object can be
   * both a list and carry `.raw`, and the order of the checks shows.
   */
  datatype PyValue = PyValue(
    dictItems: Option<seq<(string, Json)>>,
    raw: Option<Json>,
    listView: ListView,
    text: string)

  /** The list view of a value: `NotAList` unless `isinstance(obj, list)`. */
  datatype ListView = NotAList | AsList(items: seq<PyValue>)

  /** A plain dict. Its `str` is never consulted by `to_markdown`. */
  function Dict(members: seq<(string, Json)>): PyValue
  {
    PyValue(Some(members), None, NotAList, "")
  }

  /** A plain list. Its `str` is never consulted by `to_markdown`. */
  function List(items: seq<PyValue>): PyValue
  {
    PyValue(None, None, AsList(items), "")
  }

  /** A client resource object: not a dict or a list, but carrying `.raw`. */
  function Resource(raw: Json, text: string): PyValue
  {
    PyValue(None, Some(raw), NotAList, text)
  }

  /** Anything else, known only through `str`. */
  function Scalar(text: string): PyValue
  {
    PyValue(None, None, NotAList, text)
  }

  /** The Python value `json.loads` would give for a JSON document. */
  function FromJson(j: Json): PyValue
  {
    match j
    case Null => Scalar("None")
    case Bool(b) => Scalar(if b then "True" else "False")
    case Int(i) => Scalar(IntToString(i))
    case Str(s) => Scalar(s)
    case Array(items) => List(seq(|items|, k requires 0 <= k < |items| => FromJson(items[k])))
    case Object(members) => Dict(members)
  }

  const FenceOpen: string := "```json\n"
  const FenceClose: string := "\n```"

  /** A fenced JSON block around the text `json.dumps` produced. */
  function Fence(body: string): string
  {
    FenceOpen + body + FenceClose
  }

  /** Reads a fenced block back: the text between the markers, if it is one. */
  function Unfence(s: string): Option<string>
  {
    if |s| >= |FenceOpen| + |FenceClose|
       && s[..|FenceOpen|] == FenceOpen && s[|s| - |FenceClose|..] == FenceClose
    then Some(s[|FenceOpen|..|s| - |FenceClose|])
    else None
  }

  /**
   * `to_markdown(obj)`. `dumps` stands for `json.dumps(_, indent=2)`, whose
   * layout and escaping belong to the JSON library.
   */
  function ToMarkdown(dumps: Json -> string, v: PyValue): string
    decreases v
  {
    if v.dictItems.Some? then Fence(dumps(Object(v.dictItems.value)))
    else if v.raw.Some? then Fence(dumps(v.raw.value))
    else if v.listView.AsList? then
      var items := v.listView.items;
      Join("\n", seq(|items|, k requires 0 <= k < |items| => ToMarkdown(dumps, items[k])))
    else v.text
  }

  /** The renderings of the elements of a list, in order. */
  function RenderEach(dumps: Json -> string, items: seq<PyValue>): (r: seq<string>)
    ensures |r| == |items|
  {
    seq(|items|, k requires 0 <= k < |items| => ToMarkdown(dumps, items[k]))
  }

  // ---------------------------------------------------------------------
  // Properties of the normaliser

  /** The markers around a fenced block can be found again and removed. */
  lemma UnfenceFence(body: string)
    ensures Unfence(Fence(body)) == Some(body)
  {
    var s := Fence(body);
    assert s[..|FenceOpen|] == FenceOpen;
    assert s[|s| - |FenceClose|..] == FenceClose;
    assert s[|FenceOpen|..|s| - |FenceClose|] == body;
  }

  /** A dict renders as one fenced block of its JSON text, whatever else it is. */
  lemma DictFirst(dumps: Json -> string, v: PyValue)
    requires v.dictItems.Some?
    ensures Unfence(ToMarkdown(dumps, v)) == Some(dumps(Object(v.dictItems.value)))
  {
    UnfenceFence(dumps(Object(v.dictItems.value)));
  }

  /** A non-dict with `.raw` renders as the fenced JSON of its raw form, even if it is also a list. */
  lemma RawBeforeList(dumps: Json -> string, v: PyValue)
    requires v.dictItems.None? && v.raw.Some?
    ensures Unfence(ToMarkdown(dumps, v)) == Some(dumps(v.raw.value))
  {
    UnfenceFence(dumps(v.raw.value));
  }

  /**
   * If `loads` undoes `dumps`, the text inside the fenced block of a dict
   * parses back to that dict.
   */
  lemma DictRoundTrip(dumps: Json -> string, loads: string -> Json, members: seq<(string, Json)>)
    requires forall j :: loads(dumps(j)) == j
    ensures Unfence(ToMarkdown(dumps, Dict(members))).Some?
    ensures loads(Unfence(ToMarkdown(dumps, Dict(members))).value) == Object(members)
  {
    DictFirst(dumps, Dict(members));
  }

  /** A list renders as the newline-join of its elements' renderings; `[]` renders as "". */
  lemma ListIsJoin(dumps: Json -> string, items: seq<PyValue>)
    ensures ToMarkdown(dumps, List(items)) == Join("\n", RenderEach(dumps, items))
    ensures items == [] ==> ToMarkdown(dumps, List(items)) == ""
  {
  }

  /** A value that is not a dict, has no `.raw` and is not a list renders as its `str`. */
  lemma OtherRendersAsText(dumps: Json -> string, v: PyValue)
    requires v.dictItems.None? && v.raw.None? && v.listView.NotAList?
    ensures ToMarkdown(dumps, v) == v.text
  {
  }

  /** A one-element list renders exactly as its element. */
  lemma SingletonList(dumps: Json -> string, x: PyValue)
    ensures ToMarkdown(dumps, List([x])) == ToMarkdown(dumps, x)
  {
    assert RenderEach(dumps, [x]) == [ToMarkdown(dumps, x)];
  }

  /** Rendering a concatenation of non-empty lists puts one newline between the two renderings. */
  lemma ListAppend(dumps: Json -> string, xs: seq<PyValue>, ys: seq<PyValue>)
    requires xs != [] && ys != []
    ensures ToMarkdown(dumps, List(xs + ys))
         == ToMarkdown(dumps, List(xs)) + "\n" + ToMarkdown(dumps, List(ys))
  {
    assert RenderEach(dumps, xs + ys) == RenderEach(dumps, xs) + RenderEach(dumps, ys);
    JoinAppend("\n", RenderEach(dumps, xs), RenderEach(dumps, ys));
  }

  /**
   * A non-empty list of dicts renders as consecutive fenced blocks, not one
   * JSON array: the text opens and closes with a fence marker and holds the
   * JSON text of every dict.
   */
  lemma ListOfDicts(dumps: Json -> string, records: seq<seq<(string, Json)>>, i: nat)
    requires i < |records|
    ensures var r := ToMarkdown(dumps, List(seq(|records|, k requires 0 <= k < |records| => Dict(records[k]))));
      FenceOpen <= r && IsSuffix(FenceClose, r) && IsInfix(dumps(Object(records[i])), r)
  {
    var items := seq(|records|, k requires 0 <= k < |records| => Dict(records[k]));
    var parts := RenderEach(dumps, items);
    assert forall k :: 0 <= k < |parts| ==> parts[k] == Fence(dumps(Object(records[k])));
    JoinEnds("\n", parts);
    JoinContainsEach("\n", parts, i);
    var r := Join("\n", parts);
    var last := parts[|parts| - 1];
    assert FenceOpen <= parts[0];
    assert r[|r| - |last|..] == last;
    assert r[|r| - |FenceClose|..] == last[|last| - |FenceClose|..];
    InfixOf(dumps(Object(records[i])), FenceOpen, FenceClose);
    InfixTransitive(dumps(Object(records[i])), parts[i], r);
  }

  /** A non-empty list of one-line scalars splits back, line by line, into their texts. */
  lemma LinesOfScalars(dumps: Json -> string, texts: seq<string>)
    requires |texts| >= 1
    requires forall k :: 0 <= k < |texts| ==> '\n' !in texts[k]
    ensures Split(ToMarkdown(dumps, List(seq(|texts|, k requires 0 <= k < |texts| => Scalar(texts[k])))), '\n')
         == texts
  {
    var items := seq(|texts|, k requires 0 <= k < |texts| => Scalar(texts[k]));
    assert RenderEach(dumps, items) == texts;
    SplitJoin(texts, '\n');
  }
}
