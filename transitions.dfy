/**
 * Transition resolution in `transition_issue` (server.py:428-437) and the
 * listing in `get_issue_transitions` (server.py:458): a transition is found
 * by case-insensitive name, and an unknown name yields a listing of the
 * names on offer instead of an error.
 */
module Transitions {
  import opened Wrappers
  import opened Text
  import opened Normalizer

  /**
   * One entry of the tracker's transition list: a dict whose "id" and
   * "name" the server reads, and whatever else the tracker sends.
   */
  datatype Transition = Transition(id: string, name: string, extra: seq<(string, Json)>)

  /** `trans["name"].lower() == transition_name.lower()`. */
  predicate Matches(t: Transition, request: string)
  {
    Lower(t.name) == Lower(request)
  }

  /** The id of the first transition that matches, if any. */
  function FirstMatch(ts: seq<Transition>, request: string): Option<string>
  {
    if ts == [] then None
    else if Matches(ts[0], request) then Some(ts[0].id)
    else FirstMatch(ts[1..], request)
  }

  /** The search loop: walks the transitions in order and stops at the first match. */
  method FindTransitionId(ts: seq<Transition>, request: string) returns (transitionId: Option<string>)
    ensures transitionId == FirstMatch(ts, request)
  {
    transitionId := None;
    var wanted := Lower(request);
    var i := 0;
    while i < |ts|
      invariant 0 <= i <= |ts|
      invariant FirstMatch(ts, request) == FirstMatch(ts[i..], request)
    {
      assert ts[i..][1..] == ts[i + 1..];
      if Lower(ts[i].name) == wanted {
        transitionId := Some(ts[i].id);
        break;
      }
      i := i + 1;
    }
  }

  /** FirstMatch finds nothing exactly when no name matches. */
  lemma {:induction false} NoMatch(ts: seq<Transition>, request: string)
    ensures FirstMatch(ts, request) == None <==> forall i :: 0 <= i < |ts| ==> !Matches(ts[i], request)
  {
    if ts != [] {
      NoMatch(ts[1..], request);
      assert forall i :: 1 <= i < |ts| ==> ts[i] == ts[1..][i - 1];
    }
  }

  /** FirstMatch returns the id of the earliest matching transition. */
  lemma {:induction false} EarliestMatch(ts: seq<Transition>, request: string, i: nat)
    requires i < |ts| && Matches(ts[i], request)
    requires forall j :: 0 <= j < i ==> !Matches(ts[j], request)
    ensures FirstMatch(ts, request) == Some(ts[i].id)
  {
    if i > 0 {
      assert forall j :: 0 <= j < i - 1 ==> ts[1..][j] == ts[j + 1];
      EarliestMatch(ts[1..], request, i - 1);
    }
  }

  /** The names of the transitions, verbatim and in order. */
  function Names(ts: seq<Transition>): (names: seq<string>)
    ensures |names| == |ts|
  {
    seq(|ts|, i requires 0 <= i < |ts| => ts[i].name)
  }

  /** The success-shaped reply when no transition has the requested name. */
  function NotFoundMessage(request: string, ts: seq<Transition>): string
  {
    "Transition '" + request + "' not found. Available transitions: " + Join(", ", Names(ts))
  }

  /**
   * The not-found reply names the request and lists every available name,
   * case preserved, comma-joined after a fixed lead.
   */
  lemma NotFoundListsEveryName(request: string, ts: seq<Transition>, i: nat)
    ensures IsInfix(request, NotFoundMessage(request, ts))
    ensures IsSuffix(Join(", ", Names(ts)), NotFoundMessage(request, ts))
    ensures i < |ts| ==> IsInfix(ts[i].name, NotFoundMessage(request, ts))
    ensures ts == [] ==> NotFoundMessage(request, ts) == "Transition '" + request + "' not found. Available transitions: "
  {
    var lead := "Transition '" + request + "' not found. Available transitions: ";
    var listing := Join(", ", Names(ts));
    assert NotFoundMessage(request, ts) == lead + listing;
    InfixOf(request, "Transition '", "' not found. Available transitions: " + listing);
    assert "Transition '" + request + ("' not found. Available transitions: " + listing)
        == lead + listing;
    if i < |ts| {
      JoinContainsEach(", ", Names(ts), i);
      InfixOfSuffix(ts[i].name, lead, listing);
    }
  }

  /** The `get_issue_transitions` record: only "id" and "name" are kept. */
  function Summary(t: Transition): seq<(string, Json)>
  {
    [("id", Str(t.id)), ("name", Str(t.name))]
  }

  /** `[{"id": t["id"], "name": t["name"]} for t in transitions]`. */
  function Summaries(ts: seq<Transition>): (r: seq<PyValue>)
    ensures |r| == |ts|
  {
    seq(|ts|, i requires 0 <= i < |ts| => Dict(Summary(ts[i])))
  }

  /**
   * The listing depends only on each transition's id and name: whatever else
   * the tracker sends is dropped. Each entry renders as its own fenced block.
   */
  lemma SummariesKeepIdAndName(dumps: Json -> string, ts: seq<Transition>, us: seq<Transition>)
    requires |ts| == |us|
    requires forall i :: 0 <= i < |ts| ==> ts[i].id == us[i].id && ts[i].name == us[i].name
    ensures ToMarkdown(dumps, List(Summaries(ts))) == ToMarkdown(dumps, List(Summaries(us)))
    ensures forall i :: 0 <= i < |ts| ==>
      Unfence(ToMarkdown(dumps, Summaries(ts)[i])) == Some(dumps(Object([("id", Str(ts[i].id)), ("name", Str(ts[i].name))])))
  {
    assert Summaries(ts) == Summaries(us);
    forall i | 0 <= i < |ts|
      ensures Unfence(ToMarkdown(dumps, Summaries(ts)[i])) == Some(dumps(Object(Summary(ts[i]))))
    {
      DictFirst(dumps, Summaries(ts)[i]);
    }
  }
}
