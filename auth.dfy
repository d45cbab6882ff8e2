/**
 * Client selection, `get_jira_client` (server.py:29-51): in stdio mode a
 * global client built from the environment token is used; in server mode
 * the bearer token comes from the request's authorization header.
 */
module Auth {
  import opened Wrappers
  import opened Text

  /** A client handle: the tracker URL and the token it authenticates with. */
  datatype Client = Client(server: string, token: string)

  const BadHeaderFormat: string := "Invalid Authorization header format. Expected: 'Bearer <token>'"
  const NoAccessToken: string := "No access token available. Provide Authorization header with Bearer token."

  /**
   * `headers.get("authorization", headers.get("Authorization"))`: the
   * lower-case header wins whenever it is present, even when it is empty.
   */
  function AuthHeader(headers: map<string, string>): Option<string>
  {
    if "authorization" in headers then Some(headers["authorization"])
    else if "Authorization" in headers then Some(headers["Authorization"])
    else None
  }

  /**
   * `get_jira_client(headers)`. `global` is the module-level client (absent
   * in server mode) and `url` is `JIRA_URL`; a `RuntimeError` is a `Failure`
   * carrying its message.
   */
  function GetJiraClient(global: Option<Client>, url: string, headers: map<string, string>)
    : (r: Result<Client, string>)
    ensures global.Some? ==> r == Success(global.value)
    ensures global.None? && (AuthHeader(headers) == None || AuthHeader(headers) == Some(""))
      ==> r == Failure(NoAccessToken)
    ensures global.None? && AuthHeader(headers).Some? && AuthHeader(headers).value != "" ==>
      (r.Success? <==> multiset(AuthHeader(headers).value)[' '] == 1)
      && (r.Failure? ==> r.error == BadHeaderFormat)
    ensures global.None? && r.Success? ==>
      r.value.server == url && ' ' !in r.value.token
      && exists scheme :: ' ' !in scheme && AuthHeader(headers) == Some(scheme + " " + r.value.token)
  {
    if global.Some? then Success(global.value)
    else
      var header := AuthHeader(headers);
      if header.Some? && header.value != "" then
        var parts := Split(header.value, ' ');
        SplitCount(header.value, ' ');
        if |parts| != 2 then Failure(BadHeaderFormat)
        else
          SplitPartsFree(header.value, ' ');
          JoinSplit(header.value, ' ');
          assert parts == [parts[0]] + [parts[1]];
          JoinCons(" ", parts[0], [parts[1]]);
          assert ' ' !in parts[0];
          Success(Client(url, parts[1]))
      else Failure(NoAccessToken)
  }

  /** The scheme word before the space is never checked: any single word is accepted. */
  lemma AnySchemeAccepted(url: string, headers: map<string, string>, scheme: string, token: string)
    requires ' ' !in scheme && ' ' !in token
    requires AuthHeader(headers) == Some(scheme + " " + token)
    ensures GetJiraClient(None, url, headers) == Success(Client(url, token))
  {
    var h := scheme + " " + token;
    SplitJoin([scheme, token], ' ');
    JoinCons([' '], scheme, [token]);
    assert Join([' '], [scheme, token]) == h;
  }

  /**
   * An empty lower-case header shadows a well-formed capitalised one: the
   * call fails for want of a token.
   */
  lemma EmptyLowerCaseHeaderShadows(url: string, token: string)
    requires ' ' !in token
    ensures GetJiraClient(None, url, map["authorization" := "", "Authorization" := "Bearer " + token])
         == Failure(NoAccessToken)
    ensures GetJiraClient(None, url, map["Authorization" := "Bearer " + token])
         == Success(Client(url, token))
  {
    assert "Bearer " + token == "Bearer" + " " + token;
    AnySchemeAccepted(url, map["Authorization" := "Bearer " + token], "Bearer", token);
  }
}
