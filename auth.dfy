/**
 * The JSON decisions of `Mediawiki::get_token` (src/lib.rs:121-137) and
 * `Mediawiki::login` (src/lib.rs:99-117), and the arguments those two calls
 * send.
 */
module Auth {
  import opened Wrappers
  import opened JsonValue
  import opened Errors
  import opened Tokens

  /** The arguments of a token request: `action=query`, `meta=tokens`, `type=<in_type>` over the `format=json` seed. */
  function TokenQueryArgs(kind: TokenKind): (m: map<string, string>)
    ensures m.Keys == {"format", "action", "meta", "type"}
    ensures m["format"] == "json" && m["action"] == "query" && m["meta"] == "tokens"
    ensures m["type"] == InType(kind)
  {
    map["format" := "json", "action" := "query", "meta" := "tokens", "type" := InType(kind)]
  }

  /** The arguments of the login request. */
  function LoginArgs(username: string, password: string, token: string): (m: map<string, string>)
    ensures m.Keys == {"format", "action", "lgname", "lgpassword", "lgtoken"}
    ensures m["format"] == "json" && m["action"] == "login"
    ensures m["lgname"] == username && m["lgpassword"] == password && m["lgtoken"] == token
  {
    map["format" := "json", "action" := "login", "lgname" := username, "lgpassword" := password, "lgtoken" := token]
  }

  /**
   * The token in a token response: the string at `query.tokens.<out_type>`;
   * a missing member or a value that is not a string is `Error::None`.
   */
  function TokenFromResponse(kind: TokenKind, json: Json): (r: Result<Token>)
    ensures var at := Path(json, ["query", "tokens", OutType(kind)]);
      && (r.Ok? <==> at.Some? && at.value.Str?)
      && (r.Ok? ==> r.value == NewToken(kind, at.value.s))
      && (r.Err? ==> r.error == NoneError)
  {
    PathStep(json, "query", ["tokens", OutType(kind)]);
    var query :- Need(Get(json, "query"));
    PathStep(query, "tokens", [OutType(kind)]);
    var tokens :- Need(Get(query, "tokens"));
    PathStep(tokens, OutType(kind), []);
    var value :- Need(Get(tokens, OutType(kind)));
    var s :- Need(AsStr(value));
    Ok(NewToken(kind, s))
  }

  /**
   * The outcome of the login response: success exactly when `login.result`
   * is the string "Success"; any other string is an error carrying the whole
   * response; a missing member or a value that is not a string is `Error::None`.
   */
  function LoginOutcome(json: Json): (r: Result<()>)
    ensures var at := Path(json, ["login", "result"]);
      && (r.Ok? <==> at == Some(Str("Success")))
      && (at.Some? && at.value.Str? && at.value.s != "Success" ==> r == Err(JsonError(json)))
      && (!(at.Some? && at.value.Str?) ==> r == Err(NoneError))
  {
    PathStep(json, "login", ["result"]);
    var inner :- Need(Get(json, "login"));
    PathStep(inner, "result", []);
    var result :- Need(Get(inner, "result"));
    var s :- Need(AsStr(result));
    if s == "Success" then Ok(()) else Err(JsonError(json))
  }
}
