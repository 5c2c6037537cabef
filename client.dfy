/**
 * The client objects of src/lib.rs: the session (`Mediawiki`) with its cookie
 * jar, the argument builder with its single attempt and its retrying
 * `get`/`post`, the list-query builder and the page iterator. The transport
 * is the session's script of answers (`pending`), and every request sent is
 * recorded in `sent`.
 */
module Client {
  import opened Wrappers
  import opened JsonValue
  import opened Errors
  import opened Http
  import opened Tokens
  import opened Auth
  import opened Paging
  import Decimal

  /** `Config`: the user agent, the credentials and the API endpoint. */
  datatype Config = Config(userAgent: string, username: string, password: string, baseApi: string)

  /**
   * `rq` is a request of method `verb` to the configured endpoint with the
   * configured user agent, carrying `payload` and a `Cookie` header made
   * from `jar`.
   */
  ghost predicate SentAs(rq: HttpRequest, verb: Method, payload: Payload, config: Config, jar: map<string, string>) {
    && rq.verb == verb
    && rq.url == config.baseApi
    && rq.userAgent == config.userAgent
    && rq.payload == payload
    && IsCookieHeader(rq.cookie, jar)
  }

  /**
   * Requests `start` to `start + n - 1` of `log` are the first `n` attempts
   * of a retried call of method `verb` with `payload` that began with jar
   * `jar` over the script `atts`: each carries the cookies as they were after
   * the attempts before it.
   */
  ghost predicate SentFrom(log: seq<HttpRequest>, start: nat, jar: map<string, string>, atts: seq<Attempt>, n: nat,
                           verb: Method, payload: Payload, config: Config)
  {
    && start + n <= |log|
    && n <= |atts|
    && forall k :: 0 <= k < n ==> SentAs(log[start + k], verb, payload, config, JarAfter(jar, atts[..k]))
  }

  /** One more attempt of the same call, sent with the cookies the earlier attempts left. */
  lemma SentFromExtend(log: seq<HttpRequest>, log': seq<HttpRequest>, start: nat, jar: map<string, string>, atts: seq<Attempt>,
                       n: nat, verb: Method, payload: Payload, config: Config)
    requires SentFrom(log, start, jar, atts, n, verb, payload, config)
    requires |log| == start + n && n < |atts|
    requires |log'| == |log| + 1 && log'[..|log|] == log
    requires SentAs(log'[|log|], verb, payload, config, JarAfter(jar, atts[..n]))
    ensures SentFrom(log', start, jar, atts, n + 1, verb, payload, config)
  {
    forall k | start <= k < start + n ensures log'[k] == log[k] {
      assert log'[..|log|][k] == log'[k];
    }
  }

  /** Requests sent later do not change what was sent before. */
  lemma SentFromKept(log: seq<HttpRequest>, log': seq<HttpRequest>, start: nat, jar: map<string, string>, atts: seq<Attempt>,
                     n: nat, verb: Method, payload: Payload, config: Config)
    requires SentFrom(log, start, jar, atts, n, verb, payload, config)
    requires |log| <= |log'| && log'[..|log|] == log
    ensures SentFrom(log', start, jar, atts, n, verb, payload, config)
  {
    forall k | start <= k < start + n ensures log'[k] == log[k] {
      assert log'[..|log|][k] == log'[k];
    }
  }

  /**
   * The script lets `login` finish: the token fetch gets a successful
   * attempt and, when that answer holds a token, so does the login post.
   */
  predicate LoginAnswers(jar: map<string, string>, atts: seq<Attempt>) {
    && HasSuccess(atts)
    && var t := Retry(jar, atts);
       TokenFromResponse(TokenKind.Login, t.value).Ok? ==> HasSuccess(atts[t.used..])
  }

  /** Two successful attempts always let `login` finish. */
  lemma TwoSuccessesAnswerLogin(jar: map<string, string>, atts: seq<Attempt>)
    requires HasTwoSuccesses(atts)
    ensures LoginAnswers(jar, atts)
  {
    SuccessRemains(jar, atts);
  }

  /** What `login` answers on a script: the token fetch, then, with a token, the login post. */
  ghost function LoginReply(jar: map<string, string>, atts: seq<Attempt>, config: Config): Result<()>
    requires LoginAnswers(jar, atts)
  {
    var t := Retry(jar, atts);
    match TokenFromResponse(TokenKind.Login, t.value)
    case Err(e) => Err(e)
    case Ok(_) => LoginOutcome(Retry(t.jar, atts[t.used..]).value)
  }

  /** The arguments every list query starts from: `format=json`, `action=query` and an empty `continue`. */
  const QuerySeed: map<string, string> := map["format" := "json", "action" := "query", "continue" := ""]

  /** The `rcprop` of a recent-changes listing. */
  const RecentChangesProps: string := "user|userid|comment|timestamp|title|ids|sha1|sizes|redirect|loginfo|tags|flags"

  class Mediawiki {
    /** The cookie jar: one value per cookie name. */
    var cookies: map<string, string>
    const config: Config
    /** What the transport answers to the coming sends, in order. */
    var pending: seq<Attempt>
    /** Every request sent so far, oldest first. */
    var sent: seq<HttpRequest>

    /** A session with an empty jar whose transport will answer with `server`. */
    constructor (config: Config, server: seq<Attempt>)
      ensures cookies == map[] && this.config == config && pending == server && sent == []
    {
      cookies := map[];
      this.config := config;
      pending := server;
      sent := [];
    }

    /**
     * The session is in the state a retried call leaves it in when it began
     * with jar `jar`, script `atts` and log `log`: the jar and the script are
     * those after the first successful attempt, and the log has gained one
     * request per attempt.
     */
    ghost predicate LeftByRetry(jar: map<string, string>, atts: seq<Attempt>, log: seq<HttpRequest>, verb: Method, payload: Payload)
      reads this
    {
      var o := Retry(jar, atts);
      && o.Answered?
      && cookies == o.jar
      && pending == atts[o.used..]
      && |sent| == |log| + o.used
      && sent[..|log|] == log
      && SentFrom(sent, |log|, jar, atts, o.used, verb, payload, config)
    }

    /**
     * Where a retried call begun from jar `jar`, script `atts` and log `log`
     * stands after `n` attempts, the last of which answered `r`: the script
     * has lost `n` answers, the jar is the one those attempts leave, and the
     * log has gained one request per attempt.
     */
    ghost predicate Midway(jar: map<string, string>, atts: seq<Attempt>, log: seq<HttpRequest>, n: nat,
                           verb: Method, payload: Payload, r: Result<Json>)
      reads this
    {
      && HasSuccess(atts)
      && n <= Retry(jar, atts).used
      && pending == atts[n..]
      && cookies == JarAfter(jar, atts[..n])
      && (n > 0 ==> r == Classify(JarAfter(jar, atts[..n - 1]), atts[n - 1]).result)
      && |sent| == |log| + n && sent[..|log|] == log
      && SentFrom(sent, |log|, jar, atts, n, verb, payload, config)
    }

    /**
     * The loop of `request` over the `Set-Cookie` headers of a response:
     * each parsed cookie is added to the jar, and the first header that does
     * not parse ends the loop with its error.
     */
    method AddCookies(setCookies: seq<SetCookie>) returns (failure: Option<string>)
      modifies this`cookies
      ensures MergeCookies(old(cookies), setCookies) == Merged(failure, cookies)
    {
      var i := 0;
      while i < |setCookies|
        invariant 0 <= i <= |setCookies|
        invariant MergeCookies(old(cookies), setCookies[..i]) == Merged(None, cookies)
      {
        assert setCookies[..i + 1][..i] == setCookies[..i];
        match setCookies[i]
        case BadCookie(e) =>
          MergeCookiesStops(old(cookies), setCookies, i);
          return Some(e);
        case CookiePair(name, value) =>
          cookies := cookies[name := value];
        i := i + 1;
      }
      assert setCookies[..|setCookies|] == setCookies;
      return None;
    }

    /** `Mediawiki::request`: a fresh builder seeded with `format=json`. */
    method Request() returns (rb: RequestBuilder)
      ensures fresh(rb) && rb.mw == this && rb.args == map["format" := "json"]
    {
      rb := new RequestBuilder(this);
    }

    /**
     * `Mediawiki::get_token`: a retried GET of `action=query`, `meta=tokens`,
     * `type=<in_type>`, and the token read from the answer.
     */
    method GetToken(kind: TokenKind) returns (r: Result<Token>)
      requires HasSuccess(pending)
      modifies this
      ensures r == TokenFromResponse(kind, Retry(old(cookies), old(pending)).value)
      ensures LeftByRetry(old(cookies), old(pending), old(sent), GET, QueryString(TokenQueryArgs(kind)))
    {
      var rb := Request();
      rb.Arg("action", "query");
      rb.Arg("meta", "tokens");
      rb.Arg("type", InType(kind));
      assert rb.args == TokenQueryArgs(kind);
      var json := rb.Get();
      r := TokenFromResponse(kind, json.value);
    }

    /** The request `login` posts: `action=login` with the configured credentials and the token. */
    method LoginRequest(token: Token) returns (rb: RequestBuilder)
      ensures fresh(rb) && rb.mw == this
      ensures rb.args == LoginArgs(config.username, config.password, token.value)
    {
      rb := Request();
      rb.Arg("action", "login");
      rb.Arg("lgname", config.username);
      rb.Arg("lgpassword", config.password);
      rb.Arg("lgtoken", Value(token));
    }

    /**
     * `Mediawiki::login`: fetch a login token, then post `action=login` with
     * the credentials and the token, and read `login.result`. A failed token
     * fetch is returned without posting.
     */
    method Login() returns (r: Result<()>)
      requires LoginAnswers(cookies, pending)
      modifies this
      ensures r == LoginReply(old(cookies), old(pending), config)
      ensures |old(sent)| <= |sent| && sent[..|old(sent)|] == old(sent)
      ensures var t := Retry(old(cookies), old(pending));
              var token := TokenFromResponse(TokenKind.Login, t.value);
              && SentFrom(sent, |old(sent)|, old(cookies), old(pending), t.used, GET, QueryString(TokenQueryArgs(TokenKind.Login)), config)
              && (token.Err? ==> LeftByRetry(old(cookies), old(pending), old(sent), GET, QueryString(TokenQueryArgs(TokenKind.Login))))
              && (token.Ok? ==>
                    && |old(sent)| + t.used <= |sent|
                    && LeftByRetry(t.jar, old(pending)[t.used..], sent[..|old(sent)| + t.used], POST,
                               FormBody(LoginArgs(config.username, config.password, token.value.value))))
    {
      ghost var t := Retry(cookies, pending);
      var token :- GetToken(TokenKind.Login);
      ghost var afterToken := sent;
      assert cookies == t.jar && pending == old(pending)[t.used..] && |afterToken| == |old(sent)| + t.used;
      var rb := LoginRequest(token);
      var json := rb.Post();
      assert LeftByRetry(t.jar, old(pending)[t.used..], afterToken, POST, FormBody(LoginArgs(config.username, config.password, token.value)));
      assert json.value == Retry(t.jar, old(pending)[t.used..]).value;
      assert sent[..|afterToken|] == afterToken;
      assert sent[..|old(sent)|] == afterToken[..|old(sent)|];
      SentFromKept(afterToken, sent, |old(sent)|, old(cookies), old(pending), t.used,
                   GET, QueryString(TokenQueryArgs(TokenKind.Login)), config);
      r := LoginOutcome(json.value);
    }

    /** `Mediawiki::login_config`: a session with an empty jar that logs in, or the login's error. */
    static method LoginConfig(config: Config, server: seq<Attempt>) returns (r: Result<Mediawiki>)
      requires LoginAnswers(map[], server)
      ensures r.Ok? <==> LoginReply(map[], server, config).Ok?
      ensures r.Err? ==> r.error == LoginReply(map[], server, config).error
      ensures r.Ok? ==> fresh(r.value) && r.value.config == config
      ensures r.Ok? ==>
                var t := Retry(map[], server);
                var token := TokenFromResponse(TokenKind.Login, t.value);
                && token.Ok?
                && t.used <= |r.value.sent|
                && SentFrom(r.value.sent, 0, map[], server, t.used, GET, QueryString(TokenQueryArgs(TokenKind.Login)), config)
                && r.value.LeftByRetry(t.jar, server[t.used..], r.value.sent[..t.used], POST,
                                       FormBody(LoginArgs(config.username, config.password, token.value.value)))
    {
      var mw := new Mediawiki(config, server);
      var login := mw.Login();
      match login
      case Err(e) => r := Err(e);
      case Ok(_) => r := Ok(mw);
    }

    /** `Mediawiki::query`: a list query over `action=query` and the `continue=""` seed, bound to `list`. */
    method Query(list: string) returns (q: QueryBuilder)
      ensures fresh(q) && fresh(q.req) && q.req.mw == this && q.list == list
      ensures q.req.args == QuerySeed
    {
      var rb := Request();
      rb.Arg("action", "query");
      rb.Arg("continue", "");
      q := new QueryBuilder(rb, list);
    }

    /** `Mediawiki::query_recentchanges`: the recent-changes listing, newest first, `limit` sent in decimal. */
    method QueryRecentchanges(limit: nat) returns (q: QueryBuilder)
      requires limit < 0x1_0000_0000
      ensures fresh(q) && fresh(q.req) && q.req.mw == this && q.list == "recentchanges"
      ensures q.req.args == QuerySeed["list" := "recentchanges"]["rcdir" := "older"]
                                     ["rcprop" := RecentChangesProps]["limit" := Decimal.ToDecimal(limit)]
    {
      q := Query("recentchanges");
      q.Arg("list", "recentchanges");
      q.Arg("rcdir", "older");
      q.Arg("rcprop", RecentChangesProps);
      q.Arg("limit", Decimal.ToDecimal(limit));
    }
  }

  class RequestBuilder {
    const mw: Mediawiki
    /** The request's arguments: one value per name. */
    var args: map<string, string>

    /** `RequestBuilder::new`: the arguments are exactly `format=json`. */
    constructor (mw: Mediawiki)
      ensures this.mw == mw && args == map["format" := "json"]
    {
      this.mw := mw;
      args := map[];
      new;
      Arg("format", "json");
    }

    /** `RequestBuilder::arg`: set `key` to `val`, replacing an earlier value; every other argument stays. */
    method Arg(key: string, val: string)
      modifies this
      ensures args == old(args)[key := val]
    {
      args := args[key := val];
    }

    /**
     * The builder handed on by a move: a new builder over the same session
     * with the same arguments, so later changes to this one do not reach it.
     */
    method Moved() returns (b: RequestBuilder)
      ensures fresh(b) && b.mw == mw && b.args == args
    {
      b := new RequestBuilder(mw);
      b.args := args;
    }

    /**
     * `RequestBuilder::request`: one attempt. The request carries the jar
     * as its `Cookie` header and the arguments in the encoding of the
     * method; the answer is the next one of the script, classified.
     */
    method Request(verb: Method, form: Option<seq<Part>>) returns (r: Result<Json>)
      requires verb == POST || form.None?
      requires mw.pending != []
      modifies mw
      ensures var o := Classify(old(mw.cookies), old(mw.pending)[0]);
              r == o.result && mw.cookies == o.jar
      ensures mw.pending == old(mw.pending)[1..]
      ensures |mw.sent| == |old(mw.sent)| + 1 && mw.sent[..|old(mw.sent)|] == old(mw.sent)
      ensures SentAs(mw.sent[|old(mw.sent)|], verb, Encode(verb, form, args), mw.config, old(mw.cookies))
    {
      var header, order := CookieHeader(mw.cookies);
      mw.sent := mw.sent + [HttpRequest(verb, mw.config.baseApi, mw.config.userAgent, header, Encode(verb, form, args))];
      var attempt := mw.pending[0];
      mw.pending := mw.pending[1..];
      match attempt
      case SendFailed(e) =>
        r := Err(Reqwest(e));
      case Response(status, setCookies, body) =>
        var failure := mw.AddCookies(setCookies);
        if failure.Some? {
          return Err(Cookie(failure.value));
        }
        if IsSuccess(status) {
          match body
          case Unreadable(e) => r := Err(Reqwest(e));
          case NotJson(e) => r := Err(Parse(e));
          case Parsed(json) => r := Ok(json);
        } else {
          match body
          case Unreadable(e) => r := Err(Reqwest(e));
          case _ => r := Err(Status(status));
        }
    }

    /**
     * One turn of the loop of `get` and `post`: after `n` failed attempts of
     * the call begun from jar `jar0`, script `atts0` and log `log`, one more
     * attempt leaves the session as `n + 1` attempts do.
     */
    method NextAttempt(ghost jar0: map<string, string>, ghost atts0: seq<Attempt>, ghost log: seq<HttpRequest>,
                       ghost n: nat, verb: Method, ghost prev: Result<Json>) returns (r: Result<Json>)
      requires mw.Midway(jar0, atts0, log, n, verb, Encode(verb, None, args), prev)
      requires n == 0 || prev.Err?
      modifies mw
      ensures mw.Midway(jar0, atts0, log, n + 1, verb, Encode(verb, None, args), r)
    {
      assert n < Retry(jar0, atts0).used;
      ghost var before := mw.sent;
      r := Request(verb, None);
      SentFromExtend(before, mw.sent, |log|, jar0, atts0, n, verb, Encode(verb, None, args), mw.config);
      assert mw.sent[..|log|] == mw.sent[..|before|][..|log|];
      JarAfterStep(jar0, atts0, n);
      assert atts0[..n + 1][..n] == atts0[..n];
    }

    /** The loop of `get` and `post`: attempt until an attempt succeeds, whatever the failures before it. */
    method Retrying(verb: Method) returns (r: Result<Json>)
      requires HasSuccess(mw.pending)
      modifies mw
      ensures r == Ok(Retry(old(mw.cookies), old(mw.pending)).value)
      ensures mw.LeftByRetry(old(mw.cookies), old(mw.pending), old(mw.sent), verb, Encode(verb, None, args))
    {
      ghost var jar0, atts0, log := mw.cookies, mw.pending, mw.sent;
      assert atts0[..0] == [] && atts0[0..] == atts0 && log[..|log|] == log;
      r := NextAttempt(jar0, atts0, log, 0, verb, Err(NoneError));
      ghost var n: nat := 1;
      while r.Err?
        invariant 1 <= n && mw.Midway(jar0, atts0, log, n, verb, Encode(verb, None, args), r)
        decreases |mw.pending|
      {
        r := NextAttempt(jar0, atts0, log, n, verb, r);
        n := n + 1;
      }
      assert n == Retry(jar0, atts0).used;
    }

    /** `RequestBuilder::post`: the arguments as a form body, attempted until an attempt succeeds; never an error. */
    method Post() returns (r: Result<Json>)
      requires HasSuccess(mw.pending)
      modifies mw
      ensures r == Ok(Retry(old(mw.cookies), old(mw.pending)).value)
      ensures mw.LeftByRetry(old(mw.cookies), old(mw.pending), old(mw.sent), POST, FormBody(args))
    {
      r := Retrying(POST);
    }

    /** `RequestBuilder::get`: the arguments as a query string, attempted until an attempt succeeds; never an error. */
    method Get() returns (r: Result<Json>)
      requires HasSuccess(mw.pending)
      modifies mw
      ensures r == Ok(Retry(old(mw.cookies), old(mw.pending)).value)
      ensures mw.LeftByRetry(old(mw.cookies), old(mw.pending), old(mw.sent), GET, QueryString(args))
    {
      r := Retrying(GET);
    }

    /** `RequestBuilder::multipart`: one POST attempt with the form as body (the arguments are not sent); its error is returned. */
    method Multipart(form: seq<Part>) returns (r: Result<Json>)
      requires mw.pending != []
      modifies mw
      ensures var o := Classify(old(mw.cookies), old(mw.pending)[0]);
              r == o.result && mw.cookies == o.jar
      ensures mw.pending == old(mw.pending)[1..]
      ensures |mw.sent| == |old(mw.sent)| + 1 && mw.sent[..|old(mw.sent)|] == old(mw.sent)
      ensures SentAs(mw.sent[|old(mw.sent)|], POST, MultipartBody(form), mw.config, old(mw.cookies))
    {
      r := Request(POST, Some(form));
    }
  }

  class QueryBuilder {
    const req: RequestBuilder
    /** The member of `query` that holds a page's records. */
    const list: string

    constructor (req: RequestBuilder, list: string)
      ensures this.req == req && this.list == list
    {
      this.req := req;
      this.list := list;
    }

    /** `QueryBuilder::arg`: the argument is set on the underlying request. */
    method Arg(key: string, val: string)
      modifies req
      ensures req.args == old(req.args)[key := val]
    {
      req.Arg(key, val);
    }

    /** `QueryBuilder::into_iter`: an iterator over the same request with an empty buffer, not done. */
    method IntoIter() returns (q: Query)
      ensures fresh(q) && fresh(q.req) && q.req.mw == req.mw && q.req.args == req.args
      ensures q.list == list && q.buf == [] && !q.done
    {
      var moved := req.Moved();
      q := new Query(moved, list);
    }
  }

  class Query {
    const req: RequestBuilder
    const list: string
    /** The records of the current page not yet handed out, the next one last. */
    var buf: seq<Json>
    /** Set once a page without `continue` has been read. */
    var done: bool

    constructor (req: RequestBuilder, list: string)
      ensures this.req == req && this.list == list && buf == [] && !done
    {
      this.req := req;
      this.list := list;
      buf := [];
      done := false;
    }

    /**
     * `Query::fill`: fetch a page with the current arguments, buffer its
     * records reversed, and copy the `continue` object into the arguments;
     * the result says whether more pages follow.
     */
    method Fill() returns (r: Result<bool>)
      requires HasSuccess(req.mw.pending)
      modifies this, req, req.mw
      ensures var p := ReadPage(Retry(old(req.mw.cookies), old(req.mw.pending)).value, list, old(req.args));
              && r == p.result
              && buf == (if p.records.Some? then Reverse(p.records.value) else old(buf))
              && req.args == p.args
              && done == old(done)
      ensures req.mw.LeftByRetry(old(req.mw.cookies), old(req.mw.pending), old(req.mw.sent), GET, QueryString(old(req.args)))
    {
      var json := req.Get();
      var page := json.value;
      var query := Get(page, "query");
      if query.None? {
        return Err(NoneError);
      }
      var records := Get(query.value, list);
      if records.None? {
        return Err(NoneError);
      }
      var items := AsArray(records.value);
      if items.None? {
        return Err(NoneError);
      }
      buf := items.value;
      buf := Reverse(buf);
      var cont := Get(page, "continue");
      if cont.None? {
        return Ok(false);
      }
      var members := AsObject(cont.value);
      if members.None? {
        return Err(NoneError);
      }
      var complete := CopyContinue(members.value);
      return if complete then Ok(true) else Err(NoneError);
    }

    /**
     * The loop of `fill` over the `continue` object: each member's string
     * value is set as the argument of that name; a value that is not a
     * string ends the loop.
     */
    method CopyContinue(members: seq<(string, Json)>) returns (complete: bool)
      modifies req
      ensures MergeContinue(old(req.args), members) == Continued(complete, req.args)
    {
      for i := 0 to |members|
        invariant MergeContinue(old(req.args), members[..i]) == Continued(true, req.args)
      {
        assert members[..i + 1][..i] == members[..i];
        var (key, value) := members[i];
        var s := AsStr(value);
        if s.None? {
          ContinueStops(old(req.args), members, i);
          return false;
        }
        req.Arg(key, s.value);
      }
      assert members[..|members|] == members;
      return true;
    }

    /**
     * `Query::next`: the next buffered record; with an empty buffer, the end
     * if done, otherwise a fill and then the first record of the new page.
     * A fill error is handed out as an item and leaves `done` unset; an
     * empty page ends the iteration even when it has a `continue`.
     */
    method Next() returns (r: Option<Result<Json>>)
      requires buf == [] && !done ==> HasSuccess(req.mw.pending)
      modifies this, req, req.mw
      ensures old(buf) != [] ==>
                && r == Some(Ok(old(buf)[|old(buf)| - 1]))
                && buf == old(buf)[..|old(buf)| - 1]
                && done == old(done) && req.args == old(req.args)
                && unchanged(req.mw)
      ensures old(buf) == [] && old(done) ==>
                && r == None && buf == [] && done
                && req.args == old(req.args) && unchanged(req.mw)
      ensures old(buf) == [] && !old(done) ==>
                var p := ReadPage(Retry(old(req.mw.cookies), old(req.mw.pending)).value, list, old(req.args));
                var page := if p.records.Some? then Reverse(p.records.value) else [];
                && req.args == p.args
                && req.mw.LeftByRetry(old(req.mw.cookies), old(req.mw.pending), old(req.mw.sent), GET, QueryString(old(req.args)))
                && (p.result.Err? ==> r == Some(Err(p.result.error)) && buf == page && !done)
                && (p.result.Ok? ==> done == !p.result.value)
                && (p.result.Ok? && page == [] ==> r == None && buf == [])
                && (p.result.Ok? && page != [] ==> r == Some(Ok(p.records.value[0])) && buf == page[..|page| - 1])
    {
      if buf == [] {
        if done {
          return None;
        }
        var filled := Fill();
        match filled
        case Err(e) =>
          return Some(Err(e));
        case Ok(more) =>
          if !more {
            done := true;
          }
      }
      if buf == [] {
        r := None;
      } else {
        r := Some(Ok(buf[|buf| - 1]));
        buf := buf[..|buf| - 1];
      }
    }
  }
}
