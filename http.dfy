/**
 * One HTTP exchange of the client with the wiki's API endpoint, with the
 * server as an oracle: what the server (or the network) answers to the n-th
 * request is the n-th `Attempt` of a script. Covers the single attempt of
 * `RequestBuilder::request` (src/lib.rs:219-261) and the retry of `get`/`post`
 * (src/lib.rs:262-277) as functions of the cookie jar and the script.
 */
module Http {
  import opened Wrappers
  import opened JsonValue
  import opened Errors

  datatype Method = GET | POST

  /** A part of a multipart form: a text field, or a file attached by path. */
  datatype Part = TextPart(name: string, text: string) | FilePart(name: string, path: string)

  /** What travels with a request: the arguments as a query string or a form body, or a multipart form. */
  datatype Payload =
    | QueryString(args: map<string, string>)
    | FormBody(args: map<string, string>)
    | MultipartBody(form: seq<Part>)

  /** A request as it goes over the wire. */
  datatype HttpRequest = HttpRequest(verb: Method, url: string, userAgent: string, cookie: string, payload: Payload)

  /**
   * The encoding chosen for a (verb, multipart form) pair. Only three pairs
   * are possible; a multipart GET is refused by the caller's contract, as the
   * source's `unreachable!()` refuses it.
   */
  function Encode(verb: Method, form: Option<seq<Part>>, args: map<string, string>): (p: Payload)
    requires verb == POST || form.None?
    ensures p.MultipartBody? <==> form.Some?
    ensures p.MultipartBody? ==> p.form == form.value
    ensures p.QueryString? <==> verb == GET
    ensures p.FormBody? <==> verb == POST && form.None?
    ensures !p.MultipartBody? ==> p.args == args
  {
    match form
    case Some(parts) => MultipartBody(parts)
    case None => if verb == GET then QueryString(args) else FormBody(args)
  }

  // ---------------------------------------------------------------- Cookie header

  /** `order` lists every cookie name of `jar` exactly once. */
  predicate Enumerates(order: seq<string>, jar: map<string, string>) {
    && (forall i :: 0 <= i < |order| ==> order[i] in jar)
    && (forall n :: n in jar ==> n in order)
    && (forall i, j :: 0 <= i < j < |order| ==> order[i] != order[j])
  }

  /** The `name=value` rendering of the cookies named by `order`, in that order. */
  function Pairs(jar: map<string, string>, order: seq<string>): (r: seq<string>)
    requires forall i :: 0 <= i < |order| ==> order[i] in jar
    ensures |r| == |order|
    ensures forall i :: 0 <= i < |order| ==> r[i] == order[i] + "=" + jar[order[i]]
    decreases |order|
  {
    if order == [] then []
    else
      var last := order[|order| - 1];
      Pairs(jar, order[..|order| - 1]) + [last + "=" + jar[last]]
  }

  /** `parts` joined with `sep` between neighbours, as `[String]::join` does. */
  function Join(parts: seq<string>, sep: string): string
    decreases |parts|
  {
    if parts == [] then ""
    else if |parts| == 1 then parts[0]
    else Join(parts[..|parts| - 1], sep) + sep + parts[|parts| - 1]
  }

  /** `header` is the jar's pairs joined by "; ", in some enumeration order of the jar. */
  ghost predicate IsCookieHeader(header: string, jar: map<string, string>) {
    exists order :: Enumerates(order, jar) && header == Join(Pairs(jar, order), "; ")
  }

  /**
   * The `Cookie` header of a request: every cookie of the jar as `name=value`,
   * joined by "; ". The jar is a hash set, so the order is whatever its
   * iteration yields; `order` names it.
   */
  method CookieHeader(jar: map<string, string>) returns (header: string, ghost order: seq<string>)
    ensures Enumerates(order, jar)
    ensures header == Join(Pairs(jar, order), "; ")
  {
    var names := jar.Keys;
    var pairs: seq<string> := [];
    order := [];
    while names != {}
      invariant names <= jar.Keys
      invariant forall i :: 0 <= i < |order| ==> order[i] in jar && order[i] !in names
      invariant forall n :: n in jar ==> n in names || n in order
      invariant forall i, j :: 0 <= i < j < |order| ==> order[i] != order[j]
      invariant pairs == Pairs(jar, order)
      decreases names
    {
      var n :| n in names;
      assert (order + [n])[..|order|] == order;
      pairs := pairs + [n + "=" + jar[n]];
      order := order + [n];
      names := names - {n};
    }
    header := Join(pairs, "; ");
  }

  // ---------------------------------------------------------------- Set-Cookie

  /** A `Set-Cookie` header as the cookie parser reads it. */
  datatype SetCookie = CookiePair(name: string, value: string) | BadCookie(message: string)

  datatype Merged = Merged(failure: Option<string>, jar: map<string, string>)

  /**
   * The jar after adding the `Set-Cookie` headers in order, a cookie replacing
   * the one of the same name; the first header that does not parse stops the
   * merge, and the cookies before it stay added.
   */
  function MergeCookies(jar: map<string, string>, cs: seq<SetCookie>): (m: Merged)
    ensures m.failure.None? <==> forall i :: 0 <= i < |cs| ==> cs[i].CookiePair?
    decreases |cs|
  {
    if cs == [] then Merged(None, jar)
    else
      var m := MergeCookies(jar, cs[..|cs| - 1]);
      assert forall i :: 0 <= i < |cs| - 1 ==> cs[..|cs| - 1][i] == cs[i];
      if m.failure.Some? then m
      else match cs[|cs| - 1]
        case BadCookie(e) => Merged(Some(e), m.jar)
        case CookiePair(n, v) => Merged(None, m.jar[n := v])
  }

  ghost predicate Names(cs: seq<SetCookie>, n: string) {
    exists i :: 0 <= i < |cs| && cs[i].CookiePair? && cs[i].name == n
  }

  /** No later header of `cs` sets the cookie that header `i` sets. */
  ghost predicate LastOfName(cs: seq<SetCookie>, i: nat)
    requires i < |cs| && cs[i].CookiePair?
  {
    forall j :: i < j < |cs| ==> !(cs[j].CookiePair? && cs[j].name == cs[i].name)
  }

  /** The names set by a sequence of headers are those set by all but its last, and the last one's. */
  lemma NamesSnoc(cs: seq<SetCookie>, n: string)
    requires cs != []
    ensures Names(cs, n) <==> Names(cs[..|cs| - 1], n) || (cs[|cs| - 1].CookiePair? && cs[|cs| - 1].name == n)
  {
    var init := cs[..|cs| - 1];
    if Names(cs, n) {
      var i :| 0 <= i < |cs| && cs[i].CookiePair? && cs[i].name == n;
      if i < |init| { assert init[i] == cs[i]; }
    }
    if Names(init, n) {
      var i :| 0 <= i < |init| && init[i].CookiePair? && init[i].name == n;
      assert cs[i] == init[i];
    }
  }

  /** When every header parses, the jar gains exactly the names set. */
  lemma {:induction false} MergeCookiesDomain(jar: map<string, string>, cs: seq<SetCookie>)
    requires forall i :: 0 <= i < |cs| ==> cs[i].CookiePair?
    ensures forall n :: n in MergeCookies(jar, cs).jar <==> n in jar || Names(cs, n)
    decreases |cs|
  {
    if cs != [] {
      var init := cs[..|cs| - 1];
      assert forall i :: 0 <= i < |init| ==> init[i] == cs[i];
      MergeCookiesDomain(jar, init);
      forall n ensures Names(cs, n) <==> Names(init, n) || n == cs[|cs| - 1].name {
        NamesSnoc(cs, n);
      }
    }
  }

  /** When every header parses, a cookie no header names keeps its value. */
  lemma {:induction false} MergeCookiesKeeps(jar: map<string, string>, cs: seq<SetCookie>)
    requires forall i :: 0 <= i < |cs| ==> cs[i].CookiePair?
    ensures forall n :: n in jar && !Names(cs, n) ==> n in MergeCookies(jar, cs).jar && MergeCookies(jar, cs).jar[n] == jar[n]
    decreases |cs|
  {
    if cs != [] {
      var init := cs[..|cs| - 1];
      assert forall i :: 0 <= i < |init| ==> init[i] == cs[i];
      MergeCookiesKeeps(jar, init);
      forall n | n in jar && !Names(cs, n)
        ensures n in MergeCookies(jar, cs).jar && MergeCookies(jar, cs).jar[n] == jar[n]
      {
        NamesSnoc(cs, n);
      }
    }
  }

  /** When every header parses, a cookie's value is the one the last header naming it gives. */
  lemma {:induction false} MergeCookiesLast(jar: map<string, string>, cs: seq<SetCookie>)
    requires forall i :: 0 <= i < |cs| ==> cs[i].CookiePair?
    ensures forall i :: 0 <= i < |cs| && LastOfName(cs, i) ==>
              cs[i].name in MergeCookies(jar, cs).jar && MergeCookies(jar, cs).jar[cs[i].name] == cs[i].value
    decreases |cs|
  {
    if cs != [] {
      var init := cs[..|cs| - 1];
      assert forall i :: 0 <= i < |init| ==> init[i] == cs[i];
      MergeCookiesLast(jar, init);
      forall i | 0 <= i < |cs| && LastOfName(cs, i)
        ensures cs[i].name in MergeCookies(jar, cs).jar && MergeCookies(jar, cs).jar[cs[i].name] == cs[i].value
      {
        if i < |init| {
          assert cs[|cs| - 1].name != cs[i].name;
          assert LastOfName(init, i);
        }
      }
    }
  }

  /** A header that does not parse stops the merge: the cookies before it are in the jar, none after it. */
  lemma {:induction false} MergeCookiesStops(jar: map<string, string>, cs: seq<SetCookie>, k: nat)
    requires k < |cs| && cs[k].BadCookie?
    requires forall i :: 0 <= i < k ==> cs[i].CookiePair?
    ensures MergeCookies(jar, cs) == Merged(Some(cs[k].message), MergeCookies(jar, cs[..k]).jar)
    decreases |cs|
  {
    var init := cs[..|cs| - 1];
    if k == |cs| - 1 {
      assert init == cs[..k];
    } else {
      assert init[k] == cs[k];
      assert forall i :: 0 <= i < k ==> init[i] == cs[i];
      MergeCookiesStops(jar, init, k);
      assert init[..k] == cs[..k];
    }
  }

  // ---------------------------------------------------------------- One attempt

  /** The response body: unreadable, read but not JSON, or parsed JSON. */
  datatype Body = Unreadable(message: string) | NotJson(message: string) | Parsed(json: Json)

  /** What one send produces: a transport failure, or a response with its status, its `Set-Cookie` headers and its body. */
  datatype Attempt =
    | SendFailed(message: string)
    | Response(status: nat, setCookies: seq<SetCookie>, body: Body)

  /** `StatusCode::is_success`: the 2xx range. */
  predicate IsSuccess(status: nat) {
    200 <= status <= 299
  }

  /** An attempt that `request()` turns into `Ok`: an answered request, every cookie parsed, a 2xx status, a JSON body. */
  predicate Succeeds(a: Attempt) {
    && a.Response?
    && (forall i :: 0 <= i < |a.setCookies| ==> a.setCookies[i].CookiePair?)
    && IsSuccess(a.status)
    && a.body.Parsed?
  }

  datatype Outcome = Outcome(result: Result<Json>, jar: map<string, string>)

  /**
   * The result of one attempt and the jar after it. Cookies are merged before
   * the status is looked at, so a failed status still updates the jar; only a
   * 2xx status leads to the body being parsed; the top-level `error` member of
   * a body is never looked at.
   */
  function Classify(jar: map<string, string>, a: Attempt): (o: Outcome)
    ensures o.result.Ok? <==> Succeeds(a)
    ensures o.result.Ok? ==> a.body == Parsed(o.result.value)
    ensures a.SendFailed? ==> o == Outcome(Err(Reqwest(a.message)), jar)
    ensures a.Response? ==> o.jar == MergeCookies(jar, a.setCookies).jar
    ensures a.Response? && MergeCookies(jar, a.setCookies).failure.Some? ==>
              o.result == Err(Cookie(MergeCookies(jar, a.setCookies).failure.value))
    ensures a.Response? && MergeCookies(jar, a.setCookies).failure.None? && a.body.Unreadable? ==>
              o.result == Err(Reqwest(a.body.message))
    ensures a.Response? && MergeCookies(jar, a.setCookies).failure.None? && !IsSuccess(a.status) && !a.body.Unreadable? ==>
              o.result == Err(Status(a.status))
    ensures a.Response? && MergeCookies(jar, a.setCookies).failure.None? && IsSuccess(a.status) && a.body.NotJson? ==>
              o.result == Err(Parse(a.body.message))
  {
    match a
    case SendFailed(e) => Outcome(Err(Reqwest(e)), jar)
    case Response(status, cs, body) =>
      var m := MergeCookies(jar, cs);
      if m.failure.Some? then Outcome(Err(Cookie(m.failure.value)), m.jar)
      else if IsSuccess(status) then
        match body
        case Unreadable(e) => Outcome(Err(Reqwest(e)), m.jar)
        case NotJson(e) => Outcome(Err(Parse(e)), m.jar)
        case Parsed(j) => Outcome(Ok(j), m.jar)
      else
        match body
        case Unreadable(e) => Outcome(Err(Reqwest(e)), m.jar)
        case _ => Outcome(Err(Status(status)), m.jar)
  }

  /**
   * A 2xx JSON response whose body carries a top-level `error` member is
   * still a success, whatever well-formed cookies it sets.
   */
  lemma ErrorBodyIsOk(jar: map<string, string>, status: nat, cs: seq<SetCookie>, body: Json)
    requires IsSuccess(status)
    requires forall i :: 0 <= i < |cs| ==> cs[i].CookiePair?
    requires Get(body, "error").Some?
    ensures Classify(jar, Response(status, cs, Parsed(body))).result == Ok(body)
  {
  }

  // ---------------------------------------------------------------- Retry

  /** The jar after the attempts of `atts`, one after the other. */
  function JarAfter(jar: map<string, string>, atts: seq<Attempt>): map<string, string>
    decreases |atts|
  {
    if atts == [] then jar else JarAfter(Classify(jar, atts[0]).jar, atts[1..])
  }

  lemma {:induction false} JarAfterSnoc(jar: map<string, string>, atts: seq<Attempt>, a: Attempt)
    ensures JarAfter(jar, atts + [a]) == Classify(JarAfter(jar, atts), a).jar
    decreases |atts|
  {
    if atts != [] {
      assert (atts + [a])[1..] == atts[1..] + [a];
      JarAfterSnoc(Classify(jar, atts[0]).jar, atts[1..], a);
    }
  }

  /** The jar after the first `n + 1` attempts is the jar after the first `n`, updated by attempt `n`. */
  lemma JarAfterStep(jar: map<string, string>, atts: seq<Attempt>, n: nat)
    requires n < |atts|
    ensures JarAfter(jar, atts[..n + 1]) == Classify(JarAfter(jar, atts[..n]), atts[n]).jar
  {
    assert atts[..n + 1] == atts[..n] + [atts[n]];
    JarAfterSnoc(jar, atts[..n], atts[n]);
  }

  predicate HasSuccess(atts: seq<Attempt>) {
    exists i :: 0 <= i < |atts| && Succeeds(atts[i])
  }

  /**
   * What `get`/`post` return: the body of the first attempt that succeeds,
   * the jar after it, and how many attempts were made. `Exhausted` is a script
   * with no successful attempt left, on which the source loops forever.
   */
  datatype Retried = Answered(value: Json, jar: map<string, string>, used: nat) | Exhausted(jar: map<string, string>)

  function Retry(jar: map<string, string>, atts: seq<Attempt>): (o: Retried)
    ensures o.Answered? <==> HasSuccess(atts)
    ensures o.Answered? ==> 1 <= o.used <= |atts|
    ensures o.Answered? ==> Succeeds(atts[o.used - 1]) && atts[o.used - 1].body == Parsed(o.value)
    ensures o.Answered? ==> forall i :: 0 <= i < o.used - 1 ==> !Succeeds(atts[i])
    ensures o.Answered? ==> o.jar == JarAfter(jar, atts[..o.used])
    decreases |atts|
  {
    if atts == [] then Exhausted(jar)
    else
      var first := Classify(jar, atts[0]);
      if first.result.Ok? then
        assert atts[..1][1..] == [];
        Answered(first.result.value, first.jar, 1)
      else
        var rest := Retry(first.jar, atts[1..]);
        assert HasSuccess(atts) ==> HasSuccess(atts[1..]) by {
          if HasSuccess(atts) {
            var i :| 0 <= i < |atts| && Succeeds(atts[i]);
            assert i > 0 && atts[1..][i - 1] == atts[i];
          }
        }
        assert forall i :: 0 <= i < |atts| - 1 ==> atts[1..][i] == atts[i + 1];
        match rest
        case Answered(v, j, n) =>
          assert atts[..n + 1][1..] == atts[1..][..n];
          Answered(v, j, n + 1)
        case Exhausted(j) => Exhausted(j)
  }

  /** A transport failure, or any other failed attempt, is invisible to the caller: the retry answers as if it had not happened, up to the cookies it set. */
  lemma {:induction false} RetrySkipsFailure(jar: map<string, string>, a: Attempt, atts: seq<Attempt>)
    requires !Succeeds(a) && HasSuccess(atts)
    ensures Retry(jar, [a] + atts).Answered?
    ensures Retry(jar, [a] + atts).value == Retry(Classify(jar, a).jar, atts).value
    ensures Retry(jar, [a] + atts).used == Retry(Classify(jar, a).jar, atts).used + 1
  {
    assert ([a] + atts)[0] == a && ([a] + atts)[1..] == atts;
  }

  /** A successful attempt at index `i` ends the retry there at the latest. */
  lemma {:induction false} RetryFirst(jar: map<string, string>, atts: seq<Attempt>, i: nat)
    requires i < |atts| && Succeeds(atts[i])
    ensures Retry(jar, atts).Answered? && Retry(jar, atts).used <= i + 1
    decreases i
  {
    var first := Classify(jar, atts[0]);
    if i > 0 && first.result.Err? {
      assert atts[1..][i - 1] == atts[i];
      RetryFirst(first.jar, atts[1..], i - 1);
    }
  }

  predicate HasTwoSuccesses(atts: seq<Attempt>) {
    exists i, j :: 0 <= i < j < |atts| && Succeeds(atts[i]) && Succeeds(atts[j])
  }

  /** Two successful attempts in the script leave one for the call after the first retried call. */
  lemma {:induction false} SuccessRemains(jar: map<string, string>, atts: seq<Attempt>)
    requires HasTwoSuccesses(atts)
    ensures Retry(jar, atts).Answered?
    ensures HasSuccess(atts[Retry(jar, atts).used..])
  {
    var i, j :| 0 <= i < j < |atts| && Succeeds(atts[i]) && Succeeds(atts[j]);
    RetryFirst(jar, atts, i);
    var o := Retry(jar, atts);
    assert atts[o.used..][j - o.used] == atts[j];
  }
}
