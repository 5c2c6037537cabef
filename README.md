# mediawiki-rs client core in Dafny

This project models the in-memory logic of the Rust MediaWiki client
(`src/lib.rs`) and of its two extensions (`src/tilesheet.rs`,
`src/oredict.rs`). The parts it covers:

- the session (`Mediawiki`), with its cookie jar and configuration;
- the request builder, with its single attempt `request` and its
  retrying `get`/`post`;
- the list-query builder and the page iterator `Query` with its
  `fill`/`next` state machine;
- the capability-token table, and the JSON decisions of `get_token` and
  `login`.

The HTTP server is an oracle. A session holds `pending`, the script of
answers the transport will give, one per send. It also holds `sent`, the
log of every request put on the wire (method, URL, user agent, `Cookie`
header, encoded arguments).

An attempt is one of two things:
- a transport failure (`SendFailed`);
- a response: a status, its `Set-Cookie` headers as the cookie parser
  reads them, and a body that is unreadable, not JSON, or a parsed JSON
  value.

Modules, one concept each:

- `JsonValue` (json.dfy): JSON values and the `get`/`as_str`/`as_array`/`as_object`
  accessors the client uses, plus member-path navigation.
- `Errors` (errors.dfy): the `Error` enum and `Result`, and `?` on an `Option`
  (a missing value becomes `Error::None`).
- `Http` (http.dfy). It covers:
  - argument encoding;
  - the `Cookie` header;
  - merging `Set-Cookie` headers into the jar;
  - the classification of one attempt;
  - and, as a function of the script, what a retried call answers.
- `Tokens` (tokens.dfy): token kinds with their `in_type`/`out_type` names,
  and `Token`.
- `Decimal` (decimal.dfy): `u32::to_string` as used for the recent-changes limit.
- `Auth` (auth.dfy): the arguments of, and the answer read from, a token
  request and a login.
- `Paging` (paging.dfy): where a page's records are, how `continue` is
  copied into the arguments, and the order of the reversed buffer.
- `Client` (client.dfy): the classes `Mediawiki`, `RequestBuilder`,
  `QueryBuilder` and `Query`. Their methods change the jar, the script, the
  log, the arguments, the buffer and the `done` flag in place.
- `Tilesheet` (tilesheet.dfy) and `Oredict` (oredict.dfy): the extension traits
  as methods that take the session, and the argument maps they build.

The methods are proved against the functions of the other modules. For
example:
- `RequestBuilder.Request` ends in the state `Classify` gives.
- `RequestBuilder.Get`/`Post` end in the state `Retry` gives, with one
  logged request per attempt, each carrying the jar as the earlier
  attempts left it.
- `Query.Fill` does what `ReadPage` says about the fetched page.

Lemmas about these functions state what the source promises:
- the cookie merge sets exactly the named cookies;
- the retry skips any failure;
- popping the reversed buffer hands out the page in order;
- a complete `continue` copy carries every member into the next request.

Behaviour of the code worth knowing, which the model keeps:

- Nothing inspects a top-level `error` member, so a 2xx JSON body carrying
  one reaches the caller as `Ok` (`Http.ErrorBodyIsOk`).
- `get` and `post` retry on every error, not only on transport and status
  failures. A body that is not JSON and a `Set-Cookie` that does not parse
  are retried too (`Http.RetrySkipsFailure`).
- Cookies from a failed attempt stay in the jar. This covers a non-2xx
  status, an unreadable or unparsable body, and the headers before a bad
  `Set-Cookie` (`Http.Classify`, `Http.MergeCookiesStops`).
- `login_config` always logs in, even with empty credentials.
- A missing JSON member is `Error::None`, with no payload.

## Model

| member | source | states |
|---|---|---|
| Errors.Need | src/lib.rs:66-70 | `?` on an `Option`: success exactly when the value is present, with that value; otherwise `Error::None` |
| JsonValue.Lookup | src/lib.rs:132-135 | an object member is found exactly when a member has that name, and what is found is a member's value |
| JsonValue.LookupMember | src/lib.rs:132-135 | in an object with unique names, every member is found under its own name |
| JsonValue.Get | src/lib.rs:108-109 | `get` with a name yields a value exactly when the value is an object with a member of that name, and what it yields is that member's value |
| JsonValue.AsStr | src/lib.rs:109 | `as_str` yields text exactly for a string value, and that value is the string of that text |
| JsonValue.AsArray | src/lib.rs:319 | `as_array` yields elements exactly for an array value, and the value is the array of those elements |
| JsonValue.AsObject | src/lib.rs:322 | `as_object` yields members exactly for an object value, and the value is the object of those members |
| JsonValue.PathStep | src/lib.rs:132-134 | a chain of `get` calls: a missing first member ends the chain; otherwise the rest continues from that member |
| Tokens.InType | src/lib.rs:364-425 | the name a token is requested under is a nonempty lower-case word |
| Tokens.OutType | src/lib.rs:347-430 | for every token kind, the name a token is returned under is the name it is requested under followed by "token" |
| Tokens.KindNamesDistinct | src/lib.rs:361-430 | distinct kinds have distinct request names and distinct response names |
| Tokens.NewToken | src/lib.rs:353-356 | a token made from a string has the requested kind, and its value is that string |
| Tokens.Value | src/lib.rs:357-359 | the value of a token, together with its kind, rebuilds exactly that token |
| Decimal.Digit | src/lib.rs:156 | a digit below ten renders as the decimal digit character of that value |
| Decimal.ToDecimal | src/lib.rs:156 | the rendering of a number is a nonempty string of digits, with a leading zero only for 0 itself |
| Decimal.DecimalRoundTrip | src/lib.rs:156 | reading the rendering of any number back as decimal digits gives the number |
| Auth.TokenQueryArgs | src/lib.rs:125-129 | the arguments of a token request are exactly `format=json`, `action=query`, `meta=tokens` and `type=<in_type>` |
| Auth.LoginArgs | src/lib.rs:101-106 | the arguments of the login post are exactly `format=json`, `action=login` and the name, password and token |
| Auth.TokenFromResponse | src/lib.rs:121-137 | the token is the string at `query.tokens.<out_type>`; a missing member or a value that is not a string is `Error::None` |
| Auth.LoginOutcome | src/lib.rs:107-116 | success exactly when `login.result` is the string "Success"; another string is `Error::Json` carrying the whole response; otherwise `Error::None` |
| Http.Encode | src/lib.rs:233-238 | a GET without a form sends the arguments as a query string, a POST without a form sends them as a form body, and a POST with a form sends only the form; the other combination cannot be requested |
| Http.Pairs | src/lib.rs:225-231 | one `name=value` string per cookie of the jar, in the order the jar is walked |
| Http.CookieHeader | src/lib.rs:225-232 | the `Cookie` header is the jar's `name=value` pairs joined by "; ", walking every cookie exactly once in some order |
| Http.MergeCookies | src/lib.rs:244-249 | the merge fails exactly when some `Set-Cookie` header does not parse |
| Http.MergeCookiesDomain | src/lib.rs:244-249 | when every header parses, the jar holds exactly the cookies it held plus those named by the headers |
| Http.MergeCookiesKeeps | src/lib.rs:244-249 | when every header parses, a cookie no header names keeps its value |
| Http.MergeCookiesLast | src/lib.rs:244-249 | when every header parses, a cookie's value is the one the last header naming it gives |
| Http.MergeCookiesStops | src/lib.rs:244-249 | the first header that does not parse is the error, and exactly the cookies before it are merged |
| Http.Classify | src/lib.rs:219-261 | one attempt succeeds exactly when the answer is a 2xx response with parsed JSON, whose value it returns. A send failure is a transport error. Cookies are merged before the status is examined, and a bad cookie is a cookie error. A body that cannot be read is a transport error, whatever the status. Otherwise a non-2xx status is a status error, and a 2xx with a body that is not JSON is a parse error |
| Http.ErrorBodyIsOk | src/lib.rs:244-255 | a response with any 2xx status, cookies that all parse and a JSON body with a top-level `error` member is answered as a success carrying that body |
| Http.Retry | src/lib.rs:262-277 | a retried call answers exactly when some attempt succeeds. The answer is the body of the first successful attempt, every attempt before it failed, and the jar is the one all attempts up to it leave |
| Http.RetrySkipsFailure | src/lib.rs:262-277 | any failed attempt (transport, status, parse or cookie) is invisible in the answer, apart from the cookies it set, and costs one more attempt |
| Http.RetryFirst | src/lib.rs:262-277 | a successful attempt ends the retry there at the latest |
| Http.SuccessRemains | src/lib.rs:99-107 | with two successful attempts in the script, the first retried call answers and leaves a successful attempt for the next one |
| Client.TwoSuccessesAnswerLogin | src/lib.rs:99-107 | two successful attempts in the script always let `login` finish, whatever the token answer |
| Paging.Reverse | src/lib.rs:319-320 | the buffer has the page's length, and its element `i` is the page's element counted `i` from the end |
| Paging.PopOrder | src/lib.rs:319-320 | after `k` pops the buffer is the reversal of the rest of the page, and the next pop yields record `k` |
| Paging.ReverseReverse | src/lib.rs:319-320 | reversing twice gives the page back: the buffer loses and reorders nothing |
| Paging.PageRecords | src/lib.rs:318-319 | a page has records exactly when `query.<list>` is an array, and the records are that array's elements |
| Paging.MergeContinue | src/lib.rs:321-324 | the copy of a `continue` object completes exactly when every member's value is a string |
| Paging.ContinueApplied | src/lib.rs:321-324 | after a complete copy with unique names, every member is an argument with its string value, and every other argument is as it was |
| Paging.ContinueStops | src/lib.rs:322-323 | a member whose value is not a string stops the copy: exactly the members before it are written |
| Paging.ReadPage | src/lib.rs:316-329 | for a fetched page: a page without an array of records is `Error::None` and changes nothing. With records: no `continue` means last page, a `continue` object with only string values is copied and means more pages, and anything else is `Error::None` after buffering |
| Paging.ContinueCarried | src/lib.rs:321-325 | after a page that has more pages to come, every `continue` member is an argument of the next request, overwriting what was there |
| Client.Mediawiki.constructor | src/lib.rs:86-90 | a new session has an empty jar, the given configuration, and has sent nothing |
| Client.Mediawiki.AddCookies | src/lib.rs:244-249 | the loop over `Set-Cookie` headers leaves the jar and the error that `MergeCookies` gives |
| Client.Mediawiki.Request | src/lib.rs:118-120 | a fresh builder whose arguments are exactly `format=json` |
| Client.Mediawiki.GetToken | src/lib.rs:121-137 | sends `action=query`, `meta=tokens`, `type=<in_type>` with retries, and answers the token read from the first successful response |
| Client.Mediawiki.LoginRequest | src/lib.rs:101-106 | the request `login` posts is a new builder on this session carrying exactly the login arguments |
| Client.Mediawiki.Login | src/lib.rs:99-117 | fetches a login token, returning a failed fetch without posting. Otherwise it posts `action=login` with the configured name, the password and the token, with retries, and answers what `login.result` says. The log holds the token requests, then the login posts |
| Client.Mediawiki.LoginConfig | src/lib.rs:85-93 | a session with an empty jar that logs in: the login's error, or the session `login` left. That session holds the token requests, then the login posts as a retried call from the jar the token fetch left, and ends with that call's jar and the rest of the script |
| Client.Mediawiki.Query | src/lib.rs:138-147 | a list query bound to `list` whose arguments are exactly `format=json`, `action=query`, `continue=""` |
| Client.Mediawiki.QueryRecentchanges | src/lib.rs:148-158 | the query seed plus `list=recentchanges`, `rcdir=older`, the fixed `rcprop` and `limit` in decimal, bound to `recentchanges` |
| Client.RequestBuilder.constructor | src/lib.rs:203-210 | a new builder's arguments are exactly `format=json` |
| Client.RequestBuilder.Arg | src/lib.rs:211-218 | sets one argument, overwriting an earlier value, and leaves every other argument as it was |
| Client.RequestBuilder.Request | src/lib.rs:219-261 | one attempt. It logs one request with the configured endpoint and user agent, the current jar as `Cookie` and the encoded arguments. It consumes one answer and ends in the jar and result that `Classify` gives |
| Client.RequestBuilder.NextAttempt | src/lib.rs:263-267 | one turn of the retry loop: after any number of failed attempts of a call, one more attempt leaves the script, the jar and the log as that many attempts plus one do |
| Client.RequestBuilder.Retrying | src/lib.rs:262-277 | attempts until one succeeds. It answers `Retry`'s value, never an error, and logs one request per attempt, each with the jar the earlier attempts left |
| Client.RequestBuilder.Post | src/lib.rs:262-269 | the arguments as a form body, retried: the first successful answer, never an error |
| Client.RequestBuilder.Get | src/lib.rs:270-277 | the arguments as a query string, retried: the first successful answer, never an error |
| Client.RequestBuilder.Multipart | src/lib.rs:278-280 | exactly one POST attempt with the form as body, whose error is returned |
| Client.QueryBuilder.constructor | src/lib.rs:143-146 | the builder holds the request and the bound list name |
| Client.QueryBuilder.Arg | src/lib.rs:288-295 | delegates to the request: sets one argument and leaves the rest |
| Client.QueryBuilder.IntoIter | src/lib.rs:300-307 | an iterator over a request moved out of the builder (a new builder with the same session and arguments) and the same list, with an empty buffer and not done |
| Client.RequestBuilder.Moved | src/lib.rs:300-303 | a move hands on a new builder over the same session with the same arguments |
| Client.Query.constructor | src/lib.rs:301-306 | the iterator starts with an empty buffer and `done` unset |
| Client.Query.Fill | src/lib.rs:316-329 | fetches a page with retries and ends as `ReadPage` says: the result, the reversed records in the buffer (unchanged when there are none) and the new arguments, with `done` untouched |
| Client.Query.CopyContinue | src/lib.rs:321-324 | the loop over the `continue` members leaves the arguments `MergeContinue` gives, and reports whether it completed |
| Client.Query.Next | src/lib.rs:333-345 | pops the buffer when it is not empty. With an empty buffer it yields nothing once done; otherwise it fills and then hands out the page's first record. A fill error is yielded without setting `done`, `done` is set only by a page without `continue`, and an empty page yields nothing even when it has a `continue` |
| Tilesheet.TilesArgs | src/tilesheet.rs:11-16 | the query seed plus `list=tiles` and `tslimit=5000`, and `tsmod` exactly when a mod is given, with its value |
| Tilesheet.DeleteTilesArgs | src/tilesheet.rs:20-23 | exactly `format=json`, `action=deletetiles`, `tstoken=<token value>` and `tsids=<ids>` |
| Tilesheet.QueryTiles | src/tilesheet.rs:10-18 | a list query bound to `tiles` with the arguments of `TilesArgs` |
| Tilesheet.DeleteTiles | src/tilesheet.rs:19-25 | posts the arguments of `DeleteTilesArgs` with retries, and answers the first successful response |
| Oredict.OresArgs | src/oredict.rs:10-12 | the query seed plus `odlimit=5000` and `list=oredictsearch`; the list sent differs from the bound name `oredictentries` |
| Oredict.QueryOres | src/oredict.rs:9-14 | a list query bound to `oredictentries` with the arguments of `OresArgs` |

## Left out

- The transport is I/O, so the model replaces it with the answer script:
  reqwest's `send`, reading the body, the wire format of a request, and the
  `println!` logging. What a request carries (method, endpoint, user agent,
  `Cookie` header, encoded arguments) is recorded in the session's log.
- The retry loops are unbounded in the source. The model runs a finite
  script and requires it to contain a successful attempt. On a script
  without one, `Http.Retry` is `Exhausted`, where the source would loop
  forever.
- `RequestBuilder.Request` and `RequestBuilder.Multipart`: require a
  nonempty script, because the oracle always answers a send.
- Cookie syntax, domains, paths and expiry: the `cookie` crate is foreign
  code. A jar is a name-to-value map, and a parsed `Set-Cookie` is a name
  and a value, or the parser's error message.
- The `Cookie` header's order: the jar is a hash set walked in an
  unspecified order, so `Http.CookieHeader` promises some enumeration of
  the jar, not a particular one.
- JSON text parsing (`serde_json`) is foreign code: an answer's body is
  already parsed, or marked as not JSON.
- JSON numbers are integers; floating point is not modelled.
- A JSON object is the sequence of members as the parser's map walks them.
  The parser's map has unique names and walks them in key order. The model
  takes any sequence, so it does not fix that order, which decides which
  `continue` members are written before one that is not a string. Lemmas
  that need unique names (`JsonValue.LookupMember`,
  `Paging.ContinueApplied`, `Paging.ContinueCarried`) require them.
- The payloads of foreign errors (I/O, JSON syntax, cookie syntax,
  transport) are kept as messages only.
- `Error::Status` keeps the numeric code, not the status text the source
  renders.
- `Mediawiki.GetToken`, `Mediawiki.Login`, `Mediawiki.LoginConfig`, `RequestBuilder.Get`,
  `RequestBuilder.Post`, `Query.Fill`, `Query.Next` and
  `Tilesheet.DeleteTiles`: require enough successful attempts in the script
  for their retried calls to answer, because the source would block
  forever otherwise.
- `download_file` and `upload_file`: they read file data and download
  bytes, which is I/O. So is `login_path`, which reads a configuration
  file.
- The `RefCell` around the jar: the jar is a plain mutable field of the
  session.
- The type-level kind of a token is a field, so `Tilesheet.DeleteTiles`
  states the CSRF requirement as a precondition.
- src/api.rs is not part of this model: it is not in the crate's module
  tree. Neither is src/bin: those are command-line scripts doing file I/O.
- The commented-out `add_tiles` and `create_sheet` in src/tilesheet.rs are
  not code and are not modelled.
