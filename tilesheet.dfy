/**
 * The tile-sheet extension of src/tilesheet.rs: listing the tiles of a mod
 * and deleting tiles by id, both built on the session's list query and
 * argument builder.
 */
module Tilesheet {
  import opened Wrappers
  import opened JsonValue
  import opened Errors
  import opened Http
  import opened Tokens
  import Client

  /** The list-query arguments of `query_tiles`: the query seed, `list=tiles`, `tslimit=5000` and `tsmod` when a mod is given. */
  function TilesArgs(tsmod: Option<string>): (m: map<string, string>)
    ensures forall k :: k in Client.QuerySeed ==> k in m && m[k] == Client.QuerySeed[k]
    ensures "list" in m && m["list"] == "tiles"
    ensures "tslimit" in m && m["tslimit"] == "5000"
    ensures "tsmod" in m <==> tsmod.Some?
    ensures tsmod.Some? ==> m["tsmod"] == tsmod.value
    ensures m.Keys == Client.QuerySeed.Keys + {"list", "tslimit"} + (if tsmod.Some? then {"tsmod"} else {})
  {
    var base := Client.QuerySeed["list" := "tiles"]["tslimit" := "5000"];
    if tsmod.Some? then base["tsmod" := tsmod.value] else base
  }

  /** The form of `delete_tiles`: exactly `format=json`, `action=deletetiles`, the token's value and the ids. */
  function DeleteTilesArgs(token: Token, ids: string): (m: map<string, string>)
    ensures m.Keys == {"format", "action", "tstoken", "tsids"}
    ensures m["format"] == "json" && m["action"] == "deletetiles"
    ensures m["tstoken"] == Value(token) && m["tsids"] == ids
  {
    map["format" := "json", "action" := "deletetiles", "tstoken" := Value(token), "tsids" := ids]
  }

  /** `Tilesheet::query_tiles`: a list query bound to `tiles` with the arguments of `TilesArgs`. */
  method QueryTiles(mw: Client.Mediawiki, tsmod: Option<string>) returns (q: Client.QueryBuilder)
    ensures fresh(q) && fresh(q.req) && q.req.mw == mw && q.list == "tiles"
    ensures q.req.args == TilesArgs(tsmod)
  {
    q := mw.Query("tiles");
    q.Arg("list", "tiles");
    q.Arg("tslimit", "5000");
    if tsmod.Some? {
      q.Arg("tsmod", tsmod.value);
    }
  }

  /** `Tilesheet::delete_tiles`: the form posted with retries, answered by the first successful attempt. */
  method DeleteTiles(mw: Client.Mediawiki, token: Token, ids: string) returns (r: Result<Json>)
    requires token.kind == Csrf
    requires HasSuccess(mw.pending)
    modifies mw
    ensures r == Ok(Retry(old(mw.cookies), old(mw.pending)).value)
    ensures mw.LeftByRetry(old(mw.cookies), old(mw.pending), old(mw.sent), POST, FormBody(DeleteTilesArgs(token, ids)))
  {
    var request := mw.Request();
    request.Arg("action", "deletetiles");
    request.Arg("tstoken", Value(token));
    request.Arg("tsids", ids);
    r := request.Post();
  }
}
