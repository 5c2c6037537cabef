/**
 * The ore-dictionary extension of src/oredict.rs: a list query whose records
 * are read from `oredictentries` while the request names the list
 * `oredictsearch`.
 */
module Oredict {
  import Client

  /** The member of `query` the records are read from. */
  const OreEntries: string := "oredictentries"

  /** The list-query arguments of `query_ores`: the query seed, `odlimit=5000` and `list=oredictsearch`. */
  function OresArgs(): (m: map<string, string>)
    ensures forall k :: k in Client.QuerySeed ==> k in m && m[k] == Client.QuerySeed[k]
    ensures m.Keys == Client.QuerySeed.Keys + {"odlimit", "list"}
    ensures m["odlimit"] == "5000" && m["list"] == "oredictsearch"
    ensures m["list"] != OreEntries
  {
    Client.QuerySeed["odlimit" := "5000"]["list" := "oredictsearch"]
  }

  /** `Oredict::query_ores`: a list query bound to `oredictentries` with the arguments of `OresArgs`. */
  method QueryOres(mw: Client.Mediawiki) returns (q: Client.QueryBuilder)
    ensures fresh(q) && fresh(q.req) && q.req.mw == mw && q.list == OreEntries
    ensures q.req.args == OresArgs()
  {
    q := mw.Query(OreEntries);
    q.Arg("odlimit", "5000");
    q.Arg("list", "oredictsearch");
  }
}
