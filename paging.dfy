/**
 * The page logic of `Query::fill` and `Query::next` (src/lib.rs:316-345):
 * where a page's records are, how the server's `continue` object is copied
 * into the next request's arguments, and the order in which the reversed
 * buffer hands the records out.
 */
module Paging {
  import opened Wrappers
  import opened JsonValue
  import opened Errors

  /** `s` back to front. */
  function Reverse<T>(s: seq<T>): (r: seq<T>)
    ensures |r| == |s|
    ensures forall i :: 0 <= i < |s| ==> r[i] == s[|s| - 1 - i]
    decreases |s|
  {
    if s == [] then [] else Reverse(s[1..]) + [s[0]]
  }

  /**
   * Popping from the reversed page hands out the page in order: after `k`
   * pops the buffer is the reversal of what is left of the page, and the
   * next pop yields record `k`.
   */
  lemma PopOrder<T>(page: seq<T>, k: nat)
    requires k < |page|
    ensures Reverse(page)[..|page| - k] == Reverse(page[k..])
    ensures Reverse(page)[|page| - k - 1] == page[k]
  {
  }

  /** Reversing twice gives the page back: the buffer loses and reorders nothing. */
  lemma {:induction false} ReverseReverse<T>(s: seq<T>)
    ensures Reverse(Reverse(s)) == s
  {
    var r := Reverse(Reverse(s));
    assert |r| == |s|;
    forall i | 0 <= i < |s| ensures r[i] == s[i] {
      assert r[i] == Reverse(s)[|s| - 1 - i];
    }
  }

  /** The records of a page: `query.<list>` as an array. */
  function PageRecords(json: Json, list: string): (r: Option<seq<Json>>)
    ensures var at := Path(json, ["query", list]);
      r.Some? <==> at.Some? && at.value.Arr?
    ensures r.Some? ==> Path(json, ["query", list]) == Some(Arr(r.value))
  {
    PathStep(json, "query", [list]);
    match Get(json, "query")
    case None => None
    case Some(query) =>
      PathStep(query, list, []);
      match Get(query, list)
      case None => None
      case Some(items) => AsArray(items)
  }

  datatype Continued = Continued(complete: bool, args: map<string, string>)

  /**
   * The arguments after writing the members of a `continue` object into
   * them in order, each overwriting an argument of the same name; the first
   * value that is not a string stops the copy, and what was written before
   * it stays written.
   */
  function MergeContinue(args: map<string, string>, members: seq<(string, Json)>): (c: Continued)
    ensures c.complete <==> forall i :: 0 <= i < |members| ==> members[i].1.Str?
    decreases |members|
  {
    if members == [] then Continued(true, args)
    else
      var c := MergeContinue(args, members[..|members| - 1]);
      assert forall i :: 0 <= i < |members| - 1 ==> members[..|members| - 1][i] == members[i];
      var last := members[|members| - 1];
      if !c.complete then c
      else match AsStr(last.1)
        case None => Continued(false, c.args)
        case Some(s) => Continued(true, c.args[last.0 := s])
  }

  /**
   * A complete copy of a `continue` object with unique member names: every
   * member is an argument with its string value, and every other argument
   * is as it was.
   */
  lemma {:induction false} ContinueApplied(args: map<string, string>, members: seq<(string, Json)>)
    requires UniqueKeys(members)
    requires forall i :: 0 <= i < |members| ==> members[i].1.Str?
    ensures forall i :: 0 <= i < |members| ==>
              members[i].0 in MergeContinue(args, members).args && MergeContinue(args, members).args[members[i].0] == members[i].1.s
    ensures forall k :: !HasKey(members, k) ==>
              (k in MergeContinue(args, members).args <==> k in args) &&
              (k in args ==> MergeContinue(args, members).args[k] == args[k])
    decreases |members|
  {
    if members != [] {
      var init := members[..|members| - 1];
      var last := members[|members| - 1];
      assert forall i :: 0 <= i < |init| ==> init[i] == members[i];
      assert UniqueKeys(init);
      ContinueApplied(args, init);
      forall i | 0 <= i < |init| ensures init[i].0 != last.0 {
        assert members[i].0 != members[|members| - 1].0;
      }
    }
  }

  /** A member whose value is not a string stops the copy: exactly the members before it are written. */
  lemma {:induction false} ContinueStops(args: map<string, string>, members: seq<(string, Json)>, k: nat)
    requires k < |members| && !members[k].1.Str?
    requires forall i :: 0 <= i < k ==> members[i].1.Str?
    ensures MergeContinue(args, members) == Continued(false, MergeContinue(args, members[..k]).args)
    decreases |members|
  {
    var init := members[..|members| - 1];
    if k == |members| - 1 {
      assert init == members[..k];
    } else {
      assert init[k] == members[k];
      assert forall i :: 0 <= i < k ==> init[i] == members[i];
      ContinueStops(args, init, k);
      assert init[..k] == members[..k];
    }
  }

  /** The effect of one `fill` on a fetched page: its result, the records it buffers (if it gets that far) and the new arguments. */
  datatype Page = Page(result: Result<bool>, records: Option<seq<Json>>, args: map<string, string>)

  /**
   * Reading a fetched page. A page without `query.<list>` as an array is
   * `Error::None` and changes nothing. Otherwise the records are buffered
   * and then: no `continue` member means this was the last page; a
   * `continue` object is copied into the arguments and means more pages;
   * a `continue` that is not an object, or a member of it that is not a
   * string, is `Error::None` after the records are buffered.
   */
  function ReadPage(json: Json, list: string, args: map<string, string>): (p: Page)
    ensures p.records == PageRecords(json, list)
    ensures p.records.None? ==> p == Page(Err(NoneError), None, args)
    ensures p.result == Ok(false) <==> p.records.Some? && Get(json, "continue").None?
    ensures p.result == Ok(true) <==>
              && p.records.Some?
              && Get(json, "continue").Some? && Get(json, "continue").value.Obj?
              && forall i :: 0 <= i < |Get(json, "continue").value.members| ==> Get(json, "continue").value.members[i].1.Str?
    ensures p.result.Err? ==> p.result.error == NoneError
    ensures Get(json, "continue").None? || !Get(json, "continue").value.Obj? ==> p.args == args
    ensures p.records.Some? && Get(json, "continue").Some? && Get(json, "continue").value.Obj? ==>
              p.args == MergeContinue(args, Get(json, "continue").value.members).args
  {
    match PageRecords(json, list)
    case None => Page(Err(NoneError), None, args)
    case Some(items) =>
      match Get(json, "continue")
      case None => Page(Ok(false), Some(items), args)
      case Some(cont) =>
        match AsObject(cont)
        case None => Page(Err(NoneError), Some(items), args)
        case Some(members) =>
          var c := MergeContinue(args, members);
          Page(if c.complete then Ok(true) else Err(NoneError), Some(items), c.args)
  }

  /**
   * The next request after a page with a `continue` object carries every
   * member of that object as an argument, overwriting what was there.
   */
  lemma ContinueCarried(json: Json, list: string, args: map<string, string>)
    requires ReadPage(json, list, args).result == Ok(true)
    requires UniqueKeys(Get(json, "continue").value.members)
    ensures var members := Get(json, "continue").value.members;
      forall i :: 0 <= i < |members| ==>
        members[i].0 in ReadPage(json, list, args).args && ReadPage(json, list, args).args[members[i].0] == members[i].1.s
  {
    ContinueApplied(args, Get(json, "continue").value.members);
  }
}
