/**
 * The record fetcher: paginated retrieval of one Airtable table.
 *
 * The network is a script of exchanges: the k-th request the fetcher issues is
 * answered by the k-th exchange. Besides its result the fetcher returns the log
 * of the requests it issued, so that what it asked for can be stated.
 */
module Fetcher {
  import opened Wrappers
  import opened Config

  /** An Airtable record: its field values, and the section stamped on it by the feed builder. */
  datatype Record = Record(fields: map<string, string>, section: Option<string>)

  /** What `response.json()` yields: a page body, or the exception it raises on a body that is not JSON. */
  datatype Payload =
    | Json(records: Option<seq<Record>>, offset: Option<string>)
    | NotJson(error: string)

  /** One answer of the network: an HTTP response, or the exception `requests.get` raises. */
  datatype Exchange =
    | Response(status: int, payload: Payload)
    | Failed(error: string)

  /** One outbound GET: the URL and the Authorization header it carries. */
  datatype Request = Request(url: string, authorization: string)

  /** What the fetcher gives its caller: a record list, or an exception that escapes it. */
  datatype FetchOutcome =
    | Records(records: seq<Record>)
    | Raised(error: string)

  const ApiRoot: string := "https://api.airtable.com/v0/"

  /** The base request URL of a table, with the view as the query only when the view is truthy. */
  function TableUrl(table: string, view: Option<string>): string {
    ApiRoot + BaseId + "/" + table + (if Truthy(view) then "?view=" + view.value else "")
  }

  /** The value of the Authorization header. */
  function Bearer(token: string): string {
    "Bearer " + token
  }

  /** The loop ends after this exchange: it raised, it was refused, or it carried no truthy cursor. */
  predicate Stops(x: Exchange) {
    match x
    case Failed(_) => true
    case Response(status, payload) => status != 200 || payload.NotJson? || !Truthy(payload.offset)
  }

  /** The cursor a page without a stop hands to the next request. */
  function Cursor(x: Exchange): string
    requires !Stops(x)
  {
    x.payload.offset.value
  }

  /** The upstream eventually ends the pagination. */
  predicate EndsPagination(script: seq<Exchange>) {
    exists i :: 0 <= i < |script| && Stops(script[i])
  }

  /** The index of the exchange after which the loop ends. */
  function FirstStop(script: seq<Exchange>): (n: nat)
    requires EndsPagination(script)
    ensures n < |script| && Stops(script[n])
    ensures forall k :: 0 <= k < n ==> !Stops(script[k])
    decreases |script|
  {
    if Stops(script[0]) then 0
    else
      assert EndsPagination(script[1..]) by {
        var i :| 0 <= i < |script| && Stops(script[i]);
        assert i != 0 && script[1..][i - 1] == script[i];
      }
      1 + FirstStop(script[1..])
  }

  /** The records one successful page contributes; a page without `records` contributes none. */
  function PageRecords(x: Exchange): seq<Record> {
    if x.Response? && x.status == 200 && x.payload.Json? then x.payload.records.GetOr([]) else []
  }

  /** The records of a run of pages, concatenated in retrieval order. */
  function Collected(pages: seq<Exchange>): seq<Record>
    decreases |pages|
  {
    if pages == [] then [] else Collected(pages[..|pages| - 1]) + PageRecords(pages[|pages| - 1])
  }

  /** The fetcher's result once the exchange `last` ends the loop after `gathered` was collected. */
  function Finish(last: Exchange, gathered: seq<Record>): FetchOutcome {
    match last
    case Failed(e) => Raised(e)
    case Response(status, payload) =>
      if status != 200 then Records([])
      else
        match payload
        case NotJson(e) => Raised(e)
        case Json(recs, _) => Records(gathered + recs.GetOr([]))
  }

  /** The outcome of fetching against `script`. */
  function FetchResult(script: seq<Exchange>): FetchOutcome
    requires EndsPagination(script)
  {
    var n := FirstStop(script);
    Finish(script[n], Collected(script[..n]))
  }

  /** The URL of the k-th request: the base URL, plus `&offset=` and the previous page's cursor after the first. */
  function PageUrl(base: string, script: seq<Exchange>, k: nat): string
    requires k < |script|
    requires forall j :: 0 <= j < k ==> !Stops(script[j])
  {
    if k == 0 then base else base + "&offset=" + Cursor(script[k - 1])
  }

  /** The requests a fetch against `script` issues. */
  function FetchLog(base: string, authorization: string, script: seq<Exchange>): seq<Request>
    requires EndsPagination(script)
  {
    var n := FirstStop(script);
    seq(n + 1, k requires 0 <= k <= n => Request(PageUrl(base, script, k), authorization))
  }

  /**
   * `fetch_records(table_name, view_name)`: request pages until one carries no
   * cursor, concatenating their records; a refused page yields the empty list.
   */
  method FetchRecords(table: string, view: Option<string>, token: string, script: seq<Exchange>)
    returns (out: FetchOutcome, log: seq<Request>)
    requires EndsPagination(script)
    ensures |log| == FirstStop(script) + 1
    ensures forall k :: 0 <= k < |log| ==> log[k].authorization == "Bearer " + token
    ensures log[0].url == TableUrl(table, view)
    ensures forall k :: 0 < k < |log| ==>
      log[k].url == TableUrl(table, view) + "&offset=" + Cursor(script[k - 1])
    ensures log == FetchLog(TableUrl(table, view), Bearer(token), script)
    ensures out == FetchResult(script)
  {
    var url := TableUrl(table, view);
    var headers := Bearer(token);
    var records: seq<Record> := [];
    var offset: Option<string> := None;
    ghost var n := FirstStop(script);
    var i := 0;
    log := [];
    while true
      invariant 0 <= i <= n
      invariant |log| == i
      invariant forall k :: 0 <= k < i ==> log[k] == Request(PageUrl(url, script, k), headers)
      invariant records == Collected(script[..i])
      invariant i == 0 ==> offset == None
      invariant i > 0 ==> offset == script[i - 1].payload.offset && Truthy(offset)
      decreases n - i
    {
      var currentUrl := url;
      if Truthy(offset) {
        currentUrl := currentUrl + "&offset=" + offset.value;
      }
      var response := script[i];
      log := log + [Request(currentUrl, headers)];
      match response
      case Failed(e) =>
        out := Raised(e);
        break;
      case Response(status, payload) =>
        if status != 200 {
          out := Records([]);
          break;
        }
        match payload
        case NotJson(e) =>
          out := Raised(e);
          break;
        case Json(recs, off) =>
          records := records + recs.GetOr([]);
          offset := off;
          if !Truthy(offset) {
            out := Records(records);
            break;
          }
          assert script[..i + 1][..i] == script[..i];
          i := i + 1;
    }
    assert i == n;
    assert log == FetchLog(url, headers, script);
  }

  /** Page records accumulate in page order: the records of one run of pages followed by the next. */
  lemma {:induction false} CollectedAppend(a: seq<Exchange>, b: seq<Exchange>)
    ensures Collected(a + b) == Collected(a) + Collected(b)
    decreases |b|
  {
    if b != [] {
      var b' := b[..|b| - 1];
      assert (a + b)[..|a + b| - 1] == a + b';
      CollectedAppend(a, b');
    } else {
      assert a + b == a;
    }
  }

  /** A successful fetch returns every page's records, the last page's included, in order. */
  lemma FetchSucceeds(script: seq<Exchange>)
    requires EndsPagination(script)
    requires var last := script[FirstStop(script)];
      last.Response? && last.status == 200 && last.payload.Json?
    ensures FetchResult(script) == Records(Collected(script[..FirstStop(script) + 1]))
  {
    var n := FirstStop(script);
    assert script[..n + 1][..n] == script[..n];
  }

  /** A refused page discards what earlier pages gathered and yields the empty list. */
  lemma FetchRefused(script: seq<Exchange>)
    requires EndsPagination(script)
    requires script[FirstStop(script)].Response? && script[FirstStop(script)].status != 200
    ensures FetchResult(script) == Records([])
  {
  }

  /** An exception from the network or from JSON decoding escapes the fetcher. */
  lemma FetchRaises(script: seq<Exchange>)
    requires EndsPagination(script)
    requires var last := script[FirstStop(script)];
      last.Failed? || (last.Response? && last.status == 200 && last.payload.NotJson?)
    ensures FetchResult(script).Raised?
  {
  }

  /** If pages without a stop precede, the first stop of the whole script is found behind them. */
  lemma {:induction false} FirstStopPrefix(script: seq<Exchange>, rest: seq<Exchange>)
    requires EndsPagination(script)
    ensures EndsPagination(script + rest)
    ensures FirstStop(script + rest) == FirstStop(script)
    decreases |script|
  {
    assert (script + rest)[FirstStop(script)] == script[FirstStop(script)];
    if !Stops(script[0]) {
      assert (script + rest)[1..] == script[1..] + rest;
      FirstStopPrefix(script[1..], rest);
    }
  }

  /** Exchanges after the stop are never requested: they change neither the log nor the result. */
  lemma FetchIgnoresRest(base: string, authorization: string, script: seq<Exchange>, rest: seq<Exchange>)
    requires EndsPagination(script)
    ensures EndsPagination(script + rest)
    ensures FetchResult(script + rest) == FetchResult(script)
    ensures FetchLog(base, authorization, script + rest) == FetchLog(base, authorization, script)
  {
    FirstStopPrefix(script, rest);
    var n := FirstStop(script);
    assert (script + rest)[..n] == script[..n];
    assert (script + rest)[n] == script[n];
    forall k | 0 <= k <= n
      ensures PageUrl(base, script + rest, k) == PageUrl(base, script, k)
    {
      if k > 0 {
        assert (script + rest)[k - 1] == script[k - 1];
      }
    }
  }

  /** Without a truthy view the base URL has no query, so `&offset=` lands in the path as written. */
  lemma NoViewNoQuery(table: string, view: Option<string>, cursor: string)
    requires '?' !in table && '?' !in cursor
    ensures '?' in TableUrl(table, view) <==> Truthy(view)
    ensures !Truthy(view) ==> '?' !in TableUrl(table, view) + "&offset=" + cursor
  {
    assert '?' !in ApiRoot + BaseId + "/";
    if Truthy(view) {
      var s := TableUrl(table, view);
      var at := |ApiRoot + BaseId + "/" + table|;
      assert s[at] == '?';
    }
  }

  /** Two pages, the first carrying cursor "p2": two requests, the second with that cursor, and both pages' records. */
  lemma TwoPages(base: string, authorization: string, r1: seq<Record>, r2: seq<Record>)
    ensures var script := [Response(200, Json(Some(r1), Some("p2"))), Response(200, Json(Some(r2), None))];
      && EndsPagination(script)
      && FetchLog(base, authorization, script)
         == [Request(base, authorization), Request(base + "&offset=p2", authorization)]
      && FetchResult(script) == Records(r1 + r2)
  {
    var script := [Response(200, Json(Some(r1), Some("p2"))), Response(200, Json(Some(r2), None))];
    assert Stops(script[1]);
    assert FirstStop(script) == 1;
    assert Cursor(script[0]) == "p2";
    assert PageUrl(base, script, 1) == base + "&offset=p2";
    var log := FetchLog(base, authorization, script);
    assert |log| == 2 && log[0] == Request(base, authorization);
    assert log[1] == Request(base + "&offset=p2", authorization);
    assert script[..1] == [script[0]];
    assert Collected(script[..1]) == r1 by {
      assert [script[0]][..0] == [];
    }
  }
}
