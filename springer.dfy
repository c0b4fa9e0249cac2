/**
 * The Springer Nature adapter (src/qal/springer.py): option table and
 * defaults, URL parameters, and the handling of one response page.
 */
module Springer {
  import opened Wrappers
  import opened Types
  import opened Paging

  const Name: string := "springer_nature"
  const Endpoint: string := "http://api.springernature.com/meta/v2/json"
  const DefaultPageSize: int := 50
  const DefaultStart: int := 1

  /** Springer Nature understands one symbolic query option. */
  const OptionTable: map<string, OptionInfo> := map[
    "query_text" := OptionInfo(true, "Boolean match expression.", "q")]

  /** `query_text` maps to `q`, and every other name is unknown. */
  lemma OptionTableFacts(name: string)
    ensures Translate(OptionTable, "query_text").Pass? && OptionTable["query_text"].native == "q"
    ensures name != "query_text" ==> Translate(OptionTable, name) == Fail(UnknownQueryParameter(name))
  {
  }

  /** `construct_parameters`: cursor, page size and key, overridden by `query_data`. */
  function Parameters(start: int, pageSize: int, apiKey: Option<string>, queryData: map<string, string>): map<string, Value>
  {
    Merge(map["s" := Int(start), "p" := Int(pageSize), "api_key" := OptionValue(apiKey)], QueryValues(queryData))
  }

  /** The parameters hold the three fixed keys and every query key; a query key wins over a fixed one. */
  lemma ParametersShape(start: int, pageSize: int, apiKey: Option<string>, queryData: map<string, string>)
    ensures Parameters(start, pageSize, apiKey, queryData).Keys == {"s", "p", "api_key"} + queryData.Keys
    ensures forall k :: k in queryData ==> Parameters(start, pageSize, apiKey, queryData)[k] == Str(queryData[k])
    ensures "s" !in queryData ==> Parameters(start, pageSize, apiKey, queryData)["s"] == Int(start)
    ensures "p" !in queryData ==> Parameters(start, pageSize, apiKey, queryData)["p"] == Int(pageSize)
    ensures "api_key" !in queryData ==> Parameters(start, pageSize, apiKey, queryData)["api_key"] == OptionValue(apiKey)
  {
  }

  /** One entry of `result`: the counts the provider reports. */
  datatype Summary = Summary(total: int, recordsDisplayed: int)

  /** One entry of `records`. */
  datatype Record = Record(
    contentType: string,
    doi: string,
    title: string,
    creators: seq<string>,
    publicationDate: string,
    publicationName: string,
    abstractText: Option<string>)

  datatype Response = Response(result: seq<Summary>, records: seq<Record>)

  const ArticleType: string := "Article"
  const ConferencePaperType: string := "Chapter ConferencePaper"

  /** The Conference record built for a conference paper (and then discarded). */
  function ConferenceOf(r: Record, sanitize: string -> string): (b: Bib)
    ensures b.year == YearOf(r.publicationDate) && b.details.Conference?
    ensures b.details.bookTitle == r.publicationName && b.details.conference == sanitize(r.publicationName)
  {
    Bib(r.doi, r.title, r.creators, YearOf(r.publicationDate),
        Conference(r.publicationName, sanitize(r.publicationName), r.abstractText, None))
  }

  /**
   * The local list the record loop builds: a Conference per conference
   * paper; None once an Article is met, because `results.append()` is
   * called with no argument and raises.
   */
  function Built(records: seq<Record>, sanitize: string -> string): Option<seq<Bib>>
    decreases |records|
  {
    if records == [] then Some([])
    else
      var last := records[|records| - 1];
      match Built(records[..|records| - 1], sanitize)
      case None => None
      case Some(bs) =>
        if last.contentType == ArticleType then None
        else if last.contentType == ConferencePaperType then Some(bs + [ConferenceOf(last, sanitize)])
        else Some(bs)
  }

  /** The loop raises exactly when the page holds an Article record. */
  lemma {:induction false} BuiltRaisesIffArticle(records: seq<Record>, sanitize: string -> string)
    ensures Built(records, sanitize).None? <==> exists i :: 0 <= i < |records| && records[i].contentType == ArticleType
    decreases |records|
  {
    if records != [] {
      var init := records[..|records| - 1];
      BuiltRaisesIffArticle(init, sanitize);
      assert forall i :: 0 <= i < |init| ==> init[i] == records[i];
    }
  }

  /**
   * `process_results`: reading `result[0]` raises on an empty list before
   * anything moves; otherwise the reported total is stored and `start`
   * advances by the reported `recordsDisplayed`; an Article record then
   * raises; otherwise the raw `records` come back, not the built list.
   */
  function Process(c: Cursor, resp: Response, sanitize: string -> string): (r: Processed<Record>)
    ensures resp.result == [] ==> r == Raised(c)
    ensures resp.result != [] ==>
              r.Cur() == c.(total := resp.result[0].total, start := c.start + resp.result[0].recordsDisplayed)
    ensures r.Returned? ==> r.items == resp.records
    ensures resp.result != [] ==> (r.Raised? <==> Built(resp.records, sanitize).None?)
  {
    if resp.result == [] then Raised(c)
    else
      var moved := c.(total := resp.result[0].total, start := c.start + resp.result[0].recordsDisplayed);
      match Built(resp.records, sanitize)
      case None => Raised(moved)
      case Some(_) => Returned(moved, resp.records)
  }

  /** An Article on the page makes the batch fail after the cursor has moved: `error` is set for good. */
  lemma ArticleSetsError(c: Cursor, resp: Response, sanitize: string -> string, i: nat)
    requires HasResults(c) && resp.result != []
    requires i < |resp.records| && resp.records[i].contentType == ArticleType
    ensures AfterBatch(c, Some(Process(c, resp, sanitize))).0 ==
              c.(total := resp.result[0].total, start := c.start + resp.result[0].recordsDisplayed, error := true)
    ensures AfterBatch(c, Some(Process(c, resp, sanitize))).1 == []
  {
    BuiltRaisesIffArticle(resp.records, sanitize);
  }

  /** The record loop of `process_results`. */
  method BuildRecords(records: seq<Record>, sanitize: string -> string) returns (r: Option<seq<Bib>>)
    ensures r == Built(records, sanitize)
  {
    var results: seq<Bib> := [];
    var i := 0;
    while i < |records|
      invariant 0 <= i <= |records|
      invariant Built(records[..i], sanitize) == Some(results)
    {
      assert records[..i + 1][..i] == records[..i];
      var record := records[i];
      if record.contentType == ArticleType {
        BuiltRaisesIffArticle(records, sanitize);
        return None;
      } else if record.contentType == ConferencePaperType {
        results := results + [ConferenceOf(record, sanitize)];
      }
      i := i + 1;
    }
    assert records[..i] == records;
    r := Some(results);
  }
}
