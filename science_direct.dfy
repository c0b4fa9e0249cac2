/**
 * The Elsevier Science Direct adapter (src/qal/science_direct.py): option
 * table and defaults, the request headers and body, and the classification
 * of a response into rate-limited, failed or a page of records.
 */
module ScienceDirect {
  import opened Wrappers
  import opened Types
  import opened Paging

  const Name: string := "science_direct"
  const Endpoint: string := "https://api.elsevier.com/content/search/sciencedirect"
  const DefaultPageSize: int := 25
  const DefaultStart: int := 1
  const RateLimitCode: string := "RATE_LIMIT_EXCEEDED"

  /** The symbolic query options Science Direct understands and their native names. */
  const OptionTable: map<string, OptionInfo> := map[
    "query_text" := OptionInfo(true, "Boolean match expression", "qs"),
    "year" := OptionInfo(true, "Match year", "date"),
    "issue" := OptionInfo(true, "Match issue.", "issue"),
    "publication_title" := OptionInfo(true, "Match parent title.", "pub"),
    "title" := OptionInfo(true, "Match title.", "title"),
    "volume" := OptionInfo(true, "Match volume.", "volume")]

  /** Every entry is a plain key translation; `author` is not a Science Direct option. */
  lemma OptionTableFacts()
    ensures forall n :: n in OptionTable ==> Translate(OptionTable, n).Pass?
    ensures OptionTable["query_text"].native == "qs" && OptionTable["year"].native == "date"
            && OptionTable["publication_title"].native == "pub"
    ensures Translate(OptionTable, "author") == Fail(UnknownQueryParameter("author"))
  {
  }

  /** `construct_headers`: exactly the JSON accept header and the key header. */
  function Headers(apiKey: Option<string>): map<string, Value>
  {
    map["Accept" := Str("application/json"), "X-ELS-APIKey" := OptionValue(apiKey)]
  }

  /** The headers ask for JSON and carry the key. */
  lemma HeadersShape(apiKey: Option<string>)
    ensures Headers(apiKey).Keys == {"Accept", "X-ELS-APIKey"}
    ensures Headers(apiKey)["Accept"] == Str("application/json") && Headers(apiKey)["X-ELS-APIKey"] == OptionValue(apiKey)
  {
  }

  /** `construct_body` before JSON encoding: offset and page size, overridden by `query_data`. */
  function Body(start: int, pageSize: int, queryData: map<string, string>): map<string, Value>
  {
    Merge(map["offset" := Int(start), "show" := Int(pageSize)], QueryValues(queryData))
  }

  /** The body holds offset, page size and every query key; a query key wins over a fixed one. */
  lemma BodyShape(start: int, pageSize: int, queryData: map<string, string>)
    ensures Body(start, pageSize, queryData).Keys == {"offset", "show"} + queryData.Keys
    ensures forall k :: k in queryData ==> Body(start, pageSize, queryData)[k] == Str(queryData[k])
    ensures "offset" !in queryData ==> Body(start, pageSize, queryData)["offset"] == Int(start)
    ensures "show" !in queryData ==> Body(start, pageSize, queryData)["show"] == Int(pageSize)
  {
  }

  /** One entry of `results`; `authors` is None when the JSON holds null. */
  datatype Result = Result(doi: string, title: string, authors: Option<seq<string>>, publicationDate: string, sourceTitle: string)

  /** A response body: an `error-response` envelope, or a page of results. */
  datatype Response =
    | ErrorResponse(errorCode: string)
    | Page(resultsFound: int, results: seq<Result>)

  /** The Article record of a result that has authors. */
  function ArticleOf(r: Result): Bib
    requires r.authors.Some?
  {
    Bib(r.doi, r.title, r.authors.value, YearOf(r.publicationDate), Types.Article(r.sourceTitle, None, None, None, None))
  }

  /** The records of a page: one Article per result, results without authors skipped. */
  function Records(results: seq<Result>): seq<Bib>
    decreases |results|
  {
    if results == [] then []
    else
      var last := results[|results| - 1];
      Records(results[..|results| - 1]) + (if last.authors.Some? then [ArticleOf(last)] else [])
  }

  /** The results that have authors. */
  function WithAuthors(results: seq<Result>): nat
    decreases |results|
  {
    if results == [] then 0
    else WithAuthors(results[..|results| - 1]) + (if results[|results| - 1].authors.Some? then 1 else 0)
  }

  /** A page yields exactly one record per result with authors, so never more records than results. */
  lemma {:induction false} RecordsCount(results: seq<Result>)
    ensures |Records(results)| == WithAuthors(results) <= |results|
    decreases |results|
  {
    if results != [] {
      RecordsCount(results[..|results| - 1]);
    }
  }

  /** Every record is the Article of a result with authors: DOI, source title, four-character year. */
  lemma {:induction false} RecordsFaithful(results: seq<Result>)
    ensures forall b :: b in Records(results) ==>
              exists r :: r in results && r.authors.Some? && b == ArticleOf(r)
    decreases |results|
  {
    if results != [] {
      var init := results[..|results| - 1];
      RecordsFaithful(init);
      forall b | b in Records(results)
        ensures exists r :: r in results && r.authors.Some? && b == ArticleOf(r)
      {
        if b in Records(init) {
          var r :| r in init && r.authors.Some? && b == ArticleOf(r);
          assert r in results;
        } else {
          assert results[|results| - 1] in results;
        }
      }
    }
  }

  /**
   * `process_results`: a rate-limit envelope returns nothing and moves
   * nothing; any other envelope sets `error`; a page sets the total and
   * advances `start` by every result, skipped ones included.
   */
  function Process(c: Cursor, resp: Response): (r: Processed<Bib>)
    ensures r.Returned?
    ensures resp.ErrorResponse? && resp.errorCode == RateLimitCode ==> r == Returned(c, [])
    ensures resp.ErrorResponse? && resp.errorCode != RateLimitCode ==> r == Returned(c.(error := true), [])
    ensures resp.Page? ==> r.cursor == c.(total := resp.resultsFound, start := c.start + |resp.results|)
                           && r.items == Records(resp.results)
  {
    match resp
    case ErrorResponse(code) =>
      if code == RateLimitCode then Returned(c, []) else Returned(c.(error := true), [])
    case Page(found, results) =>
      Returned(c.(total := found, start := c.start + |results|), Records(results))
  }

  /** A rate-limited page leaves the cell active and exactly where it was. */
  lemma RateLimitKeepsCellActive(c: Cursor)
    requires HasResults(c)
    ensures AfterBatch(c, Some(Process(c, ErrorResponse(RateLimitCode)))) == (c, [])
    ensures HasResults(AfterBatch(c, Some(Process(c, ErrorResponse(RateLimitCode)))).0)
  {
  }

  /** The record-building loop of `process_results`. */
  method BuildRecords(results: seq<Result>) returns (rs: seq<Bib>)
    ensures rs == Records(results)
  {
    rs := [];
    var i := 0;
    while i < |results|
      invariant 0 <= i <= |results|
      invariant rs == Records(results[..i])
    {
      assert results[..i + 1][..i] == results[..i];
      var result := results[i];
      if result.authors.None? {
        i := i + 1;
        continue;
      }
      rs := rs + [ArticleOf(result)];
      i := i + 1;
    }
    assert results[..i] == results;
  }
}
