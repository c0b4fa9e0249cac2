/**
 * The IEEE Xplore adapter (src/qal/ieeexplore.py): its option table and
 * defaults, the URL parameters, and the handling of one response page.
 */
module Ieee {
  import opened Wrappers
  import opened Types
  import opened Paging

  const Name: string := "ieee_explore"
  const Endpoint: string := "http://ieeexploreapi.ieee.org/api/v1/search/articles"
  const DefaultPageSize: int := 50
  const DefaultStart: int := 1

  /** The symbolic query options IEEE Xplore understands and their native names. */
  const OptionTable: map<string, OptionInfo> := map[
    "query_text" := OptionInfo(true, "Boolean match expression.", "querytext"),
    "abstract" := OptionInfo(true, "Match in abstract.", "abstract"),
    "affiliation" := OptionInfo(true, "Match affiliation.", "affiliation"),
    "title" := OptionInfo(true, "Match item title.", "article_title"),
    "author" := OptionInfo(true, "Match author.", "author"),
    "doi" := OptionInfo(true, "Match DOI.", "doi"),
    "index_terms" := OptionInfo(true, "Match index terms.", "index_terms"),
    "isbn" := OptionInfo(true, "Match ISBN.", "isbn"),
    "issn" := OptionInfo(true, "Match ISSN.", "issn"),
    "issue" := OptionInfo(true, "Match issue.", "is_number"),
    "publication_title" := OptionInfo(true, "Match parent title.", "publication_title"),
    "year" := OptionInfo(true, "Match publication year.", "publication_year")]

  /** Every entry is a plain key translation; `volume` is not an IEEE option. */
  lemma OptionTableFacts()
    ensures forall n :: n in OptionTable ==> Translate(OptionTable, n).Pass?
    ensures OptionTable["title"].native == "article_title" && OptionTable["issue"].native == "is_number"
            && OptionTable["year"].native == "publication_year"
    ensures Translate(OptionTable, "volume") == Fail(UnknownQueryParameter("volume"))
  {
  }

  /** `construct_parameters`: cursor, page size, format and key, overridden by `query_data`. */
  function Parameters(start: int, pageSize: int, apiKey: Option<string>, queryData: map<string, string>): map<string, Value>
  {
    Merge(map["start_record" := Int(start), "max_results" := Int(pageSize), "format" := Str("json"),
              "apikey" := OptionValue(apiKey)],
          QueryValues(queryData))
  }

  /** The parameters hold the four fixed keys and every query key; a query key wins over a fixed one. */
  lemma ParametersShape(start: int, pageSize: int, apiKey: Option<string>, queryData: map<string, string>)
    ensures Parameters(start, pageSize, apiKey, queryData).Keys == {"start_record", "max_results", "format", "apikey"} + queryData.Keys
    ensures forall k :: k in queryData ==> Parameters(start, pageSize, apiKey, queryData)[k] == Str(queryData[k])
    ensures "start_record" !in queryData ==> Parameters(start, pageSize, apiKey, queryData)["start_record"] == Int(start)
    ensures "max_results" !in queryData ==> Parameters(start, pageSize, apiKey, queryData)["max_results"] == Int(pageSize)
    ensures "format" !in queryData ==> Parameters(start, pageSize, apiKey, queryData)["format"] == Str("json")
    ensures "apikey" !in queryData ==> Parameters(start, pageSize, apiKey, queryData)["apikey"] == OptionValue(apiKey)
  {
  }

  /** One entry of `articles`; an absent key is None, and reading it where the code indexes it raises. */
  datatype Article = Article(
    contentType: string,
    doi: Option<string>,
    articleNumber: Option<string>,
    title: string,
    authors: seq<string>,
    publicationYear: string,
    publicationTitle: string,
    abstractText: Option<string>,
    volume: Option<string>)

  /** The JSON body of a successful search. */
  datatype Response = Response(totalRecords: int, articles: seq<Article>)

  /** The DOI when present, else the article number (None: the lookup raises). */
  function Identifier(a: Article): (r: Option<string>)
    ensures a.doi.Some? ==> r == a.doi
    ensures a.doi.None? ==> r == a.articleNumber
  {
    if a.doi.Some? then a.doi else a.articleNumber
  }

  /** The Conference record built for an article; every copy shares the one, complete author list. */
  function ConferenceOf(a: Article, id: string, sanitize: string -> string): Bib {
    Bib(id, a.title, a.authors, a.publicationYear,
        Conference(a.publicationTitle, sanitize(a.publicationTitle), a.abstractText, None))
  }

  /** The Article record built for a journal paper. */
  function JournalOf(a: Article, id: string): Bib
    requires a.volume.Some?
  {
    Bib(id, a.title, a.authors, a.publicationYear,
        Types.Article(a.publicationTitle, a.volume, None, a.abstractText, None))
  }

  /**
   * The records one article contributes: one Conference per author (the
   * append sits inside the author loop), one Article for a journal paper,
   * nothing for any other content type; None when a key lookup raises.
   */
  function RecordsOf(a: Article, sanitize: string -> string): Option<seq<Bib>> {
    match Identifier(a)
    case None => None
    case Some(id) =>
      if a.contentType == "Conferences" then Some(seq(|a.authors|, _ => ConferenceOf(a, id, sanitize)))
      else if a.contentType == "Journals" then
        if a.volume.None? then None else Some([JournalOf(a, id)])
      else Some([])
  }

  /** The records of a page, article by article; None as soon as one article raises. */
  function Records(articles: seq<Article>, sanitize: string -> string): Option<seq<Bib>>
    decreases |articles|
  {
    if articles == [] then Some([])
    else
      match Records(articles[..|articles| - 1], sanitize)
      case None => None
      case Some(rs) =>
        match RecordsOf(articles[|articles| - 1], sanitize)
        case None => None
        case Some(more) => Some(rs + more)
  }

  /** How many records an article yields when nothing raises. */
  function Yield(a: Article): nat {
    if a.contentType == "Conferences" then |a.authors|
    else if a.contentType == "Journals" then 1
    else 0
  }

  function TotalYield(articles: seq<Article>): nat
    decreases |articles|
  {
    if articles == [] then 0 else TotalYield(articles[..|articles| - 1]) + Yield(articles[|articles| - 1])
  }

  /** A page yields one record per conference author plus one per journal paper, and nothing else. */
  lemma {:induction false} RecordsCount(articles: seq<Article>, sanitize: string -> string)
    requires Records(articles, sanitize).Some?
    ensures |Records(articles, sanitize).value| == TotalYield(articles)
    decreases |articles|
  {
    if articles != [] {
      RecordsCount(articles[..|articles| - 1], sanitize);
    }
  }

  /** Every record carries the identifier of some article of the page. */
  lemma {:induction false} RecordsIdentified(articles: seq<Article>, sanitize: string -> string)
    requires Records(articles, sanitize).Some?
    ensures forall b :: b in Records(articles, sanitize).value ==>
              exists a :: a in articles && Identifier(a) == Some(b.identifier)
    decreases |articles|
  {
    if articles != [] {
      var init := articles[..|articles| - 1];
      var last := articles[|articles| - 1];
      RecordsIdentified(init, sanitize);
      forall b | b in Records(articles, sanitize).value
        ensures exists a :: a in articles && Identifier(a) == Some(b.identifier)
      {
        if b in Records(init, sanitize).value {
          var a :| a in init && Identifier(a) == Some(b.identifier);
          assert a in articles;
        } else {
          assert b in RecordsOf(last, sanitize).value;
          assert last in articles;
        }
      }
    }
  }

  /** A conference paper with several authors gives several records under one identifier. */
  lemma ConferenceDuplicated(a: Article, sanitize: string -> string)
    requires a.contentType == "Conferences" && Identifier(a).Some?
    ensures RecordsOf(a, sanitize).Some?
    ensures |RecordsOf(a, sanitize).value| == |a.authors|
    ensures forall i :: 0 <= i < |a.authors| ==>
              RecordsOf(a, sanitize).value[i].identifier == Identifier(a).value
              && RecordsOf(a, sanitize).value[i].authors == a.authors
  {
  }

  /**
   * `process_results`: the total and the advance of `start` by the number
   * of articles (those that give no record included) happen first; the
   * records follow, or the exception with the cursor already moved.
   */
  function Process(c: Cursor, resp: Response, sanitize: string -> string): (r: Processed<Bib>)
    ensures r.Cur() == c.(total := resp.totalRecords, start := c.start + |resp.articles|)
    ensures r.Returned? <==> Records(resp.articles, sanitize).Some?
    ensures r.Returned? ==> r.items == Records(resp.articles, sanitize).value
  {
    var moved := c.(total := resp.totalRecords, start := c.start + |resp.articles|);
    match Records(resp.articles, sanitize)
    case None => Raised(moved)
    case Some(rs) => Returned(moved, rs)
  }

  /** Once an article raises, the page raises. */
  lemma {:induction false} RaisePropagates(articles: seq<Article>, i: nat, sanitize: string -> string)
    requires i <= |articles| && Records(articles[..i], sanitize).None?
    ensures Records(articles, sanitize).None?
    decreases |articles| - i
  {
    if i < |articles| {
      assert articles[..i + 1][..i] == articles[..i];
      RaisePropagates(articles, i + 1, sanitize);
    } else {
      assert articles[..i] == articles;
    }
  }

  /** The record-building loops of `process_results`. */
  method BuildRecords(articles: seq<Article>, sanitize: string -> string) returns (r: Option<seq<Bib>>)
    ensures r == Records(articles, sanitize)
  {
    var results: seq<Bib> := [];
    var i := 0;
    while i < |articles|
      invariant 0 <= i <= |articles|
      invariant Records(articles[..i], sanitize) == Some(results)
    {
      var a := articles[i];
      assert articles[..i + 1][..i] == articles[..i];
      var identifier := if a.doi.Some? then a.doi else a.articleNumber;
      if identifier.None? {
        RaisePropagates(articles, i + 1, sanitize);
        return None;
      }
      ghost var before := results;
      if a.contentType == "Conferences" {
        var j := 0;
        while j < |a.authors|
          invariant 0 <= j <= |a.authors|
          invariant results == before + seq(j, _ => ConferenceOf(a, identifier.value, sanitize))
        {
          results := results + [ConferenceOf(a, identifier.value, sanitize)];
          j := j + 1;
        }
      } else if a.contentType == "Journals" {
        if a.volume.None? {
          RaisePropagates(articles, i + 1, sanitize);
          return None;
        }
        results := results + [JournalOf(a, identifier.value)];
      }
      assert RecordsOf(a, sanitize).Some? && results == before + RecordsOf(a, sanitize).value;
      i := i + 1;
    }
    assert articles[..i] == articles;
    r := Some(results);
  }
}
