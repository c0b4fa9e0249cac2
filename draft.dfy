/**
 * The draft adapter package (src/scrape_acad_library): a configurable
 * base adapter whose `run` loop pages through a provider, the three
 * provider configurations with their `process_results`, and the alias
 * registry.
 */
module Draft {
  import opened Wrappers
  import opened Paging
  import Springer
  import Registry

  /** The base class and its three subclasses. */
  datatype DraftKind = Base | IeeeDraft | ElsevierDraft | SpringerDraft

  /** What a subclass passes to the base constructor, besides the key and the two defaults. */
  datatype DraftConfig = DraftConfig(
    name: string,
    requestType: string,
    apiKeyName: string,
    queryUrl: string,
    numResultsKey: string,
    startKey: string,
    optionTable: map<string, string>,
    additional: map<string, Value>)

  const IeeeConfig: DraftConfig := DraftConfig(
    "ieee_explore", "GET", "apikey", "http://ieeexploreapi.ieee.org/api/v1/search/articles",
    "max_results", "start_record",
    map["query_text" := "querytext", "abstract" := "abstract", "affiliation" := "affiliation",
        "article_number" := "article_number", "article_title" := "article_title", "author" := "author",
        "d-au" := "d-au", "doi" := "doi", "d-publisher" := "d-publisher", "d-pubtype" := "d-pubtype",
        "d-year" := "d-year", "facet" := "facet", "index_terms" := "index_terms", "isbn" := "isbn",
        "issn" := "issn", "issue_number" := "is_number", "meta_data" := "meta_data",
        "publication_title" := "publication_title", "publication_year" := "publication_year",
        "thesaurus_terms" := "thesaurus_terms"],
    map["format" := Str("json")])

  const ElsevierConfig: DraftConfig := DraftConfig(
    "science_direct", "GET", "apiKey", "https://api.elsevier.com/content/metadata/article",
    "count", "start",
    map["query_text" := "query"],
    map["httpAccept" := Str("application/json"), "view" := Str("COMPLETE")])

  const SpringerConfig: DraftConfig := DraftConfig(
    "springer_nature", "GET", "api_key", "http://api.springernature.com/meta/v2/json",
    "p", "s",
    map["query_text" := "q"],
    map[])

  /** The base constructor's defaults for the page size and the start. */
  const BaseNumResults: int := 10
  const BaseStart: int := 1

  /** A few entries of the draft IEEE table, and the cursor keys of each configuration. */
  lemma ConfigFacts()
    ensures IeeeConfig.optionTable["issue_number"] == "is_number"
    ensures IeeeConfig.optionTable["publication_year"] == "publication_year"
    ensures (IeeeConfig.startKey, IeeeConfig.numResultsKey, IeeeConfig.apiKeyName) == ("start_record", "max_results", "apikey")
    ensures (ElsevierConfig.startKey, ElsevierConfig.numResultsKey, ElsevierConfig.apiKeyName) == ("start", "count", "apiKey")
    ensures (SpringerConfig.startKey, SpringerConfig.numResultsKey, SpringerConfig.apiKeyName) == ("s", "p", "api_key")
    ensures ElsevierConfig.optionTable.Keys == SpringerConfig.optionTable.Keys == {"query_text"}
  {
  }

  /** A raw JSON record, passed through uninspected. */
  type RawRecord = string

  /** The JSON bodies the three draft `process_results` read. */
  datatype DraftBody =
      /** IEEE Xplore: `total_records` and `articles`. */
    | IeeeArticles(totalRecords: int, articles: seq<RawRecord>)
      /** Science Direct: `search-results.opensearch:totalResults` and a top-level `entry` (None: absent). */
    | SearchResults(totalResults: int, entry: Option<seq<RawRecord>>)
      /** Springer Nature: `result` and `records`. */
    | SpringerRecords(result: seq<Springer.Summary>, records: seq<RawRecord>)

  /** What `make_request` gives back: a decoded body, or the exception once the retries are spent. */
  datatype DraftFetched = DraftFailure | DraftJson(body: DraftBody)

  /**
   * `process_results` of each draft class. The base returns None, which
   * `run` cannot iterate; a body of another shape raises at its first key.
   * Science Direct stores the total and then raises when `entry` is not at
   * the top level.
   */
  function DraftProcess(kind: DraftKind, c: Cursor, body: DraftBody): (r: Processed<RawRecord>)
    ensures kind == Base ==> r == Raised(c)
    ensures kind == IeeeDraft && body.IeeeArticles? ==>
              r == Returned(c.(total := body.totalRecords, start := c.start + |body.articles|), body.articles)
    ensures kind == ElsevierDraft && body.SearchResults? && body.entry.None? ==>
              r == Raised(c.(total := body.totalResults))
    ensures kind == ElsevierDraft && body.SearchResults? && body.entry.Some? ==>
              r == Returned(c.(total := body.totalResults, start := c.start + |body.entry.value|), body.entry.value)
    ensures kind == SpringerDraft && body.SpringerRecords? && body.result != [] ==>
              r == Returned(c.(total := body.result[0].total, start := c.start + body.result[0].recordsDisplayed), body.records)
    ensures kind == SpringerDraft && body.SpringerRecords? && body.result == [] ==> r == Raised(c)
    ensures ((kind == IeeeDraft && !body.IeeeArticles?) || (kind == ElsevierDraft && !body.SearchResults?)
             || (kind == SpringerDraft && !body.SpringerRecords?)) ==> r == Raised(c)
  {
    match kind
    case Base => Raised(c)
    case IeeeDraft =>
      if body.IeeeArticles? then Returned(c.(total := body.totalRecords, start := c.start + |body.articles|), body.articles)
      else Raised(c)
    case ElsevierDraft =>
      if !body.SearchResults? then Raised(c)
      else if body.entry.None? then Raised(c.(total := body.totalResults))
      else Returned(c.(total := body.totalResults, start := c.start + |body.entry.value|), body.entry.value)
    case SpringerDraft =>
      if !body.SpringerRecords? || body.result == [] then Raised(c)
      else Returned(c.(total := body.result[0].total, start := c.start + body.result[0].recordsDisplayed), body.records)
  }

  function DraftStep(kind: DraftKind, c: Cursor, f: DraftFetched): Option<Processed<RawRecord>> {
    match f
    case DraftFailure => None
    case DraftJson(body) => Some(DraftProcess(kind, c, body))
  }

  function DraftStepFn(kind: DraftKind): (Cursor, DraftFetched) -> Option<Processed<RawRecord>> {
    (c, f) => DraftStep(kind, c, f)
  }

  /** The base class ends its run with `error` after its first request, whatever comes back, and yields nothing. */
  lemma BaseRunErrors(c: Cursor, fs: seq<DraftFetched>)
    requires HasResults(c) && fs != []
    ensures Drive(c, fs, DraftStepFn(Base)).0.error
    ensures Drive(c, fs, DraftStepFn(Base)).1 == []
    ensures Drive(c, fs, DraftStepFn(Base)).2 == 1
  {
    DriveErrorEndsRun(c, fs, DraftStepFn(Base));
  }

  /**
   * Science Direct sends `entry` under `search-results`, so the top-level
   * lookup raises: the run stores the total, sets `error`, yields nothing
   * and leaves `start` where it was.
   */
  lemma ElsevierRunStopsAtFirstPage(c: Cursor, total: int, fs: seq<DraftFetched>)
    requires HasResults(c) && fs != [] && fs[0] == DraftJson(SearchResults(total, None))
    ensures Drive(c, fs, DraftStepFn(ElsevierDraft)) == (c.(total := total, error := true), [], 1)
  {
    DriveErrorEndsRun(c, fs, DraftStepFn(ElsevierDraft));
  }

  /**
   * The request parameters of `make_request`: api key, start and page size,
   * then the additional parameters, then `query_data`, each later entry
   * overriding an earlier one with the same key.
   */
  function RequestData(cfg: DraftConfig, apiKey: Option<string>, start: int, numResults: int, queryData: map<string, Value>): (r: map<string, Value>)
    ensures r.Keys == {cfg.apiKeyName, cfg.startKey, cfg.numResultsKey} + cfg.additional.Keys + queryData.Keys
    ensures forall k :: k in queryData ==> r[k] == queryData[k]
    ensures forall k :: k in cfg.additional && k !in queryData ==> r[k] == cfg.additional[k]
    ensures cfg.numResultsKey !in cfg.additional && cfg.numResultsKey !in queryData ==> r[cfg.numResultsKey] == Int(numResults)
    ensures cfg.startKey != cfg.numResultsKey && cfg.startKey !in cfg.additional && cfg.startKey !in queryData ==>
              r[cfg.startKey] == Int(start)
    ensures cfg.apiKeyName != cfg.startKey && cfg.apiKeyName != cfg.numResultsKey
            && cfg.apiKeyName !in cfg.additional && cfg.apiKeyName !in queryData ==>
              r[cfg.apiKeyName] == OptionValue(apiKey)
  {
    var fixed := map[cfg.apiKeyName := OptionValue(apiKey)][cfg.startKey := Int(start)][cfg.numResultsKey := Int(numResults)];
    Merge(Merge(fixed, cfg.additional), queryData)
  }

  /** `for key in src.keys(): d[key] = src[key]`: the copied entries win, the others stay. */
  method CopyEntries<K, V>(d: map<K, V>, src: map<K, V>) returns (r: map<K, V>)
    ensures r == Merge(d, src)
  {
    r := d;
    var todo := src.Keys;
    while todo != {}
      invariant todo <= src.Keys
      invariant r == d + map k | k in src && k !in todo :: src[k]
      decreases |todo|
    {
      var k :| k in todo;
      r := r[k := src[k]];
      todo := todo - {k};
    }
    assert (map k | k in src && k !in todo :: src[k]) == src;
  }

  /** The native names a draft table can write into `query_data`. */
  function DraftNatives(table: map<string, string>): set<string> {
    set n | n in table :: table[n]
  }

  /**
   * For the three provider configurations no query option and no
   * additional parameter uses a cursor or key name, so the request always
   * carries the adapter's start and page size.
   */
  lemma ProviderRequestsCarryCursor(kind: DraftKind, apiKey: Option<string>, start: int, numResults: int, queryData: map<string, Value>)
    requires kind != Base
    requires queryData.Keys <= DraftNatives(ConfigOf(kind).optionTable)
    ensures var cfg := ConfigOf(kind);
            var r := RequestData(cfg, apiKey, start, numResults, queryData);
            r[cfg.startKey] == Int(start) && r[cfg.numResultsKey] == Int(numResults) && r[cfg.apiKeyName] == OptionValue(apiKey)
  {
    NoCursorKeyIsNative(kind);
  }

  /** The cursor and key names of a provider configuration are neither native names nor additional parameters. */
  lemma NoCursorKeyIsNative(kind: DraftKind)
    requires kind != Base
    ensures var cfg := ConfigOf(kind);
            var keys := {cfg.startKey, cfg.numResultsKey, cfg.apiKeyName};
            |keys| == 3 && (forall k :: k in keys ==> k !in cfg.additional && k !in DraftNatives(cfg.optionTable))
  {
  }

  /** The configuration a subclass passes up (the base class gets one from its caller). */
  function ConfigOf(kind: DraftKind): DraftConfig
    requires kind != Base
  {
    match kind
    case IeeeDraft => IeeeConfig
    case ElsevierDraft => ElsevierConfig
    case SpringerDraft => SpringerConfig
  }

  /** A draft adapter object. */
  class DraftLibrary {
    const kind: DraftKind
    const config: DraftConfig
    const apiKey: Option<string>
    var numResults: int
    var start: int
    var resultsTotal: int
    var queryData: map<string, Value>
    var error: bool

    /** The base constructor: the configuration, the key and the two defaults. */
    constructor (kind: DraftKind, config: DraftConfig, apiKey: Option<string>, numResults: int, start: int)
      ensures this.kind == kind && this.config == config && this.apiKey == apiKey
      ensures State() == Cursor(start, numResults, UnknownTotal, false) && queryData == map[]
    {
      this.kind := kind;
      this.config := config;
      this.apiKey := apiKey;
      this.numResults := numResults;
      this.start := start;
      resultsTotal := UnknownTotal;
      queryData := map[];
      error := false;
    }

    /** The pagination fields as a cursor. */
    function State(): Cursor
      reads this
    {
      Cursor(start, numResults, resultsTotal, error)
    }

    predicate HasResults()
      reads this
    {
      Paging.HasResults(State())
    }

    /**
     * `set_query_option`: `start` and `num_results` set the cursor fields;
     * a name of the table writes its native key; any other name raises and
     * nothing changes.
     */
    method SetQueryOption(key: string, value: Value) returns (r: Outcome<QueryError>)
      requires (key == "start" || key == "num_results") ==> value.Int?
      modifies this
      ensures key == "start" ==> r == Pass && State() == old(State()).(start := value.i) && queryData == old(queryData)
      ensures key == "num_results" ==> r == Pass && State() == old(State()).(pageSize := value.i) && queryData == old(queryData)
      ensures key != "start" && key != "num_results" ==>
                State() == old(State())
                && (key in config.optionTable ==> r == Pass && queryData == old(queryData)[config.optionTable[key] := value])
                && (key !in config.optionTable ==> r == Fail(UnknownQueryParameter(key)) && queryData == old(queryData))
    {
      r := Pass;
      if key == "start" {
        start := value.i;
      } else if key == "num_results" {
        numResults := value.i;
      } else {
        var native := Lookup(config.optionTable, key);
        if native.None? {
          r := Fail(UnknownQueryParameter(key));
        } else {
          queryData := queryData[native.value := value];
        }
      }
    }

    /** The request-parameter assembly of `make_request`: the fixed entries, then two copy loops. */
    method BuildRequestData() returns (r: map<string, Value>)
      ensures r == RequestData(config, apiKey, start, numResults, queryData)
    {
      r := map[config.apiKeyName := OptionValue(apiKey), config.startKey := Int(start), config.numResultsKey := Int(numResults)];
      r := CopyEntries(r, config.additional);
      r := CopyEntries(r, queryData);
    }

    /** `process_results` of the class: moves the cursor, then returns the raw records or raises (None). */
    method ProcessResults(body: DraftBody) returns (r: Option<seq<RawRecord>>)
      modifies this
      ensures State() == DraftProcess(kind, old(State()), body).Cur()
      ensures r.Some? <==> DraftProcess(kind, old(State()), body).Returned?
      ensures r.Some? ==> r.value == DraftProcess(kind, old(State()), body).items
      ensures queryData == old(queryData)
    {
      r := None;
      match kind
      case Base =>
      case IeeeDraft =>
        if body.IeeeArticles? {
          resultsTotal := body.totalRecords;
          start := start + |body.articles|;
          r := Some(body.articles);
        }
      case ElsevierDraft =>
        if body.SearchResults? {
          resultsTotal := body.totalResults;
          if body.entry.Some? {
            start := start + |body.entry.value|;
            r := Some(body.entry.value);
          }
        }
      case SpringerDraft =>
        if body.SpringerRecords? && body.result != [] {
          resultsTotal := body.result[0].total;
          start := start + body.result[0].recordsDisplayed;
          r := Some(body.records);
        }
    }

    /** `run`: request and process while results are expected; any exception sets `error` and ends it. */
    method Run(fs: seq<DraftFetched>) returns (items: seq<RawRecord>, used: nat)
      modifies this
      ensures (State(), items, used) == Drive(old(State()), fs, DraftStepFn(kind))
      ensures queryData == old(queryData)
    {
      items := [];
      used := 0;
      DriveStart(State(), fs, DraftStepFn(kind));
      while used < |fs| && HasResults()
        invariant Driven(old(State()), fs, DraftStepFn(kind), used, items, State())
        invariant queryData == old(queryData)
        decreases |fs| - used
      {
        ghost var before := State();
        var more: seq<RawRecord> := [];
        match fs[used] {
          case DraftFailure =>
            error := true;
          case DraftJson(body) =>
            var r := ProcessResults(body);
            if r.None? {
              error := true;
            } else {
              more := r.value;
            }
        }
        assert (State(), more) == AfterBatch(before, DraftStepFn(kind)(before, fs[used]));
        DriveAdvance(old(State()), fs, DraftStepFn(kind), used, items, before, State(), more);
        items := items + more;
        used := used + 1;
      }
      DriveStop(old(State()), fs, DraftStepFn(kind), used, items, State());
    }
  }

  /** The draft registrations, in order: aliases to adapter classes. */
  const DraftRegistrations: seq<(seq<string>, DraftKind)> := [
    (["springer", "springer_link", "springer-link", "springer_nature", "springer-nature"], SpringerDraft),
    (["ieee", "ieeexplore", "ieee_xplore", "ieee-xplore", "xplore"], IeeeDraft),
    (["science-direct", "sciencedirect", "elsevier"], ElsevierDraft)]

  /** The alias table after a sequence of draft registrations. */
  function DraftApisOf(regs: seq<(seq<string>, DraftKind)>): map<string, DraftKind>
    decreases |regs|
  {
    if regs == [] then map[]
    else Registry.Register(DraftApisOf(regs[..|regs| - 1]), regs[|regs| - 1].0, regs[|regs| - 1].1)
  }

  /** The alias table holds every listed alias, each to the class of the last registration naming it. */
  lemma {:induction false} DraftLastRegistrationWins(regs: seq<(seq<string>, DraftKind)>, i: nat, n: string)
    requires i < |regs| && n in regs[i].0
    requires forall j :: i < j < |regs| ==> n !in regs[j].0
    ensures n in DraftApisOf(regs) && DraftApisOf(regs)[n] == regs[i].1
    decreases |regs|
  {
    if i < |regs| - 1 {
      DraftLastRegistrationWins(regs[..|regs| - 1], i, n);
    }
  }

  /** Only listed aliases are registered. */
  lemma {:induction false} DraftOnlyListedAliases(regs: seq<(seq<string>, DraftKind)>, n: string)
    requires forall i :: 0 <= i < |regs| ==> n !in regs[i].0
    ensures n !in DraftApisOf(regs)
    decreases |regs|
  {
    if regs != [] {
      DraftOnlyListedAliases(regs[..|regs| - 1], n);
    }
  }

  /** Each draft alias appears in one registration only, the same lists as the settled package uses. */
  lemma DraftRegistrationsDistinct()
    ensures forall i, j, n :: 0 <= i < j < |DraftRegistrations| && n in DraftRegistrations[i].0 ==> n !in DraftRegistrations[j].0
    ensures forall i :: 0 <= i < |DraftRegistrations| ==> DraftRegistrations[i].0 == Registry.Registrations[i].names
  {
  }

  /** The draft module-level registry. */
  class DraftRegistry {
    var apis: map<string, DraftKind>

    /** The state after the draft package is imported. */
    constructor Load()
      ensures apis == DraftApisOf(DraftRegistrations)
    {
      apis := map[];
      new;
      var i := 0;
      while i < |DraftRegistrations|
        invariant 0 <= i <= |DraftRegistrations|
        invariant apis == DraftApisOf(DraftRegistrations[..i])
      {
        assert DraftRegistrations[..i + 1][..i] == DraftRegistrations[..i];
        RegisterApi(DraftRegistrations[i].0, DraftRegistrations[i].1);
        i := i + 1;
      }
      assert DraftRegistrations[..i] == DraftRegistrations;
    }

    /** `register_api`: every alias to the class, later registrations overwriting earlier ones. */
    method RegisterApi(names: seq<string>, api: DraftKind)
      modifies this
      ensures apis == Registry.Register(old(apis), names, api)
    {
      var i := 0;
      while i < |names|
        invariant 0 <= i <= |names|
        invariant apis == Registry.Register(old(apis), names[..i], api)
      {
        assert names[..i + 1][..i] == names[..i];
        apis := apis[names[i] := api];
        i := i + 1;
      }
      assert names[..i] == names;
    }

    /** `make_api`: a fresh adapter of the registered class with its defaults, or None. */
    method MakeApi(name: string, apiKey: Option<string>) returns (api: DraftLibrary?)
      requires forall n :: n in apis ==> apis[n] != Base
      ensures api == null <==> name !in apis
      ensures api != null ==>
                fresh(api) && api.kind == apis[name] && api.config == ConfigOf(apis[name]) && api.apiKey == apiKey
                && api.State() == Cursor(1, if apis[name] == ElsevierDraft then BaseNumResults else 50, UnknownTotal, false)
                && api.queryData == map[]
    {
      var k := Lookup(apis, name);
      if k.None? {
        return null;
      }
      var num := if k.value == ElsevierDraft then BaseNumResults else 50;
      api := new DraftLibrary(k.value, ConfigOf(k.value), apiKey, num, BaseStart);
    }
  }
}
