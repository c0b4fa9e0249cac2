/**
 * The settled adapter object (src/qal/digital_library.py) over the three
 * providers: its fields, the query options it collects, the request it
 * sends, and the `batch` and `run` loops that move its cursor.
 */
module Library {
  import opened Wrappers
  import opened Types
  import opened Paging
  import Ieee
  import ScienceDirect
  import Springer

  /** The three adapter classes. */
  datatype Provider = IeeeXplore | ScienceDirectSearch | SpringerNature

  function NameOf(p: Provider): string {
    match p
    case IeeeXplore => Ieee.Name
    case ScienceDirectSearch => ScienceDirect.Name
    case SpringerNature => Springer.Name
  }

  function DescriptionOf(p: Provider): string {
    match p
    case IeeeXplore => "IEEEXplore Library"
    case ScienceDirectSearch => "Elsevier Science Direct"
    case SpringerNature => "Springer Link"
  }

  function RequestTypeOf(p: Provider): string {
    if p == ScienceDirectSearch then "PUT" else "GET"
  }

  function EndpointOf(p: Provider): string {
    match p
    case IeeeXplore => Ieee.Endpoint
    case ScienceDirectSearch => ScienceDirect.Endpoint
    case SpringerNature => Springer.Endpoint
  }

  function OptionTableOf(p: Provider): map<string, OptionInfo> {
    match p
    case IeeeXplore => Ieee.OptionTable
    case ScienceDirectSearch => ScienceDirect.OptionTable
    case SpringerNature => Springer.OptionTable
  }

  /** The `max_results` default of each constructor. */
  function DefaultPageSizeOf(p: Provider): int {
    match p
    case IeeeXplore => Ieee.DefaultPageSize
    case ScienceDirectSearch => ScienceDirect.DefaultPageSize
    case SpringerNature => Springer.DefaultPageSize
  }

  /** The native names a table can write into `query_data`. */
  function NativeNames(table: map<string, OptionInfo>): set<string> {
    set n | n in table :: table[n].native
  }

  /** The request `make_request` sends: method, URL, URL parameters, headers and body. */
  datatype Request = Request(
    requestType: string,
    url: string,
    params: map<string, Value>,
    headers: map<string, Value>,
    body: Option<map<string, Value>>)

  /**
   * The request for a cursor and the collected `query_data`, through each
   * provider's `construct_parameters`, `construct_headers` and
   * `construct_body` (the base class gives `{}`, `{}` and None).
   */
  function RequestOf(p: Provider, c: Cursor, apiKey: Option<string>, queryData: map<string, string>): Request {
    match p
    case IeeeXplore =>
      Request(RequestTypeOf(p), EndpointOf(p), Ieee.Parameters(c.start, c.pageSize, apiKey, queryData), map[], None)
    case SpringerNature =>
      Request(RequestTypeOf(p), EndpointOf(p), Springer.Parameters(c.start, c.pageSize, apiKey, queryData), map[], None)
    case ScienceDirectSearch =>
      Request(RequestTypeOf(p), EndpointOf(p), map[], ScienceDirect.Headers(apiKey),
              Some(ScienceDirect.Body(c.start, c.pageSize, queryData)))
  }

  /**
   * What each provider's request carries: its method and endpoint, the
   * cursor's start and page size under the provider's own paging keys, the
   * API key, and every translated query option. Paging keys are never
   * native query names, so query data cannot override them.
   */
  ghost predicate Carries(p: Provider, c: Cursor, apiKey: Option<string>, queryData: map<string, string>, r: Request) {
            r.requestType == RequestTypeOf(p) && r.url == EndpointOf(p)
            && (p == IeeeXplore ==>
                  {"start_record", "max_results", "format", "apikey"} <= r.params.Keys
                  && r.params["start_record"] == Int(c.start) && r.params["max_results"] == Int(c.pageSize)
                  && r.params["format"] == Str("json") && r.params["apikey"] == OptionValue(apiKey)
                  && r.headers == map[] && r.body.None?)
            && (p == SpringerNature ==>
                  {"s", "p", "api_key"} <= r.params.Keys
                  && r.params["s"] == Int(c.start) && r.params["p"] == Int(c.pageSize)
                  && r.params["api_key"] == OptionValue(apiKey) && r.headers == map[] && r.body.None?)
            && (p == ScienceDirectSearch ==>
                  r.params == map[] && "X-ELS-APIKey" in r.headers && r.headers["X-ELS-APIKey"] == OptionValue(apiKey)
                  && r.body.Some? && {"offset", "show"} <= r.body.value.Keys
                  && r.body.value["offset"] == Int(c.start) && r.body.value["show"] == Int(c.pageSize))
            && forall k :: k in queryData ==>
                 if p == ScienceDirectSearch then r.body.Some? && k in r.body.value && r.body.value[k] == Str(queryData[k])
                 else k in r.params && r.params[k] == Str(queryData[k])
  }

  lemma RequestShape(p: Provider, c: Cursor, apiKey: Option<string>, queryData: map<string, string>)
    ensures queryData.Keys <= NativeNames(OptionTableOf(p)) ==> Carries(p, c, apiKey, queryData, RequestOf(p, c, apiKey, queryData))
  {
    NoPagingKeyIsNative(p);
    match p
    case IeeeXplore => Ieee.ParametersShape(c.start, c.pageSize, apiKey, queryData);
    case SpringerNature => Springer.ParametersShape(c.start, c.pageSize, apiKey, queryData);
    case ScienceDirectSearch =>
      ScienceDirect.HeadersShape(apiKey);
      ScienceDirect.BodyShape(c.start, c.pageSize, queryData);
  }

  lemma NoPagingKeyIsNative(p: Provider)
    ensures p == IeeeXplore ==> forall k :: k in NativeNames(OptionTableOf(p)) ==> k !in {"start_record", "max_results", "format", "apikey"}
    ensures p == SpringerNature ==> forall k :: k in NativeNames(OptionTableOf(p)) ==> k !in {"s", "p", "api_key"}
    ensures p == ScienceDirectSearch ==> forall k :: k in NativeNames(OptionTableOf(p)) ==> k !in {"offset", "show"}
  {
  }

  /** A JSON body as each provider sends it. */
  datatype Body =
    | IeeeJson(ieee: Ieee.Response)
    | ElsevierJson(elsevier: ScienceDirect.Response)
    | SpringerJson(springer: Springer.Response)

  /** What `make_request` gives back: a decoded body, or the exception once the retries are spent. */
  datatype Fetched = TransportFailure | Json(body: Body)

  /** What `batch` yields: a publication record, or (Springer Nature) a raw JSON record. */
  datatype Item = Pub(bib: Bib) | Raw(record: Springer.Record)

  function Pubs(bs: seq<Bib>): seq<Item> {
    seq(|bs|, i requires 0 <= i < |bs| => Pub(bs[i]))
  }

  function Raws(rs: seq<Springer.Record>): seq<Item> {
    seq(|rs|, i requires 0 <= i < |rs| => Raw(rs[i]))
  }

  function LiftBibs(p: Processed<Bib>): Processed<Item> {
    match p
    case Returned(c, bs) => Returned(c, Pubs(bs))
    case Raised(c) => Raised(c)
  }

  function LiftRecords(p: Processed<Springer.Record>): Processed<Item> {
    match p
    case Returned(c, rs) => Returned(c, Raws(rs))
    case Raised(c) => Raised(c)
  }

  /** Whether a body is the kind the provider's `process_results` reads. */
  predicate Matches(p: Provider, body: Body) {
    match p
    case IeeeXplore => body.IeeeJson?
    case ScienceDirectSearch => body.ElsevierJson?
    case SpringerNature => body.SpringerJson?
  }

  /**
   * `process_results` of the provider. A body of another provider's shape
   * raises at its first key lookup, before any field moves. IEEE Xplore
   * and Science Direct return publications; Springer Nature returns its
   * raw records.
   */
  function ProcessSpec(p: Provider, c: Cursor, body: Body, sanitize: string -> string): (r: Processed<Item>)
    ensures !Matches(p, body) ==> r == Raised(c)
    ensures r.Returned? && p != SpringerNature ==> forall i :: 0 <= i < |r.items| ==> r.items[i].Pub?
    ensures r.Returned? && p == SpringerNature ==> forall i :: 0 <= i < |r.items| ==> r.items[i].Raw?
    ensures p == ScienceDirectSearch && Matches(p, body) ==> r.Returned?
  {
    match body
    case IeeeJson(resp) =>
      if p == IeeeXplore then LiftBibs(Ieee.Process(c, resp, sanitize)) else Raised(c)
    case ElsevierJson(resp) =>
      if p == ScienceDirectSearch then LiftBibs(ScienceDirect.Process(c, resp)) else Raised(c)
    case SpringerJson(resp) =>
      if p == SpringerNature then LiftRecords(Springer.Process(c, resp, sanitize)) else Raised(c)
  }

  /** One request and its processing: None when the request raises. */
  function Step(p: Provider, sanitize: string -> string, c: Cursor, f: Fetched): Option<Processed<Item>> {
    match f
    case TransportFailure => None
    case Json(body) => Some(ProcessSpec(p, c, body, sanitize))
  }

  function StepFn(p: Provider, sanitize: string -> string): (Cursor, Fetched) -> Option<Processed<Item>> {
    (c, f) => Step(p, sanitize, c, f)
  }

  /** An IEEE Xplore page with no articles, once the total is known and not reached, leaves `run` asking forever. */
  lemma IeeeEmptyPageStalls(c: Cursor, n: nat, sanitize: string -> string)
    requires HasResults(c) && c.total != UnknownTotal
    ensures Drive(c, seq(n, _ => Json(IeeeJson(Ieee.Response(c.total, [])))), StepFn(IeeeXplore, sanitize)) == (c, [], n)
  {
    var fs := seq(n, _ => Json(IeeeJson(Ieee.Response(c.total, []))));
    forall i | 0 <= i < |fs|
      ensures StepFn(IeeeXplore, sanitize)(c, fs[i]) == Some(Returned(c, []))
    {
      assert Ieee.Records([], sanitize) == Some([]);
      assert Pubs([]) == [];
    }
    DriveStalls(c, fs, StepFn(IeeeXplore, sanitize));
  }

  /** Science Direct rate limiting neither moves the cursor nor ends `run`, whatever the total. */
  lemma RateLimitStalls(c: Cursor, n: nat)
    requires HasResults(c)
    ensures forall sanitize: string -> string ::
              Drive(c, seq(n, _ => Json(ElsevierJson(ScienceDirect.ErrorResponse(ScienceDirect.RateLimitCode)))),
                    StepFn(ScienceDirectSearch, sanitize)) == (c, [], n)
  {
    var fs := seq(n, _ => Json(ElsevierJson(ScienceDirect.ErrorResponse(ScienceDirect.RateLimitCode))));
    forall sanitize: string -> string
      ensures Drive(c, fs, StepFn(ScienceDirectSearch, sanitize)) == (c, [], n)
    {
      assert Pubs([]) == [];
      DriveStalls(c, fs, StepFn(ScienceDirectSearch, sanitize));
    }
  }

  /** An adapter object: the fields its methods update in place. */
  class DigitalLibrary {
    const provider: Provider
    const name: string
    const description: string
    const requestType: string
    const apiKey: Option<string>
    const apiEndpoint: string
    const optionTable: map<string, OptionInfo>
    /** The provider module's `sanitize_venue`. */
    const sanitize: string -> string
    var pageSize: int
    var start: int
    var resultsTotal: int
    var options: map<string, string>
    var queryData: map<string, string>
    var error: bool

    /** `query_data` holds only native names of the adapter's own table. */
    ghost predicate Valid()
      reads this
    {
      optionTable == OptionTableOf(provider) && queryData.Keys <= NativeNames(optionTable)
    }

    /** The constructor of each adapter class. */
    constructor (provider: Provider, apiKey: Option<string>, maxResults: int, startResult: int, sanitize: string -> string)
      ensures Valid()
      ensures this.provider == provider && name == NameOf(provider) && description == DescriptionOf(provider)
      ensures requestType == RequestTypeOf(provider) && this.apiKey == apiKey && apiEndpoint == EndpointOf(provider)
      ensures this.sanitize == sanitize
      ensures State() == Cursor(startResult, maxResults, UnknownTotal, false)
      ensures options == map[] && queryData == map[]
    {
      this.provider := provider;
      name := NameOf(provider);
      description := DescriptionOf(provider);
      requestType := RequestTypeOf(provider);
      this.apiKey := apiKey;
      apiEndpoint := EndpointOf(provider);
      optionTable := OptionTableOf(provider);
      this.sanitize := sanitize;
      pageSize := maxResults;
      start := startResult;
      resultsTotal := UnknownTotal;
      options := map[];
      queryData := map[];
      error := false;
    }

    /** The pagination fields as a cursor. */
    function State(): Cursor
      reads this
    {
      Cursor(start, pageSize, resultsTotal, error)
    }

    predicate HasResults()
      reads this
    {
      Paging.HasResults(State())
    }

    /** `estimate_batches`: None is the ZeroDivisionError of a zero page size. */
    function EstimateBatches(): (r: Option<int>)
      reads this
      ensures resultsTotal <= 0 ==> r == Some(Paging.UnknownBatches)
      ensures r.None? <==> resultsTotal > 0 && pageSize == 0
      ensures resultsTotal > 0 && pageSize > 0 ==>
                r.Some? && (r.value - 1) * pageSize < resultsTotal <= r.value * pageSize
    {
      Paging.EstimateBatches(State())
    }

    /** `estimate_batches_left`: all batches minus those `start` covers, unclamped. */
    function EstimateBatchesLeft(): (r: Option<int>)
      reads this
      ensures r.None? <==> pageSize == 0
      ensures r.Some? ==> EstimateBatches().Some? && r.value == EstimateBatches().value - Paging.CeilDiv(start, pageSize)
    {
      Paging.EstimateBatchesLeft(State())
    }

    /** `make_request`'s request: the provider's method and endpoint, the cursor, the key and `query_data`. */
    function MakeRequest(): (r: Request)
      reads this
      ensures Valid() ==> Carries(provider, State(), apiKey, queryData, r)
    {
      RequestShape(provider, State(), apiKey, queryData);
      RequestOf(provider, State(), apiKey, queryData)
    }

    /** `set_option`: one non-query option. */
    method SetOption(key: string, value: string)
      modifies this
      ensures options == old(options)[key := value]
      ensures State() == old(State()) && queryData == old(queryData)
    {
      options := options[key := value];
    }

    /** `set_options`: `dict.update`, the given options win. */
    method SetOptions(opts: map<string, string>)
      modifies this
      ensures options == Merge(old(options), opts)
      ensures State() == old(State()) && queryData == old(queryData)
    {
      options := options + opts;
    }

    /** `set_query_option`: write the native key, or raise and change nothing. */
    method SetQueryOption(key: string, value: string) returns (r: Outcome<QueryError>)
      requires Valid()
      modifies this
      ensures Valid()
      ensures r == Translate(optionTable, key)
      ensures r.Pass? ==> queryData == SetQueryData(optionTable, old(queryData), key, value)
      ensures r.Fail? ==> queryData == old(queryData)
      ensures State() == old(State()) && options == old(options)
    {
      var info := Lookup(optionTable, key);
      if info.Some? && info.value.isKey {
        queryData := queryData[info.value.native := value];
        r := Pass;
      } else if info.Some? {
        r := Fail(DelegationFailed(key));
      } else {
        r := Fail(UnknownQueryParameter(key));
      }
    }

    /** `set_query_options`: the options in order, stopping at the first that raises. */
    method SetQueryOptions(query: Query) returns (r: Outcome<QueryError>)
      requires Valid()
      modifies this
      ensures Valid()
      ensures (queryData, r) == ApplyQuery(optionTable, old(queryData), query)
      ensures State() == old(State()) && options == old(options)
    {
      var i := 0;
      while i < |query|
        invariant 0 <= i <= |query| && Valid()
        invariant ApplyQuery(optionTable, old(queryData), query) == ApplyQuery(optionTable, queryData, query[i..])
        invariant State() == old(State()) && options == old(options)
      {
        assert query[i..][1..] == query[i + 1..];
        r := SetQueryOption(query[i].0, query[i].1);
        if r.Fail? {
          return;
        }
        i := i + 1;
      }
      r := Pass;
    }

    /** `process_results` of the provider: moves the cursor, then returns the items or raises (None). */
    method ProcessResults(body: Body) returns (r: Option<seq<Item>>)
      modifies this
      ensures State() == ProcessSpec(provider, old(State()), body, sanitize).Cur()
      ensures r.Some? <==> ProcessSpec(provider, old(State()), body, sanitize).Returned?
      ensures r.Some? ==> r.value == ProcessSpec(provider, old(State()), body, sanitize).items
      ensures queryData == old(queryData) && options == old(options)
    {
      match body
      case IeeeJson(resp) =>
        if provider != IeeeXplore {
          return None;
        }
        resultsTotal := resp.totalRecords;
        start := start + |resp.articles|;
        var built := Ieee.BuildRecords(resp.articles, sanitize);
        r := if built.Some? then Some(Pubs(built.value)) else None;
      case ElsevierJson(resp) =>
        if provider != ScienceDirectSearch {
          return None;
        }
        match resp {
          case ErrorResponse(code) =>
            if code != ScienceDirect.RateLimitCode {
              error := true;
            }
            r := Some([]);
          case Page(found, results) =>
            resultsTotal := found;
            start := start + |results|;
            var built := ScienceDirect.BuildRecords(results);
            r := Some(Pubs(built));
        }
      case SpringerJson(resp) =>
        if provider != SpringerNature {
          return None;
        }
        if resp.result == [] {
          return None;
        }
        resultsTotal := resp.result[0].total;
        start := start + resp.result[0].recordsDisplayed;
        var built := Springer.BuildRecords(resp.records, sanitize);
        r := if built.Some? then Some(Raws(resp.records)) else None;
    }

    /** `batch`: one request when results are expected; any exception sets `error` and yields nothing. */
    method Batch(f: Fetched) returns (items: seq<Item>)
      modifies this
      ensures (State(), items) == AfterBatch(old(State()), StepFn(provider, sanitize)(old(State()), f))
      ensures queryData == old(queryData) && options == old(options)
    {
      items := [];
      if HasResults() {
        match f
        case TransportFailure =>
          error := true;
        case Json(body) =>
          var r := ProcessResults(body);
          if r.None? {
            error := true;
          } else {
            items := r.value;
          }
      }
    }

    /** `run`: batches while results are expected, one response each; `used` counts the responses. */
    method Run(fs: seq<Fetched>) returns (items: seq<Item>, used: nat)
      modifies this
      ensures (State(), items, used) == Drive(old(State()), fs, StepFn(provider, sanitize))
      ensures queryData == old(queryData) && options == old(options)
    {
      items := [];
      used := 0;
      DriveStart(State(), fs, StepFn(provider, sanitize));
      while used < |fs| && HasResults()
        invariant Driven(old(State()), fs, StepFn(provider, sanitize), used, items, State())
        invariant queryData == old(queryData) && options == old(options)
      {
        ghost var before := State();
        var more := Batch(fs[used]);
        DriveAdvance(old(State()), fs, StepFn(provider, sanitize), used, items, before, State(), more);
        items := items + more;
        used := used + 1;
      }
      DriveStop(old(State()), fs, StepFn(provider, sanitize), used, items, State());
    }
  }
}
